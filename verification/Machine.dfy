/** The definition side of a Mealy machine: the declared states, the input
    and output alphabets, the optional initial state and the ordered list of
    transitions, together with the builder operations that grow them.

    Every builder operation is a pure function from the old definition to the
    new one. The Python library's operations mutate the machine in place and
    return it for chaining; an operation that raises does so before it
    changes anything, so the machine stays as it was, which here is simply the
    caller's unchanged argument.

    The Python library wraps the declaration operations in a run-time
    argument check that raises a type error for a non-string argument. Every
    parameter here has the static type `string`, so that error cannot arise
    and has no counterpart in `Err`. */
module Machine {
  import opened Wrappers

  /** One rule `(current, input) -> (next, output)`. */
  datatype Transition = Transition(current: string, input: string, next: string, output: string)

  /** A machine definition. `transitions` is kept in declaration order, which
      decides the lookup when two rules share a `(current, input)` key. */
  datatype Machine = Machine(
    states: set<string>,
    inputs: set<string>,
    outputs: set<string>,
    transitions: seq<Transition>,
    initial: Option<string>)

  /** Which check failed. The Python library raises a value error with a message for
      each of these; the model keeps only the kind and the offending names. */
  datatype Err =
    | UndeclaredInitialState(state: string)
    | UndeclaredCurrentState(state: string)
    | UndeclaredNextState(state: string)
    | UndeclaredInput(symbol: string)
    | UndeclaredOutput(symbol: string)
    | NoInitialState
    | NoTransition(state: string, symbol: string)

  /** A transition mentions only declared states and declared symbols. */
  predicate Declared(m: Machine, t: Transition) {
    && t.current in m.states
    && t.next in m.states
    && t.input in m.inputs
    && t.output in m.outputs
  }

  /** The invariant every definition built through the operations below
      keeps: the initial state, when set, is declared, and every stored
      transition is declared. */
  predicate WellFormed(m: Machine) {
    && (m.initial.Some? ==> m.initial.value in m.states)
    && forall k :: 0 <= k < |m.transitions| ==> Declared(m, m.transitions[k])
  }

  /** `r` is `m` grown by declarations: no state, symbol or transition of `m`
      is missing from `r`, and the transitions of `m` are still the first ones
      of `r`, in the same order. */
  predicate Extends(m: Machine, r: Machine) {
    && m.states <= r.states
    && m.inputs <= r.inputs
    && m.outputs <= r.outputs
    && m.transitions <= r.transitions
  }

  /** A fresh machine: nothing declared, no initial state. */
  function Empty(): (r: Machine)
    ensures r.states == {} && r.inputs == {} && r.outputs == {}
    ensures |r.transitions| == 0 && r.initial.None?
    ensures WellFormed(r)
  {
    Machine({}, {}, {}, [], None)
  }

  /** Declares a state. */
  function AddState(m: Machine, name: string): (r: Machine)
    ensures name in r.states
    ensures forall s :: s in r.states <==> s in m.states || s == name
    ensures r.inputs == m.inputs && r.outputs == m.outputs
    ensures r.transitions == m.transitions && r.initial == m.initial
  {
    m.(states := m.states + {name})
  }

  /** Declares an input symbol. */
  function AddInput(m: Machine, symbol: string): (r: Machine)
    ensures symbol in r.inputs
    ensures forall s :: s in r.inputs <==> s in m.inputs || s == symbol
    ensures r.states == m.states && r.outputs == m.outputs
    ensures r.transitions == m.transitions && r.initial == m.initial
  {
    m.(inputs := m.inputs + {symbol})
  }

  /** Declares an output symbol. */
  function AddOutput(m: Machine, symbol: string): (r: Machine)
    ensures symbol in r.outputs
    ensures forall s :: s in r.outputs <==> s in m.outputs || s == symbol
    ensures r.states == m.states && r.inputs == m.inputs
    ensures r.transitions == m.transitions && r.initial == m.initial
  {
    m.(outputs := m.outputs + {symbol})
  }

  /** Repeating a declaration changes nothing. */
  lemma DeclarationsIdempotent(m: Machine, x: string)
    ensures AddState(AddState(m, x), x) == AddState(m, x)
    ensures AddInput(AddInput(m, x), x) == AddInput(m, x)
    ensures AddOutput(AddOutput(m, x), x) == AddOutput(m, x)
  {
  }

  /** Declaring something already declared leaves the machine as it was. */
  lemma RedeclarationIsNoOp(m: Machine, x: string)
    ensures x in m.states ==> AddState(m, x) == m
    ensures x in m.inputs ==> AddInput(m, x) == m
    ensures x in m.outputs ==> AddOutput(m, x) == m
  {
  }

  /** Sets the initial state, which must already be declared. */
  function SetInitial(m: Machine, state: string): (r: Result<Machine, Err>)
    ensures r.Failure? <==> state !in m.states
    ensures r.Failure? ==> r.error == UndeclaredInitialState(state)
    ensures r.Success? ==> r.value.initial == Some(state)
    ensures r.Success? ==> r.value == m.(initial := Some(state))
  {
    if state !in m.states then Failure(UndeclaredInitialState(state))
    else Success(m.(initial := Some(state)))
  }

  /** Appends a transition after checking, in this order, the current state,
      the next state, the input symbol and the output symbol; the first
      undeclared one is reported. Earlier transitions are kept even when they
      share the new rule's `(current, input)` key. */
  function AddTransition(m: Machine, current: string, input: string, next: string, output: string)
    : (r: Result<Machine, Err>)
    ensures r.Success? <==> Declared(m, Transition(current, input, next, output))
    ensures current !in m.states ==> r == Failure(UndeclaredCurrentState(current))
    ensures current in m.states && next !in m.states ==> r == Failure(UndeclaredNextState(next))
    ensures current in m.states && next in m.states && input !in m.inputs
      ==> r == Failure(UndeclaredInput(input))
    ensures current in m.states && next in m.states && input in m.inputs && output !in m.outputs
      ==> r == Failure(UndeclaredOutput(output))
    ensures r.Success? ==> |r.value.transitions| == |m.transitions| + 1
    ensures r.Success? ==> r.value.transitions[..|m.transitions|] == m.transitions
    ensures r.Success? ==> r.value.transitions[|m.transitions|] == Transition(current, input, next, output)
    ensures r.Success? ==> r.value == m.(transitions := r.value.transitions)
  {
    if current !in m.states then Failure(UndeclaredCurrentState(current))
    else if next !in m.states then Failure(UndeclaredNextState(next))
    else if input !in m.inputs then Failure(UndeclaredInput(input))
    else if output !in m.outputs then Failure(UndeclaredOutput(output))
    else Success(m.(transitions := m.transitions + [Transition(current, input, next, output)]))
  }

  /** One builder call, as a value, so that a chain of calls can be written
      as a list. */
  datatype Decl =
    | DeclState(name: string)
    | DeclInput(symbol: string)
    | DeclOutput(symbol: string)
    | DeclInitial(state: string)
    | DeclTransition(current: string, input: string, next: string, output: string)

  /** Performs one builder call. */
  function Apply(m: Machine, d: Decl): (r: Result<Machine, Err>)
    ensures d.DeclState? || d.DeclInput? || d.DeclOutput? ==> r.Success?
    ensures r.Success? ==> Extends(m, r.value)
    ensures r.Success? && WellFormed(m) ==> WellFormed(r.value)
    ensures r.Success? && !d.DeclInitial? ==> r.value.initial == m.initial
  {
    match d
    case DeclState(s) => Success(AddState(m, s))
    case DeclInput(s) => Success(AddInput(m, s))
    case DeclOutput(s) => Success(AddOutput(m, s))
    case DeclInitial(s) => SetInitial(m, s)
    case DeclTransition(c, i, n, o) => AddTransition(m, c, i, n, o)
  }

  /** The state of the machine after a chain of builder calls, and the error
      of the call that stopped the chain, if one did. */
  datatype Built = Built(machine: Machine, error: Option<Err>)

  /** A chain of builder calls on one machine, as in the Python library's
      fluent style. Each successful call changes the machine in place, so the
      calls before a failing one keep their effect; the failing call changes
      nothing and stops the chain. */
  function Build(m: Machine, ds: seq<Decl>): (r: Built)
    ensures Extends(m, r.machine)
    ensures WellFormed(m) ==> WellFormed(r.machine)
    ensures (forall k :: 0 <= k < |ds| ==> !ds[k].DeclInitial?) ==> r.machine.initial == m.initial
    ensures |ds| == 0 ==> r == Built(m, None)
    decreases |ds|
  {
    if |ds| == 0 then Built(m, None)
    else
      match Apply(m, ds[0])
      case Failure(e) => Built(m, Some(e))
      case Success(m') => Build(m', ds[1..])
  }

  /** A chain that stops does so at some call `k`: the calls before it all
      succeeded and produced the returned machine, and call `k` failed on
      that machine with the returned error. */
  lemma {:induction false} BuildStopsAtFirstFailure(m: Machine, ds: seq<Decl>) returns (k: nat)
    requires Build(m, ds).error.Some?
    ensures k < |ds|
    ensures Build(m, ds[..k]) == Built(Build(m, ds).machine, None)
    ensures Apply(Build(m, ds).machine, ds[k]) == Failure(Build(m, ds).error.value)
    decreases |ds|
  {
    match Apply(m, ds[0])
    case Failure(e) =>
      k := 0;
    case Success(m') =>
      var k' := BuildStopsAtFirstFailure(m', ds[1..]);
      k := k' + 1;
      assert ds[..k][0] == ds[0];
      assert ds[..k][1..] == ds[1..][..k'];
      assert ds[k] == ds[1..][k'];
  }

  /** A chain whose calls all succeed applies every one of them: it is the
      chain of the first calls followed by the last. */
  lemma {:induction false} BuildSnoc(m: Machine, ds: seq<Decl>, d: Decl)
    requires Build(m, ds).error.None?
    ensures Build(m, ds + [d]) == match Apply(Build(m, ds).machine, d)
      case Failure(e) => Built(Build(m, ds).machine, Some(e))
      case Success(m') => Built(m', None)
    decreases |ds|
  {
    if |ds| == 0 {
      assert ds + [d] == [d];
      assert [d][1..] == [];
    } else {
      var m' := Apply(m, ds[0]).value;
      assert (ds + [d])[0] == ds[0];
      assert (ds + [d])[1..] == ds[1..] + [d];
      BuildSnoc(m', ds[1..], d);
    }
  }

  /** A chain of declarations only (no initial state and no transitions)
      never stops. */
  lemma {:induction false} DeclarationsAlwaysSucceed(m: Machine, ds: seq<Decl>)
    requires forall k :: 0 <= k < |ds| ==> ds[k].DeclState? || ds[k].DeclInput? || ds[k].DeclOutput?
    ensures Build(m, ds).error.None?
    decreases |ds|
  {
    if |ds| > 0 {
      DeclarationsAlwaysSucceed(Apply(m, ds[0]).value, ds[1..]);
    }
  }

  /** Every machine built from `Empty()`, whether or not the chain stopped,
      is well formed. */
  lemma BuiltMachinesAreWellFormed(ds: seq<Decl>)
    ensures WellFormed(Build(Empty(), ds).machine)
  {
  }
}
