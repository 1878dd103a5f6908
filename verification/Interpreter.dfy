/** The interpreter: a deterministic walk over a sequence of input symbols.
    Each step takes the first transition, in declaration order, whose key is
    the current state and the current input, emits its output and moves to its
    next state. A step with no such transition stops the run. */
module Interpreter {
  import opened Wrappers
  import opened Machine

  /** `t` is a rule for `(state, symbol)`. */
  predicate Matches(t: Transition, state: string, symbol: string) {
    t.current == state && t.input == symbol
  }

  /** No rule of `m` has the key `(state, symbol)`. */
  predicate Stuck(m: Machine, state: string, symbol: string) {
    forall j :: 0 <= j < |m.transitions| ==> !Matches(m.transitions[j], state, symbol)
  }

  /** The position of the first rule for `(state, symbol)`, if there is one. */
  function FirstMatch(ts: seq<Transition>, state: string, symbol: string): (r: Option<nat>)
    ensures r.Some? ==> r.value < |ts| && Matches(ts[r.value], state, symbol)
    ensures r.Some? ==> forall j :: 0 <= j < r.value ==> !Matches(ts[j], state, symbol)
    ensures r.None? <==> forall j :: 0 <= j < |ts| ==> !Matches(ts[j], state, symbol)
    decreases |ts|
  {
    if |ts| == 0 then None
    else if Matches(ts[0], state, symbol) then Some(0)
    else
      match FirstMatch(ts[1..], state, symbol)
      case None => None
      case Some(k) => Some(k + 1)
  }

  /** One step of the walk: the rule that fires in `state` on `symbol`, or
      the error naming that state and that symbol. */
  function Step(m: Machine, state: string, symbol: string): (r: Result<Transition, Err>)
    ensures r.Failure? <==> Stuck(m, state, symbol)
    ensures r.Failure? ==> r.error == NoTransition(state, symbol)
    ensures r.Success? ==> Matches(r.value, state, symbol)
  {
    match FirstMatch(m.transitions, state, symbol)
    case None => Failure(NoTransition(state, symbol))
    case Some(k) => Success(m.transitions[k])
  }

  /** The outcome of a successful walk: the emitted outputs and the states
      visited, the starting state first and the final state last. */
  datatype Run = Run(outputs: seq<string>, path: seq<string>)

  /** Walks `m` from `state` over `inputs`. */
  function Walk(m: Machine, state: string, inputs: seq<string>): (r: Result<Run, Err>)
    ensures r.Success? ==> |r.value.outputs| == |inputs| && |r.value.path| == |inputs| + 1
    ensures r.Success? ==> r.value.path[0] == state
    ensures r.Failure? ==> r.error.NoTransition?
    decreases |inputs|
  {
    if |inputs| == 0 then Success(Run([], [state]))
    else
      match Step(m, state, inputs[0])
      case Failure(e) => Failure(e)
      case Success(t) =>
        match Walk(m, t.next, inputs[1..])
        case Failure(e) => Failure(e)
        case Success(rest) => Success(Run([t.output] + rest.outputs, [state] + rest.path))
  }

  /** The outputs of a walk, placed after `prefix`; a failed walk stays
      failed and keeps nothing. */
  function Prefixed(prefix: seq<string>, w: Result<Run, Err>): Result<seq<string>, Err> {
    match w
    case Failure(e) => Failure(e)
    case Success(run) => Success(prefix + run.outputs)
  }

  /** Runs the machine from its initial state and returns the outputs. */
  function Process(m: Machine, inputs: seq<string>): (r: Result<seq<string>, Err>)
    ensures m.initial.None? ==> r == Failure(NoInitialState)
    ensures r.Success? ==> |r.value| == |inputs|
    ensures m.initial.Some? && |inputs| == 0 ==> r == Success([])
    ensures m.initial.Some? && r.Failure? ==> r.error.NoTransition?
  {
    match m.initial
    case None => Failure(NoInitialState)
    case Some(s) => Prefixed([], Walk(m, s, inputs))
  }

  /** Taking the first step of a walk moves its output into the prefix. */
  lemma PrefixedStep(m: Machine, state: string, inputs: seq<string>, t: Transition, prefix: seq<string>)
    requires |inputs| > 0 && Step(m, state, inputs[0]) == Success(t)
    ensures Prefixed(prefix, Walk(m, state, inputs))
         == Prefixed(prefix + [t.output], Walk(m, t.next, inputs[1..]))
  {
    var w := Walk(m, t.next, inputs[1..]);
    if w.Success? {
      assert prefix + ([t.output] + w.value.outputs) == prefix + [t.output] + w.value.outputs;
    }
  }

  /** The same run written as the Python library's loop: for each input, a
      linear scan of the rules for the first match. */
  method ProcessLoop(m: Machine, inputs: seq<string>) returns (r: Result<seq<string>, Err>)
    ensures r == Process(m, inputs)
  {
    if m.initial.None? {
      return Failure(NoInitialState);
    }
    var state := m.initial.value;
    var outputs: seq<string> := [];
    var i := 0;
    assert inputs[0..] == inputs;
    while i < |inputs|
      invariant 0 <= i <= |inputs|
      invariant Process(m, inputs) == Prefixed(outputs, Walk(m, state, inputs[i..]))
    {
      var inp := inputs[i];
      var j := 0;
      while j < |m.transitions| && !Matches(m.transitions[j], state, inp)
        invariant 0 <= j <= |m.transitions|
        invariant forall k :: 0 <= k < j ==> !Matches(m.transitions[k], state, inp)
      {
        j := j + 1;
      }
      if j == |m.transitions| {
        return Failure(NoTransition(state, inp));
      }
      var t := m.transitions[j];
      assert FirstMatch(m.transitions, state, inp) == Some(j);
      assert inputs[i..][1..] == inputs[i + 1..];
      PrefixedStep(m, state, inputs[i..], t, outputs);
      outputs := outputs + [t.output];
      state := t.next;
      i := i + 1;
    }
    assert inputs[i..] == [];
    assert outputs + [] == outputs;
    return Success(outputs);
  }

  /** Declarative reading of one step: the rule `(state, symbol, next,
      output)` is in the list and no earlier rule has its key. */
  ghost predicate TakesStep(m: Machine, state: string, symbol: string, output: string, next: string) {
    exists j :: 0 <= j < |m.transitions|
      && m.transitions[j] == Transition(state, symbol, next, output)
      && forall i :: 0 <= i < j ==> !Matches(m.transitions[i], state, symbol)
  }

  /** Declarative reading of a whole run: `run.path` starts at `state`, and
      every input moves from one visited state to the next by a first-match
      step that emits the matching output. */
  ghost predicate IsRun(m: Machine, state: string, inputs: seq<string>, run: Run) {
    && |run.outputs| == |inputs|
    && |run.path| == |inputs| + 1
    && run.path[0] == state
    && forall k :: 0 <= k < |inputs| ==>
         TakesStep(m, run.path[k], inputs[k], run.outputs[k], run.path[k + 1])
  }

  /** `Step` fires exactly the first rule for its key: first match wins when
      keys are duplicated. */
  lemma StepIsFirstMatch(m: Machine, state: string, symbol: string, output: string, next: string)
    ensures Step(m, state, symbol) == Success(Transition(state, symbol, next, output))
        <==> TakesStep(m, state, symbol, output, next)
  {
  }

  /** The rule at position `j` fires when no earlier rule has its key. */
  lemma FiringRule(m: Machine, j: nat)
    requires j < |m.transitions|
    requires forall i :: 0 <= i < j ==>
      !Matches(m.transitions[i], m.transitions[j].current, m.transitions[j].input)
    ensures Step(m, m.transitions[j].current, m.transitions[j].input) == Success(m.transitions[j])
  {
  }

  /** A walk over `[symbol] + rest` is the step on `symbol` followed by the
      walk over `rest`. */
  lemma WalkCons(m: Machine, state: string, symbol: string, rest: seq<string>, t: Transition, run: Run)
    requires Step(m, state, symbol) == Success(t)
    requires Walk(m, t.next, rest) == Success(run)
    ensures Walk(m, state, [symbol] + rest) == Success(Run([t.output] + run.outputs, [state] + run.path))
  {
  }

  /** A run computed by `Walk` satisfies the declarative reading. */
  lemma {:induction false} WalkSound(m: Machine, state: string, inputs: seq<string>, run: Run)
    requires Walk(m, state, inputs) == Success(run)
    ensures IsRun(m, state, inputs, run)
    decreases |inputs|
  {
    if |inputs| > 0 {
      var t := Step(m, state, inputs[0]).value;
      var rest := Walk(m, t.next, inputs[1..]).value;
      WalkSound(m, t.next, inputs[1..], rest);
      StepIsFirstMatch(m, state, inputs[0], t.output, t.next);
      assert run == Run([t.output] + rest.outputs, [state] + rest.path);
      forall k | 0 <= k < |inputs|
        ensures TakesStep(m, run.path[k], inputs[k], run.outputs[k], run.path[k + 1])
      {
        if k > 0 {
          assert inputs[k] == inputs[1..][k - 1];
          assert TakesStep(m, rest.path[k - 1], inputs[1..][k - 1], rest.outputs[k - 1], rest.path[k]);
        }
      }
    }
  }

  /** A run satisfying the declarative reading drops its first step and
      remains a run from its second state. */
  lemma RunTail(m: Machine, state: string, inputs: seq<string>, run: Run)
    requires IsRun(m, state, inputs, run) && |inputs| > 0
    ensures IsRun(m, run.path[1], inputs[1..], Run(run.outputs[1..], run.path[1..]))
  {
  }

  /** Every run satisfying the declarative reading is the one `Walk`
      computes. */
  lemma {:induction false} WalkComplete(m: Machine, state: string, inputs: seq<string>, run: Run)
    requires IsRun(m, state, inputs, run)
    ensures Walk(m, state, inputs) == Success(run)
    decreases |inputs|
  {
    if |inputs| == 0 {
      assert run == Run([], [state]);
    } else {
      StepIsFirstMatch(m, state, inputs[0], run.outputs[0], run.path[1]);
      var rest := Run(run.outputs[1..], run.path[1..]);
      RunTail(m, state, inputs, run);
      WalkComplete(m, run.path[1], inputs[1..], rest);
      assert run == Run([run.outputs[0]] + rest.outputs, [state] + rest.path);
    }
  }

  /** A failed walk stops at a reachable state where no rule matches the
      next input, and reports exactly that state and that input. */
  lemma {:induction false} WalkFailureWitness(m: Machine, state: string, inputs: seq<string>, e: Err)
    returns (k: nat, run: Run)
    requires Walk(m, state, inputs) == Failure(e)
    ensures k < |inputs| && |run.path| == k + 1
    ensures IsRun(m, state, inputs[..k], run)
    ensures Stuck(m, run.path[k], inputs[k])
    ensures e == NoTransition(run.path[k], inputs[k])
    decreases |inputs|
  {
    var s := Step(m, state, inputs[0]);
    if s.Failure? {
      k, run := 0, Run([], [state]);
      assert IsRun(m, state, inputs[..0], run);
    } else {
      var t := s.value;
      var k', run' := WalkFailureWitness(m, t.next, inputs[1..], e);
      k, run := k' + 1, Run([t.output] + run'.outputs, [state] + run'.path);
      WalkComplete(m, t.next, inputs[1..][..k'], run');
      assert inputs[..k][1..] == inputs[1..][..k'];
      assert Walk(m, state, inputs[..k]) == Success(run);
      WalkSound(m, state, inputs[..k], run);
      assert inputs[k] == inputs[1..][k'];
    }
  }

  /** Conversely, a walk that reaches a state where no rule matches the next
      input fails there, naming that state and that input. */
  lemma {:induction false} WalkFailsWhereStuck(m: Machine, state: string, inputs: seq<string>, k: nat, run: Run)
    requires k < |inputs|
    requires IsRun(m, state, inputs[..k], run)
    requires Stuck(m, run.path[k], inputs[k])
    ensures Walk(m, state, inputs) == Failure(NoTransition(run.path[k], inputs[k]))
    decreases k
  {
    if k > 0 {
      RunTail(m, state, inputs[..k], run);
      StepIsFirstMatch(m, state, inputs[0], run.outputs[0], run.path[1]);
      assert inputs[..k][1..] == inputs[1..][..k - 1];
      assert inputs[k] == inputs[1..][k - 1];
      WalkFailsWhereStuck(m, run.path[1], inputs[1..], k - 1, Run(run.outputs[1..], run.path[1..]));
    }
  }

  /** `Process` succeeds with `outputs` exactly when a run from the initial
      state emits them. */
  lemma ProcessSucceedsIff(m: Machine, inputs: seq<string>, outputs: seq<string>)
    requires m.initial.Some?
    ensures Process(m, inputs) == Success(outputs)
        <==> exists run :: IsRun(m, m.initial.value, inputs, run) && run.outputs == outputs
  {
    var s := m.initial.value;
    if Process(m, inputs) == Success(outputs) {
      var run := Walk(m, s, inputs).value;
      WalkSound(m, s, inputs, run);
    }
    if exists run :: IsRun(m, s, inputs, run) && run.outputs == outputs {
      var run :| IsRun(m, s, inputs, run) && run.outputs == outputs;
      WalkComplete(m, s, inputs, run);
      assert [] + run.outputs == outputs;
    }
  }

  /** In a well-formed machine a step moves to a declared state and emits a
      declared output. */
  lemma DeclaredStep(m: Machine, state: string, symbol: string, output: string, next: string)
    requires WellFormed(m) && TakesStep(m, state, symbol, output, next)
    ensures next in m.states && output in m.outputs
  {
  }

  /** In a well-formed machine a walk from a declared state visits only
      declared states and emits only declared outputs. */
  lemma WalkStaysDeclared(m: Machine, state: string, inputs: seq<string>, run: Run)
    requires WellFormed(m) && state in m.states
    requires Walk(m, state, inputs) == Success(run)
    ensures forall k :: 0 <= k < |run.path| ==> run.path[k] in m.states
    ensures forall k :: 0 <= k < |run.outputs| ==> run.outputs[k] in m.outputs
  {
    WalkSound(m, state, inputs, run);
    forall k | 0 <= k < |inputs|
      ensures run.path[k + 1] in m.states && run.outputs[k] in m.outputs
    {
      DeclaredStep(m, run.path[k], inputs[k], run.outputs[k], run.path[k + 1]);
    }
    forall k | 0 <= k < |run.path|
      ensures run.path[k] in m.states
    {
      if k > 0 {
        DeclaredStep(m, run.path[k - 1], inputs[k - 1], run.outputs[k - 1], run.path[k]);
      }
    }
  }

  /** Every output of a successful `Process` on a well-formed machine is a
      declared output symbol. */
  lemma ProcessOutputsDeclared(m: Machine, inputs: seq<string>, outputs: seq<string>)
    requires WellFormed(m)
    requires Process(m, inputs) == Success(outputs)
    ensures forall k :: 0 <= k < |outputs| ==> outputs[k] in m.outputs
  {
    var s := m.initial.value;
    WalkStaysDeclared(m, s, inputs, Walk(m, s, inputs).value);
  }

  /** On a well-formed machine, an undeclared input symbol anywhere in the
      input makes the walk fail (at that position or earlier). */
  lemma {:induction false} UndeclaredInputFails(m: Machine, state: string, inputs: seq<string>, k: nat)
    requires WellFormed(m)
    requires k < |inputs| && inputs[k] !in m.inputs
    ensures Walk(m, state, inputs).Failure?
    decreases k
  {
    var s := Step(m, state, inputs[0]);
    if s.Success? {
      var j := FirstMatch(m.transitions, state, inputs[0]).value;
      assert Declared(m, m.transitions[j]);
      if k > 0 {
        assert inputs[1..][k - 1] == inputs[k];
        UndeclaredInputFails(m, s.value.next, inputs[1..], k - 1);
      }
    }
  }

  /** Two machines whose steps agree everywhere walk alike. */
  lemma {:induction false} WalkDependsOnlyOnSteps(m1: Machine, m2: Machine, state: string, inputs: seq<string>)
    requires forall s, x :: Step(m1, s, x) == Step(m2, s, x)
    ensures Walk(m1, state, inputs) == Walk(m2, state, inputs)
    decreases |inputs|
  {
    if |inputs| > 0 {
      var st := Step(m1, state, inputs[0]);
      if st.Success? {
        WalkDependsOnlyOnSteps(m1, m2, st.value.next, inputs[1..]);
      }
    }
  }

  /** Appending a rule changes the step only for its own key, and only when
      no earlier rule has that key. */
  lemma AddedTransitionStep(m: Machine, c: string, i: string, n: string, o: string, m': Machine,
                            state: string, symbol: string)
    requires AddTransition(m, c, i, n, o) == Success(m')
    ensures (state, symbol) != (c, i) ==> Step(m', state, symbol) == Step(m, state, symbol)
    ensures (state, symbol) == (c, i) && !Stuck(m, c, i) ==> Step(m', state, symbol) == Step(m, state, symbol)
    ensures (state, symbol) == (c, i) && Stuck(m, c, i)
      ==> Step(m', state, symbol) == Success(Transition(c, i, n, o))
  {
  }

  /** A rule whose key is already taken is shadowed: adding it leaves every
      run of the machine as it was. */
  lemma ShadowedTransitionIgnored(m: Machine, c: string, i: string, n: string, o: string, m': Machine,
                                  inputs: seq<string>)
    requires AddTransition(m, c, i, n, o) == Success(m')
    requires !Stuck(m, c, i)
    ensures Process(m', inputs) == Process(m, inputs)
  {
    forall s, x ensures Step(m', s, x) == Step(m, s, x) {
      AddedTransitionStep(m, c, i, n, o, m', s, x);
    }
    if m.initial.Some? {
      WalkDependsOnlyOnSteps(m', m, m.initial.value, inputs);
    }
  }

  /** Walking over `a + b` is walking over `a` and then over `b` from where
      the first walk ended. */
  lemma {:induction false} WalkAppend(m: Machine, state: string, a: seq<string>, b: seq<string>, ra: Run,
                                      prefix: seq<string>)
    requires Walk(m, state, a) == Success(ra)
    ensures Prefixed(prefix + ra.outputs, Walk(m, ra.path[|a|], b)) == Prefixed(prefix, Walk(m, state, a + b))
    decreases |a|
  {
    if |a| == 0 {
      assert a + b == b;
      assert prefix + ra.outputs == prefix;
    } else {
      var t := Step(m, state, a[0]).value;
      var rest := Walk(m, t.next, a[1..]).value;
      assert (a + b)[0] == a[0];
      assert (a + b)[1..] == a[1..] + b;
      PrefixedStep(m, state, a + b, t, prefix);
      WalkAppend(m, t.next, a[1..], b, rest, prefix + [t.output]);
      assert ra.path[|a|] == rest.path[|a| - 1];
      assert prefix + ra.outputs == prefix + [t.output] + rest.outputs;
    }
  }
}
