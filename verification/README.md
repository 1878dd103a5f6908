# Mealy machine builder and interpreter, modelled in Dafny

This project models the core of a small Mealy-machine library. A caller first
declares states, input symbols and output symbols. Next they choose an
initial state and add transitions `(current, input) -> (next, output)`.
Finally they run the machine over a list of inputs. Each step takes the first
transition, in declaration order, whose key is the current state and the
current input. It emits that transition's output and moves to its next
state. A step with no matching transition stops the run with an error. So
does a run on a machine that has no initial state.

Files:

- `Wrappers.dfy`: `Option` and `Result`.
- `Machine.dfy`: the `Transition` and `Machine` datatypes, the error kinds
  (`Err`), the builder operations, and the `WellFormed` invariant they keep.
  It also has `Decl`/`Build`, which write a chain of builder calls on one
  machine as a list. As in the Python library, the calls before a failing
  call keep their effect, and the failing call changes nothing and stops the
  chain; `Build` returns the machine as it then stands together with the
  error.
- `Interpreter.dfy`: the first-match lookup, the walk, `Process`, and
  `ProcessLoop`, which is the Python library's loop written as a method and
  proved equal to `Process`. It also has a declarative reading of a run
  (`IsRun`) and the lemmas that tie the walk to that reading.
- `Examples.dfy`: the turnstile and error scenarios from the test suite and
  the six-step traffic-light run from the example script.

The Python library mutates the machine in place. Here each builder operation
is a pure function. The three declarations cannot fail and return the new
`Machine`. The initial-state and transition calls can fail and return
`Result<Machine, Err>`. Every check in those two calls runs before anything
is changed (mealy_interpreter.py:81-84, 91-100), so a failing call leaves the
machine as it was, which here is the caller's own argument.

Two behaviours of the implementation are worth stating explicitly:

- Two transitions with the same `(state, input)` key are both stored
  (mealy_interpreter.py:99-100), and the lookup uses the one declared first
  (mealy_interpreter.py:118-120). The model does the same
  (`StepIsFirstMatch`, `ShadowedTransitionIgnored`).
- A run that finds no matching transition raises
  (mealy_interpreter.py:121-123), and the outputs it had collected
  (mealy_interpreter.py:113) are lost. In the model a failed run carries only
  the error.

## Model

| member | source | states |
|---|---|---|
| Machine.Empty | mealy_interpreter.py:49-55 | a new machine has no states, symbols, transitions or initial state, and is well formed |
| Machine.AddState | mealy_interpreter.py:57-62 | declaring a state adds exactly that name to the states; the alphabets, transitions and initial state are untouched |
| Machine.AddInput | mealy_interpreter.py:64-69 | declaring an input symbol adds exactly that symbol to the input alphabet; nothing else changes |
| Machine.AddOutput | mealy_interpreter.py:71-76 | declaring an output symbol adds exactly that symbol to the output alphabet; nothing else changes |
| Machine.DeclarationsIdempotent | mealy_interpreter.py:57-76 | repeating a declaration gives the same machine as making it once |
| Machine.RedeclarationIsNoOp | mealy_interpreter.py:57-76 | declaring a name that is already declared leaves the machine as it was |
| Machine.SetInitial | mealy_interpreter.py:78-85 | fails with the undeclared-initial-state error exactly when the state is not declared; otherwise only the initial state changes, to the given state |
| Machine.AddTransition | mealy_interpreter.py:87-104 | succeeds exactly when all four names are declared; otherwise reports the first undeclared one in the order current state, next state, input, output; on success appends exactly one record at the end and keeps every earlier one in place |
| Machine.Apply | mealy_interpreter.py:57-104 | a declaration of a state or symbol never fails; every successful builder call only grows the machine, keeps it well formed, and changes the initial state only when it is the initial-state call |
| Machine.Build | mealy_interpreter.py:57-104 | a chain of builder calls, stopped or not, only grows the machine and keeps it well formed; without an initial-state call the initial state is unchanged |
| Machine.BuildStopsAtFirstFailure | mealy_interpreter.py:78-104 | a stopped chain returns the machine produced by the calls before the failing one, all of which succeeded, and the error the failing call reports on that machine |
| Machine.BuildSnoc | mealy_interpreter.py:57-104 | after a chain whose calls all succeeded, one more call either extends the machine or stops the chain with the machine unchanged |
| Machine.DeclarationsAlwaysSucceed | mealy_interpreter.py:57-76 | a chain made only of state and symbol declarations never stops |
| Machine.BuiltMachinesAreWellFormed | mealy_interpreter.py:78-100 | every machine built from an empty one, whether or not the chain stopped, has a declared initial state (if set) and only declared names in its transitions |
| Interpreter.FirstMatch | mealy_interpreter.py:118-120 | returns the position of a rule with the key and no earlier rule has that key; returns none exactly when no rule has the key |
| Interpreter.Step | mealy_interpreter.py:118-123 | fails exactly when no rule has the key `(state, input)`, and the error names that state and input; on success the rule fired has that key |
| Interpreter.Walk | mealy_interpreter.py:112-128 | a successful walk emits one output per input and visits one more state than there are inputs, starting at the given state; a failed walk reports a missing transition |
| Interpreter.Process | mealy_interpreter.py:106-130 | with no initial state every input, including the empty one, fails with the no-initial-state error; a success has as many outputs as inputs; an empty input gives an empty output; any other failure is a missing transition |
| Interpreter.ProcessLoop | mealy_interpreter.py:106-130 | the Python library's loop with a linear scan for the first match computes exactly `Process` |
| Interpreter.StepIsFirstMatch | mealy_interpreter.py:118-128 | a step fires a given rule exactly when that rule is in the list and no earlier rule has its key: the first match wins when keys repeat |
| Interpreter.FiringRule | mealy_interpreter.py:118-120 | the rule at a position fires whenever no earlier rule shares its key |
| Interpreter.WalkSound | mealy_interpreter.py:115-128 | every run the walk computes is a declarative run: each input moves from one visited state to the next by the first-match rule and emits that rule's output |
| Interpreter.WalkComplete | mealy_interpreter.py:115-128 | every declarative run is the one the walk computes |
| Interpreter.WalkFailureWitness | mealy_interpreter.py:115-123 | a failed walk reaches, by a valid run over a prefix of the inputs, a state where no rule matches the next input, and reports that state and that input |
| Interpreter.WalkFailsWhereStuck | mealy_interpreter.py:118-123 | a walk that reaches a state with no rule for the next input fails there, naming that state and that input |
| Interpreter.ProcessSucceedsIff | mealy_interpreter.py:106-130 | with an initial state set, the run succeeds with given outputs exactly when a declarative run from the initial state emits them |
| Interpreter.DeclaredStep | mealy_interpreter.py:91-100 | in a well-formed machine every step moves to a declared state and emits a declared output |
| Interpreter.WalkStaysDeclared | mealy_interpreter.py:112-128 | in a well-formed machine, a walk from a declared state visits only declared states and emits only declared outputs |
| Interpreter.ProcessOutputsDeclared | mealy_interpreter.py:124 | every output of a successful run of a well-formed machine is a declared output symbol |
| Interpreter.UndeclaredInputFails | mealy_interpreter.py:118-123 | in a well-formed machine an undeclared input symbol anywhere in the input makes the run fail |
| Interpreter.AddedTransitionStep | mealy_interpreter.py:99-100 | appending a rule changes the step for its own key only, and only when no earlier rule has that key |
| Interpreter.ShadowedTransitionIgnored | mealy_interpreter.py:118-120 | adding a rule whose key already has a rule leaves every run of the machine unchanged |
| Interpreter.WalkAppend | mealy_interpreter.py:115-128 | walking over `a + b` is walking over `a` and then over `b` from the state where the first walk ended |
| Examples.TurnstileBuilds | test_mealy_interpreter.py:7-15 | every call in the turnstile's builder chain succeeds, and the chain yields the expected machine |
| Examples.TurnstileRun | test_mealy_interpreter.py:17-20 | the turnstile maps `coin, push, push` to `unlock, lock, alarm` |
| Examples.NoInitRejectsEverything | test_mealy_interpreter.py:23-29 | a machine with declarations but no initial state rejects every input with the no-initial-state error |
| Examples.BrokenRunFails | test_mealy_interpreter.py:32-41 | a machine with no transitions fails on `a` with the error naming state `S` and input `a` |
| Examples.UndeclaredTransitionScenario | test_mealy_interpreter.py:51-67 | the three rejected transitions report the undeclared next state `B`, the undeclared input `x` and the undeclared output `z` |
| Examples.FailedChainKeepsEarlierCalls | mealy_interpreter.py:78-85 | declaring `A` and then choosing the undeclared `B` as initial state stops with the undeclared-initial-state error for `B` and leaves `A` declared |
| Examples.TrafficLightBuilds | complex_traffic_light_example.py:12-32 | every call in the traffic light's builder chain succeeds, and the chain yields the expected machine |
| Examples.TrafficLightCycle | complex_traffic_light_example.py:30-32 | three ticks from green go through yellow and red back to green, emitting `caution, stop, go` |
| Examples.TrafficLightRun | complex_traffic_light_example.py:34-36 | six ticks emit `caution, stop, go, caution, stop, go` |

## Left out

- Logging: the module-wide logger set up at import time and every debug and
  info call. They are side effects with no effect on behaviour.
- The run-time argument check on the declaration and initial-state calls
  (mealy_interpreter.py:13-31). It raises a type error for a non-string
  argument, and an index error when the argument is passed by keyword
  (for example `m.state(name="A")`), because it only looks at positional
  arguments. Every parameter here has the static type `string` and is
  passed positionally, so neither error can occur.
- `visualize_dot` and `visualize_table`: string formatting only. The DOT
  renderer also iterates a set, whose order is unspecified.
- The machine's `name`: a label with no effect on behaviour.
- The example script's printing. Only its run is kept, as a lemma.
- Error message text. Each error is a variant of `Err` that says which check
  failed and carries the names involved; message strings are not compared.
- A check for conflicting transitions. The code does not have one, so the
  model does not add one either.
- Determinism of `process` across repeated calls needs no lemma: `Process`
  is a function.
