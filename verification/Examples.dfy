/** Concrete machines and runs: the turnstile and the error scenarios of the
    test suite, and the traffic-light controller of the example script. Each
    machine is written once as the chain of builder calls that makes it. */
module Examples {
  import opened Wrappers
  import opened Machine
  import opened Interpreter

  /** The turnstile, built by the same chain of calls as in the test suite:
      a coin unlocks, a push locks again, a push while locked raises an
      alarm. */
  function Turnstile(): Result<Machine, Err> {
    var m0 := AddState(AddState(Empty(), "Locked"), "Unlocked");
    var m1 := AddInput(AddInput(m0, "coin"), "push");
    var m2 := AddOutput(AddOutput(AddOutput(m1, "unlock"), "alarm"), "lock");
    match SetInitial(m2, "Locked")
    case Failure(e) => Failure(e)
    case Success(m3) =>
      match AddTransition(m3, "Locked", "coin", "Unlocked", "unlock")
      case Failure(e) => Failure(e)
      case Success(m4) =>
        match AddTransition(m4, "Locked", "push", "Locked", "alarm")
        case Failure(e) => Failure(e)
        case Success(m5) => AddTransition(m5, "Unlocked", "push", "Locked", "lock")
  }

  /** The turnstile machine as a value. */
  function TurnstileMachine(): Machine {
    Machine(
      {"Locked", "Unlocked"}, {"coin", "push"}, {"unlock", "alarm", "lock"},
      [ Transition("Locked", "coin", "Unlocked", "unlock"),
        Transition("Locked", "push", "Locked", "alarm"),
        Transition("Unlocked", "push", "Locked", "lock") ],
      Some("Locked"))
  }

  /** Every call of the turnstile's chain succeeds, and this is the machine
      it builds. */
  lemma TurnstileBuilds()
    ensures Turnstile() == Success(TurnstileMachine())
  {
    var m0 := AddState(AddState(Empty(), "Locked"), "Unlocked");
    var m1 := AddInput(AddInput(m0, "coin"), "push");
    var m2 := AddOutput(AddOutput(AddOutput(m1, "unlock"), "alarm"), "lock");
    assert m2 == Machine({"Locked", "Unlocked"}, {"coin", "push"}, {"unlock", "alarm", "lock"}, [], None);
    var m3 := m2.(initial := Some("Locked"));
    assert SetInitial(m2, "Locked") == Success(m3);
    var t0 := Transition("Locked", "coin", "Unlocked", "unlock");
    var t1 := Transition("Locked", "push", "Locked", "alarm");
    var t2 := Transition("Unlocked", "push", "Locked", "lock");
    assert AddTransition(m3, "Locked", "coin", "Unlocked", "unlock") == Success(m3.(transitions := [t0]));
    assert [t0] + [t1] == [t0, t1];
    assert [t0, t1] + [t2] == [t0, t1, t2];
    assert AddTransition(m3.(transitions := [t0]), "Locked", "push", "Locked", "alarm")
        == Success(m3.(transitions := [t0, t1]));
    assert AddTransition(m3.(transitions := [t0, t1]), "Unlocked", "push", "Locked", "lock")
        == Success(m3.(transitions := [t0, t1, t2]));
  }

  /** `coin, push, push` gives `unlock, lock, alarm`. */
  lemma TurnstileRun()
    ensures Turnstile().Success?
    ensures Process(Turnstile().value, ["coin", "push", "push"]) == Success(["unlock", "lock", "alarm"])
  {
    TurnstileBuilds();
    TurnstileWalk();
    assert [] + ["unlock", "lock", "alarm"] == ["unlock", "lock", "alarm"];
  }

  /** The walk behind the turnstile run, step by step. */
  lemma TurnstileWalk()
    ensures Walk(TurnstileMachine(), "Locked", ["coin", "push", "push"])
         == Success(Run(["unlock", "lock", "alarm"], ["Locked", "Unlocked", "Locked", "Locked"]))
  {
    var m := TurnstileMachine();
    FiringRule(m, 0);
    FiringRule(m, 1);
    FiringRule(m, 2);
    var t0 := Transition("Locked", "coin", "Unlocked", "unlock");
    var t1 := Transition("Locked", "push", "Locked", "alarm");
    var t2 := Transition("Unlocked", "push", "Locked", "lock");
    var r3 := Run([], ["Locked"]);
    WalkCons(m, "Locked", "push", [], t1, r3);
    var r2 := Run(["alarm"], ["Locked", "Locked"]);
    assert ["push"] + [] == ["push"];
    assert ["alarm"] + [] == ["alarm"] && ["Locked"] + ["Locked"] == ["Locked", "Locked"];
    WalkCons(m, "Unlocked", "push", ["push"], t2, r2);
    var r1 := Run(["lock", "alarm"], ["Unlocked", "Locked", "Locked"]);
    assert ["push"] + ["push"] == ["push", "push"];
    assert ["lock"] + ["alarm"] == ["lock", "alarm"];
    assert ["Unlocked"] + ["Locked", "Locked"] == ["Unlocked", "Locked", "Locked"];
    WalkCons(m, "Locked", "coin", ["push", "push"], t0, r1);
    assert ["coin"] + ["push", "push"] == ["coin", "push", "push"];
    assert ["unlock"] + ["lock", "alarm"] == ["unlock", "lock", "alarm"];
    assert ["Locked"] + ["Unlocked", "Locked", "Locked"] == ["Locked", "Unlocked", "Locked", "Locked"];
  }

  /** A machine with declarations but no initial state. */
  function NoInitDecls(): seq<Decl> {
    [DeclState("A"), DeclInput("x"), DeclOutput("y")]
  }

  /** Without an initial state every run fails, whatever the input. */
  lemma NoInitRejectsEverything(inputs: seq<string>)
    ensures Build(Empty(), NoInitDecls()).error.None?
    ensures Process(Build(Empty(), NoInitDecls()).machine, inputs) == Failure(NoInitialState)
  {
  }

  /** A machine whose only state has no transitions. */
  function BrokenDecls(): seq<Decl> {
    [DeclState("S"), DeclInput("a"), DeclOutput("o"), DeclInitial("S")]
  }

  /** Running `a` fails with the error naming state `S` and input `a`. */
  lemma BrokenRunFails()
    ensures Build(Empty(), BrokenDecls()).error.None?
    ensures Process(Build(Empty(), BrokenDecls()).machine, ["a"]) == Failure(NoTransition("S", "a"))
  {
  }

  /** Adding transitions that mention undeclared names: each call reports the
      first undeclared name, and declaring it moves the error on to the
      next check. */
  lemma UndeclaredTransitionScenario()
    ensures
      var m0 := Build(Empty(), [DeclState("A"), DeclInput("i"), DeclOutput("o"), DeclInitial("A")]).machine;
      var m1 := AddState(m0, "B");
      var m2 := AddInput(m1, "x");
      && AddTransition(m0, "A", "i", "B", "o") == Failure(UndeclaredNextState("B"))
      && AddTransition(m1, "A", "x", "B", "o") == Failure(UndeclaredInput("x"))
      && AddTransition(m2, "A", "x", "B", "z") == Failure(UndeclaredOutput("z"))
  {
  }

  /** A chain that fails part-way keeps the effect of the calls before the
      failing one: declaring `A` and then choosing the undeclared `B` as the
      initial state leaves `A` declared and reports `B`. */
  lemma FailedChainKeepsEarlierCalls()
    ensures Build(Empty(), [DeclState("A"), DeclInitial("B")])
         == Built(Empty().(states := {"A"}), Some(UndeclaredInitialState("B")))
  {
  }

  /** The traffic light of the example script: one `timer` input cycles
      green, yellow, red. */
  function TrafficLight(): Result<Machine, Err> {
    var m0 := AddState(AddState(AddState(Empty(), "Green"), "Yellow"), "Red");
    var m1 := AddInput(m0, "timer");
    var m2 := AddOutput(AddOutput(AddOutput(m1, "go"), "caution"), "stop");
    match SetInitial(m2, "Green")
    case Failure(e) => Failure(e)
    case Success(m3) =>
      match AddTransition(m3, "Green", "timer", "Yellow", "caution")
      case Failure(e) => Failure(e)
      case Success(m4) =>
        match AddTransition(m4, "Yellow", "timer", "Red", "stop")
        case Failure(e) => Failure(e)
        case Success(m5) => AddTransition(m5, "Red", "timer", "Green", "go")
  }

  /** The traffic-light machine as a value. */
  function TrafficLightMachine(): Machine {
    Machine(
      {"Green", "Yellow", "Red"}, {"timer"}, {"go", "caution", "stop"},
      [ Transition("Green", "timer", "Yellow", "caution"),
        Transition("Yellow", "timer", "Red", "stop"),
        Transition("Red", "timer", "Green", "go") ],
      Some("Green"))
  }

  /** Every call of the traffic light's chain succeeds, and this is the
      machine it builds. */
  lemma TrafficLightBuilds()
    ensures TrafficLight() == Success(TrafficLightMachine())
  {
    var m0 := AddState(AddState(AddState(Empty(), "Green"), "Yellow"), "Red");
    var m1 := AddInput(m0, "timer");
    var m2 := AddOutput(AddOutput(AddOutput(m1, "go"), "caution"), "stop");
    assert m2 == Machine({"Green", "Yellow", "Red"}, {"timer"}, {"go", "caution", "stop"}, [], None);
    var m3 := m2.(initial := Some("Green"));
    assert SetInitial(m2, "Green") == Success(m3);
    var t0 := Transition("Green", "timer", "Yellow", "caution");
    var t1 := Transition("Yellow", "timer", "Red", "stop");
    var t2 := Transition("Red", "timer", "Green", "go");
    assert [t0] + [t1] == [t0, t1];
    assert [t0, t1] + [t2] == [t0, t1, t2];
    assert AddTransition(m3, "Green", "timer", "Yellow", "caution") == Success(m3.(transitions := [t0]));
    assert AddTransition(m3.(transitions := [t0]), "Yellow", "timer", "Red", "stop")
        == Success(m3.(transitions := [t0, t1]));
    assert AddTransition(m3.(transitions := [t0, t1]), "Red", "timer", "Green", "go")
        == Success(m3.(transitions := [t0, t1, t2]));
  }

  /** Three timer ticks from green pass yellow and red and return to green. */
  lemma TrafficLightCycle()
    ensures Walk(TrafficLightMachine(), "Green", ["timer", "timer", "timer"])
         == Success(Run(["caution", "stop", "go"], ["Green", "Yellow", "Red", "Green"]))
  {
    var m := TrafficLightMachine();
    FiringRule(m, 0);
    FiringRule(m, 1);
    FiringRule(m, 2);
    var t0 := Transition("Green", "timer", "Yellow", "caution");
    var t1 := Transition("Yellow", "timer", "Red", "stop");
    var t2 := Transition("Red", "timer", "Green", "go");
    WalkCons(m, "Red", "timer", [], t2, Run([], ["Green"]));
    assert ["timer"] + [] == ["timer"];
    assert ["go"] + [] == ["go"] && ["Red"] + ["Green"] == ["Red", "Green"];
    WalkCons(m, "Yellow", "timer", ["timer"], t1, Run(["go"], ["Red", "Green"]));
    assert ["timer"] + ["timer"] == ["timer", "timer"];
    assert ["stop"] + ["go"] == ["stop", "go"] && ["Yellow"] + ["Red", "Green"] == ["Yellow", "Red", "Green"];
    WalkCons(m, "Green", "timer", ["timer", "timer"], t0, Run(["stop", "go"], ["Yellow", "Red", "Green"]));
    assert ["timer"] + ["timer", "timer"] == ["timer", "timer", "timer"];
    assert ["caution"] + ["stop", "go"] == ["caution", "stop", "go"];
    assert ["Green"] + ["Yellow", "Red", "Green"] == ["Green", "Yellow", "Red", "Green"];
  }

  /** Two cycles of the traffic light: the outputs of one cycle, twice. */
  lemma TrafficLightTwoCycles()
    ensures Prefixed([], Walk(TrafficLightMachine(), "Green", ["timer", "timer", "timer"] + ["timer", "timer", "timer"]))
         == Success(["caution", "stop", "go"] + ["caution", "stop", "go"])
  {
    TrafficLightCycle();
    var once := Run(["caution", "stop", "go"], ["Green", "Yellow", "Red", "Green"]);
    WalkAppend(TrafficLightMachine(), "Green", ["timer", "timer", "timer"], ["timer", "timer", "timer"], once, []);
    assert [] + once.outputs == once.outputs;
  }

  /** Six timer ticks give `caution, stop, go` twice. */
  lemma TrafficLightRun()
    ensures TrafficLight().Success?
    ensures Process(TrafficLight().value, ["timer", "timer", "timer", "timer", "timer", "timer"])
         == Success(["caution", "stop", "go", "caution", "stop", "go"])
  {
    TrafficLightBuilds();
    TrafficLightTwoCycles();
    assert ["timer", "timer", "timer"] + ["timer", "timer", "timer"]
        == ["timer", "timer", "timer", "timer", "timer", "timer"];
    assert ["caution", "stop", "go"] + ["caution", "stop", "go"]
        == ["caution", "stop", "go", "caution", "stop", "go"];
  }
}
