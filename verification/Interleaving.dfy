/** Goroutines between whose statements anything else may happen. */
module Interleaving {
  import opened Protocol
  import opened Invariants
  import opened CoreSteps

  // -------------------------------------------------------- composing runs

  lemma {:induction false} RunConcat(cfg: Config, s: State, a: seq<Event>, b: seq<Event>)
    ensures Run(cfg, s, a + b) == Run(cfg, Run(cfg, s, a), b)
    decreases |b|
  {
    hide Step;
    if b == [] {
      assert a + b == a;
    } else {
      RunConcat(cfg, s, a, b[..|b| - 1]);
      assert (a + b)[..|a + b| - 1] == a + b[..|b| - 1];
    }
  }

  lemma RunThen(cfg: Config, s: State, a: seq<Event>, b: seq<Event>, e: Event)
    ensures Run(cfg, s, a + b + [e]) == Step(cfg, Run(cfg, Run(cfg, s, a), b), e)
  {
    hide Step;
    RunConcat(cfg, s, a, b);
    assert (a + b + [e])[..|a + b|] == a + b;
  }

  ghost predicate Reachable(cfg: Config, s: State) {
    exists clock, es :: s == Run(cfg, Init(clock), es)
  }

  lemma StillReachable(cfg: Config, s: State, es: seq<Event>)
    requires Reachable(cfg, s)
    ensures Reachable(cfg, Run(cfg, s, es))
  {
    hide Step;
    var clock, before :| s == Run(cfg, Init(clock), before);
    RunConcat(cfg, Init(clock), before, es);
  }

  lemma OneStepReachable(cfg: Config, s: State, e: Event)
    requires Reachable(cfg, s)
    ensures Reachable(cfg, Step(cfg, s, e))
  {
    hide Step;
    StillReachable(cfg, s, [e]);
    assert [e][..0] == [];
  }

  lemma ReachableIsCore(cfg: Config, s: State)
    requires Reachable(cfg, s)
    ensures Core(cfg, s)
  {
    hide Step;
    var clock, es :| s == Run(cfg, Init(clock), es);
    CoreInit(cfg, clock);
    CoreAlways(cfg, Init(clock), es);
  }

  lemma Extend(cfg: Config, s: State, es: seq<Event>, e: Event)
    ensures Run(cfg, s, es + [e]) == Step(cfg, Run(cfg, s, es), e)
  {
    hide Step;
    assert (es + [e])[..|es|] == es;
  }

  lemma ExtendWork(cfg: Config, s: State, es: seq<Event>, a: Answer)
    ensures Run(cfg, s, es + [Work(true, a)]) == DoWork(cfg, Run(cfg, s, es), true, a)
  {
    assert (es + [Work(true, a)])[..|es|] == es;
  }

  // ------------------------------------------------------------- the clock

  lemma {:induction false} ClockGrows(cfg: Config, s: State, es: seq<Event>)
    ensures s.clock <= Run(cfg, s, es).clock
  {
    hide Step;
    if es != [] {
      ClockGrows(cfg, s, es[..|es| - 1]);
      ClockStep(cfg, Run(cfg, s, es[..|es| - 1]), es[|es| - 1]);
    }
  }

  lemma ClockStep(cfg: Config, s: State, e: Event)
    ensures s.clock <= Step(cfg, s, e).clock
  {
    hide CanClaimDue, CanClaimRetries, ReceiveAll, ReleaseAll, Sweep, CountSweep;
    if e.Work? {
      ClockWork(cfg, s, e.ok, e.answer);
    }
  }

  lemma ClockWork(cfg: Config, s: State, ok: bool, answer: Answer)
    ensures s.clock == DoWork(cfg, s, ok, answer).clock
  {
    hide ShouldRetry;
  }

  // ------------------------------------------------------- loops of pushes

  /** One statement of a goroutine, such as a push: what the others do before it, and whether it is carried out. */
  datatype Push = Push(env: seq<Event>, ok: bool)

  /** Nothing happens before the statements, and they are carried out. */
  predicate Undisturbed(steps: seq<Push>) {
    forall i :: 0 <= i < |steps| ==> steps[i] == Push([], true)
  }

  /** The iterations as events of the machine; `act` is the event of the push. */
  function Pushes(pushes: seq<Push>, act: bool -> Event): seq<Event> {
    if pushes == [] then []
    else
      var p := pushes[|pushes| - 1];
      Pushes(pushes[..|pushes| - 1], act) + p.env + [act(p.ok)]
  }

  /** The state after `n` iterations from `s` is `t`. */
  ghost predicate Pushed(cfg: Config, s: State, pushes: seq<Push>, act: bool -> Event, n: nat, t: State)
    requires n <= |pushes|
  {
    forall es :: es == Pushes(pushes[..n], act) ==> t == Run(cfg, s, es)
  }

  lemma NoPushYet(cfg: Config, s: State, pushes: seq<Push>, act: bool -> Event)
    ensures Pushed(cfg, s, pushes, act, 0, s)
  {
    hide Step;
  }

  lemma OneMorePush(cfg: Config, s: State, pushes: seq<Push>, act: bool -> Event, n: nat)
    requires n < |pushes|
    ensures Run(cfg, s, Pushes(pushes[..n + 1], act))
            == Step(cfg, Run(cfg, Run(cfg, s, Pushes(pushes[..n], act)), pushes[n].env), act(pushes[n].ok))
  {
    hide Step;
    assert pushes[..n + 1][..n] == pushes[..n];
    RunThen(cfg, s, Pushes(pushes[..n], act), pushes[n].env, act(pushes[n].ok));
  }
}
