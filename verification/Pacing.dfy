/** How fast the worker calls the provider for one instance, over any number of iterations of `run`. */
module Pacing {
  import opened Basics
  import opened Protocol
  import opened Interleaving
  import opened Worker
  import opened Cadence

  /** One iteration of `run`: its pop, the statements of `handleJob`, and the random numbers of the cadence. */
  datatype Round = Round(pop: Turn, turns: seq<Turn>, draws: Draws)

  /** One SendText: the lane call in front of it, when its wait is over, and when the provider is called. */
  datatype Sent = Sent(instance: InstanceId, call: Call, until: Time, at: Time)

  // ------------------------------------------------------------ the lane's history

  /** The calls of the lane of `instance`. */
  function CallsOf(sent: seq<Sent>, instance: InstanceId): seq<Call> {
    if sent == [] then []
    else
      var last := sent[|sent| - 1];
      CallsOf(sent[..|sent| - 1], instance) + (if last.instance == instance then [last.call] else [])
  }

  /** Each wait started in the lane that the earlier calls had left, the provider was called when it was over or later,
      and the next wait started after that. */
  ghost predicate Paced(h: Humanizer, sent: seq<Sent>) {
    && (forall k :: 0 <= k < |sent| ==>
          && sent[k].until
             == Until(h, Play(h, CallsOf(sent[..k], sent[k].instance)), sent[k].call.now, sent[k].call.draws)
          && sent[k].until <= sent[k].at)
    && (forall i, k :: 0 <= i < k < |sent| ==> sent[i].at <= sent[k].call.now)
  }

  lemma CallsStep(sent: seq<Sent>, k: nat, instance: InstanceId)
    requires k < |sent|
    ensures CallsOf(sent[..k + 1], instance)
            == CallsOf(sent[..k], instance) + (if sent[k].instance == instance then [sent[k].call] else [])
  {
    assert sent[..k + 1][..k] == sent[..k];
  }

  lemma {:induction false} CallsPrefix(sent: seq<Sent>, i: nat, j: nat, instance: InstanceId)
    requires i <= j <= |sent|
    ensures CallsOf(sent[..i], instance) <= CallsOf(sent[..j], instance)
    decreases j
  {
    if i < j {
      CallsStep(sent, j - 1, instance);
      CallsPrefix(sent, i, j - 1, instance);
    }
  }

  /** The end of the wait is the dispatch time of the lane. */
  lemma UntilIsTime(h: Humanizer, sent: seq<Sent>, k: nat, j: nat)
    requires h.enabled && Paced(h, sent) && k <= j < |sent|
    ensures var all := CallsOf(sent[..j + 1], sent[k].instance); var a := |CallsOf(sent[..k], sent[k].instance)|;
            a < |all| && TimeOf(h, all, a) == sent[k].until && all[..a + 1] == CallsOf(sent[..k + 1], sent[k].instance)
  {
    hide WaitFor, Armed, CallsOf;
    var inst := sent[k].instance;
    var before, upto := CallsOf(sent[..k], inst), CallsOf(sent[..k + 1], inst);
    CallsStep(sent, k, inst);
    CallsPrefix(sent, k + 1, j + 1, inst);
    assert CallsOf(sent[..j + 1], inst)[..|before| + 1] == upto;
    assert upto[..|upto| - 1] == before;
  }

  /** The first SendText of the instance after number `i`. */
  lemma {:induction false} NextSent(sent: seq<Sent>, i: nat, from: nat, j: nat) returns (k: nat)
    requires i < from <= j < |sent| && sent[i].instance == sent[j].instance
    requires CallsOf(sent[..from], sent[i].instance) == CallsOf(sent[..i + 1], sent[i].instance)
    ensures from <= k <= j && sent[k].instance == sent[i].instance
    ensures CallsOf(sent[..k], sent[i].instance) == CallsOf(sent[..i + 1], sent[i].instance)
    decreases j - from
  {
    k := from;
    if sent[from].instance != sent[i].instance {
      CallsStep(sent, from, sent[i].instance);
      k := NextSent(sent, i, from + 1, j);
    }
  }

  function Burst(h: Humanizer, n: nat): int
    requires h.burstMax >= 1
  {
    n * h.baseMin + n / h.burstMax * Max(0, h.pauseMin - h.baseMin)
  }

  /** Windowed rate of SendText: of two calls of the provider for one instance, with `n` dispatches of that instance
      after the first up to the second, the second is at least `n` base delays and the burst pauses in between after
      the end of the first one's wait. It is at least `n-1` base delays and their burst pauses after the first call
      itself, which the other goroutines may have held up. */
  lemma WindowedSends(h: Humanizer, sent: seq<Sent>, i: nat, j: nat)
    requires ValidRanges(h) && h.enabled && Paced(h, sent) && i < j < |sent| && sent[i].instance == sent[j].instance
    ensures var n := |CallsOf(sent[..j + 1], sent[i].instance)| - |CallsOf(sent[..i + 1], sent[i].instance)|;
            && n >= 1
            && sent[j].at - sent[i].until >= Burst(h, n)
            && sent[j].at - sent[i].at >= Burst(h, n - 1)
  {
    hide Play, TimeOf, WaitFor, CallsOf, Burst, Paced;
    var inst := sent[i].instance;
    CallsStep(sent, i, inst);
    CallsStep(sent, j, inst);
    CallsPrefix(sent, i + 1, j, inst);
    BetweenWaits(h, sent, i, j);
    PacedPair(h, sent, i, j);
    var k := NextSent(sent, i, i + 1, j);
    PacedPair(h, sent, i, k);
    if k < j {
      CallsStep(sent, k, inst);
      BetweenWaits(h, sent, k, j);
    } else {
      NoBurst(h);
    }
  }

  /** The first SendText of an instance comes no earlier than an initial delay after its wait started, and the wait is
      not longer than such a delay. */
  lemma FirstSend(h: Humanizer, sent: seq<Sent>, k: nat)
    requires ValidRanges(h) && h.enabled && Paced(h, sent) && k < |sent|
    requires CallsOf(sent[..k], sent[k].instance) == []
    ensures sent[k].at >= sent[k].until >= sent[k].call.now + h.initialMin
    ensures sent[k].until <= sent[k].call.now + h.initialMax
  {
    hide CallsOf, WaitFor;
    DispatchIsTimely(h, NEW_LANE, sent[k].call.now, sent[k].call.draws);
  }

  lemma NoBurst(h: Humanizer)
    requires h.burstMax >= 1
    ensures Burst(h, 0) == 0
  {
  }

  /** The windowed rate of the lane, between the ends of two waits. */
  lemma BetweenWaits(h: Humanizer, sent: seq<Sent>, i: nat, j: nat)
    requires ValidRanges(h) && h.enabled && Paced(h, sent) && i < j < |sent| && sent[i].instance == sent[j].instance
    ensures var a, b := |CallsOf(sent[..i], sent[i].instance)|, |CallsOf(sent[..j], sent[i].instance)|;
            a < b && sent[j].until - sent[i].until >= Burst(h, b - a)
  {
    hide Play, TimeOf, WaitFor, CallsOf, Paced;
    var inst := sent[i].instance;
    CallsStep(sent, i, inst);
    CallsPrefix(sent, i + 1, j, inst);
    UntilIsTime(h, sent, i, j);
    UntilIsTime(h, sent, j, j);
    WindowedRate(h, CallsOf(sent[..j + 1], inst), |CallsOf(sent[..i], inst)|, |CallsOf(sent[..j], inst)|);
  }

  /** The wait of a later SendText ends after the earlier one, and before its own. */
  lemma PacedPair(h: Humanizer, sent: seq<Sent>, i: nat, k: nat)
    requires ValidRanges(h) && h.enabled && Paced(h, sent) && i < k < |sent|
    ensures sent[i].until <= sent[i].at <= sent[k].until <= sent[k].at
  {
    hide WaitFor, Play, CallsOf;
    WaitIsNotNegative(h, Play(h, CallsOf(sent[..k], sent[k].instance)), sent[k].call.now, sent[k].call.draws);
  }

  lemma WaitIsNotNegative(h: Humanizer, l: Lane, now: Time, d: Draws)
    requires ValidRanges(h)
    ensures WaitFor(h, l, now, d) >= 0
  {
  }

  // ------------------------------------------------------------------ the clock

  /** No turn is made before the first state or after the last one. */
  lemma {:induction false} TurnClock(cfg: Config, s: State, turns: seq<Turn>, k: nat)
    requires k < |turns|
    ensures s.clock <= ClockAt(cfg, s, turns, k) <= Run(cfg, s, Interleaved(turns)).clock
    decreases |turns|
  {
    hide Step;
    var n := |turns| - 1;
    var before := Run(cfg, s, Interleaved(turns[..n]));
    assert turns == turns[..n] + [turns[n]];
    OneMoreTurn(cfg, s, turns[..n], turns[n]);
    ClockGrows(cfg, before, turns[n].env);
    ClockStep(cfg, Run(cfg, before, turns[n].env), Work(turns[n].ok, turns[n].answer));
    if k == n {
      ClockGrows(cfg, s, Interleaved(turns[..n]));
    } else {
      assert turns[..n][..k] == turns[..k];
      TurnClock(cfg, s, turns[..n], k);
    }
  }

  /** SendText is not called before the wait is over. */
  lemma SendAfterWait(cfg: Config, s: State, turns: seq<Turn>, waited: bool, until: Time, n: nat)
    requires |turns| == 9 && SEND_TURN < n <= 9
    ensures until <= ClockAt(cfg, s, Adjusted(turns, waited, until)[..n], SEND_TURN)
  {
    hide Step;
    var played := Adjusted(turns, waited, until)[..n];
    var before := Run(cfg, s, Interleaved(played[..SEND_TURN]));
    RunConcat(cfg, before, [Tick(until)], turns[5].env);
    TickTo(cfg, before, until);
    ClockGrows(cfg, Run(cfg, before, [Tick(until)]), turns[5].env);
  }

  lemma TickTo(cfg: Config, s: State, until: Time)
    ensures Run(cfg, s, [Tick(until)]).clock >= until
  {
    assert [Tick(until)][..0] == [];
  }

  // --------------------------------------------------------------- provider ids

  function IdsOf(turns: seq<Turn>): set<ProviderId> {
    set k | 0 <= k < |turns| && turns[k].answer.Accepted? :: turns[k].answer.id
  }

  function RoundIds(r: Round): set<ProviderId> {
    IdsOf([r.pop]) + IdsOf(r.turns)
  }

  /** The provider never issues an id twice. */
  ghost predicate NewIds(rounds: seq<Round>, r: nat, issued: set<ProviderId>) {
    && (forall i :: r <= i < |rounds| ==> RoundIds(rounds[i]) !! issued)
    && (forall i, j :: r <= i < j < |rounds| ==> RoundIds(rounds[i]) !! RoundIds(rounds[j]))
  }

  lemma WorkIssues(cfg: Config, s: State, ok: bool, answer: Answer)
    ensures DoWork(cfg, s, ok, answer).issued <= s.issued + (if answer.Accepted? then {answer.id} else {})
  {
    hide ShouldRetry;
  }

  lemma TurnIssues(cfg: Config, s: State, t: Turn)
    requires Calm(t.env)
    ensures Turned(cfg, s, t).issued <= s.issued + (if t.answer.Accepted? then {t.answer.id} else {})
  {
    hide Step, DoWork;
    OthersLeaveWorker(cfg, s, t.env);
    WorkIsStep(cfg, Run(cfg, s, t.env), t);
    WorkIssues(cfg, Run(cfg, s, t.env), t.ok, t.answer);
  }

  lemma {:induction false} TurnsIssue(cfg: Config, s: State, turns: seq<Turn>)
    requires AllCalm(turns)
    ensures Run(cfg, s, Interleaved(turns)).issued <= s.issued + IdsOf(turns)
  {
    hide Step;
    if turns != [] {
      var n := |turns| - 1;
      TurnsIssue(cfg, s, turns[..n]);
      assert turns == turns[..n] + [turns[n]];
      OneMoreTurn(cfg, s, turns[..n], turns[n]);
      TurnIssues(cfg, Run(cfg, s, Interleaved(turns[..n])), turns[n]);
      forall id | id in IdsOf(turns[..n]) ensures id in IdsOf(turns) {
        var k :| 0 <= k < n && turns[..n][k].answer.Accepted? && turns[..n][k].answer.id == id;
        assert turns[k].answer.id == id;
      }
    }
  }

  /** The played turns of a round obtain no other ids than those of the round. */
  lemma PlayedIssue(cfg: Config, s: State, r: Round, waited: bool, until: Time, n: nat)
    requires Calm(r.pop.env) && |r.turns| == 9 && AllCalm(r.turns) && n <= 9
    ensures Run(cfg, Turned(cfg, s, r.pop), Interleaved(Adjusted(r.turns, waited, until)[..n])).issued
            <= s.issued + RoundIds(r)
  {
    hide Step, Run, Interleaved;
    var all := Adjusted(r.turns, waited, until);
    AdjustedCalm(r.turns, waited, until);
    assert AllCalm(all[..n]) by {
      forall k | 0 <= k < n ensures Calm(all[..n][k].env) {
        if k >= 5 {
          assert all[..n][k] == all[5..][k - 5];
        }
      }
    }
    TurnIssues(cfg, s, r.pop);
    TurnsIssue(cfg, Turned(cfg, s, r.pop), all[..n]);
    assert r.pop.answer.Accepted? ==> r.pop.answer.id in IdsOf([r.pop]) by {
      assert [r.pop][0] == r.pop;
    }
    forall id | id in IdsOf(all[..n]) ensures id in IdsOf(r.turns) {
      var k :| 0 <= k < n && all[..n][k].answer.Accepted? && all[..n][k].answer.id == id;
      assert r.turns[k].answer == all[k].answer;
    }
  }

  // ------------------------------------------------------------------- the loop

  ghost predicate Playable(rounds: seq<Round>, issued: set<ProviderId>) {
    && (forall r :: 0 <= r < |rounds| ==> Calm(rounds[r].pop.env) && |rounds[r].turns| == 9 && AllCalm(rounds[r].turns))
    && NewIds(rounds, 0, issued)
  }

  /** The lanes are what the calls in front of the SendTexts so far made of them. */
  ghost predicate Recorded(h: Humanizer, lanes: Lanes, sent: seq<Sent>, clock: Time)
    reads lanes, lanes.lanes.Values
  {
    && Paced(h, sent)
    && (forall instance :: lanes.LaneOf(instance) == Play(h, CallsOf(sent, instance)))
    && (forall k :: 0 <= k < |sent| ==> sent[k].at <= clock)
  }

  /** One more SendText: its wait started after the earlier ones. */
  lemma OneMoreSent(h: Humanizer, sent: seq<Sent>, x: Sent)
    requires Paced(h, sent) && x.until <= x.at
    requires x.until == Until(h, Play(h, CallsOf(sent, x.instance)), x.call.now, x.call.draws)
    requires forall k :: 0 <= k < |sent| ==> sent[k].at <= x.call.now
    ensures Paced(h, sent + [x])
    ensures forall instance :: CallsOf(sent + [x], instance)
              == CallsOf(sent, instance) + (if x.instance == instance then [x.call] else [])
  {
    hide Until, Play, CallsOf;
    var all := sent + [x];
    assert forall k :: 0 <= k <= |sent| ==> all[..k] == sent[..k];
    assert sent[..|sent|] == sent;
    forall instance
      ensures CallsOf(all, instance) == CallsOf(sent, instance) + (if x.instance == instance then [x.call] else [])
    {
      assert all[..|sent| + 1] == all;
      CallsStep(all, |sent|, instance);
    }
  }

  lemma PlayOneMore(h: Humanizer, calls: seq<Call>, c: Call)
    ensures Play(h, calls + [c]) == Dispatched(h, Play(h, calls), c.now, c.draws)
  {
    assert (calls + [c])[..|calls|] == calls;
  }

  /** The iterations of `run` that the given rounds describe, while the process is not shut down: every SendText that is
      made is recorded, and they are paced. */
  method RunRounds(w: DispatchWorker, rounds: seq<Round>, h: Humanizer) returns (ghost sent: seq<Sent>)
    requires Reachable(w.Cfg(), w.world.View()) && w.world.View().worker.Idle? && h.enabled
    requires w.lanes.Valid() && w.lanes.lanes == map[] && Playable(rounds, w.world.View().issued)
    modifies w.world, w.world.repository, w.world.redis, w.lanes
    ensures Reachable(w.Cfg(), w.world.View()) && w.world.View().worker.Idle? && w.lanes.Valid()
    ensures Recorded(h, w.lanes, sent, w.world.View().clock)
  {
    sent := [];
    for r := 0 to |rounds|
      invariant Reachable(w.Cfg(), w.world.View()) && w.world.View().worker.Idle? && w.lanes.Valid()
      invariant fresh(w.lanes.lanes.Values) && NewIds(rounds, r, w.world.View().issued)
      invariant Recorded(h, w.lanes, sent, w.world.View().clock)
    {
      sent := PlayRound(w, rounds, r, h, sent);
    }
  }

  method PlayRound(w: DispatchWorker, rounds: seq<Round>, r: nat, h: Humanizer, ghost sent: seq<Sent>)
    returns (ghost sent': seq<Sent>)
    requires Reachable(w.Cfg(), w.world.View()) && w.world.View().worker.Idle? && h.enabled && w.lanes.Valid()
    requires r < |rounds| && NewIds(rounds, r, w.world.View().issued)
    requires Calm(rounds[r].pop.env) && |rounds[r].turns| == 9 && AllCalm(rounds[r].turns)
    requires Recorded(h, w.lanes, sent, w.world.View().clock)
    modifies w.world, w.world.repository, w.world.redis, w.lanes, w.lanes.lanes.Values
    ensures Reachable(w.Cfg(), w.world.View()) && w.world.View().worker.Idle? && w.lanes.Valid()
    ensures fresh(w.lanes.lanes.Values - old(w.lanes.lanes.Values)) && NewIds(rounds, r + 1, w.world.View().issued)
    ensures Recorded(h, w.lanes, sent', w.world.View().clock) && sent <= sent'
  {
    hide Step, Run, Reachable, Interleaved, Busy, Paced, Play, CallsOf, ClockAt, Until, LaneMoved, NewIds, RoundIds;
    ghost var s := w.world.View();
    var round := rounds[r];
    SendIsNew(rounds, r, s.issued);
    var job, played, waited, until := w.RunOnce(round.pop, round.turns, h, round.draws, false);
    ghost var s1 := Turned(w.Cfg(), s, round.pop);
    RoundDone(w.Cfg(), s, round, played, waited, until, w.world.View());
    IdsStep(rounds, r, s.issued, w.world.View().issued);
    sent' := sent;
    if |played| > SEND_TURN {
      ghost var x := Sent(job.value.instance, Call(ClockAt(w.Cfg(), s1, played, WAIT_TURN), round.draws), until,
                          ClockAt(w.Cfg(), s1, played, SEND_TURN));
      LaneDispatched(h, Play(h, CallsOf(sent, x.instance)), w.lanes.LaneOf(x.instance), x, waited);
      OneMoreSent(h, sent, x);
      PlayOneMore(h, CallsOf(sent, x.instance), x.call);
      sent' := sent + [x];
      assert w.lanes.LaneOf(x.instance) == Play(h, CallsOf(sent', x.instance));
    }
    forall instance ensures w.lanes.LaneOf(instance) == Play(h, CallsOf(sent', instance)) {
      if |played| <= SEND_TURN || instance != job.value.instance {
        assert w.lanes.LaneOf(instance) == old(w.lanes.LaneOf(instance));
        assert CallsOf(sent', instance) == CallsOf(sent, instance) + [];
      }
    }
    StillReachable(w.Cfg(), s1, Interleaved(played));
  }

  lemma LaneDispatched(h: Humanizer, l: Lane, l': Lane, x: Sent, waited: bool)
    requires h.enabled && LaneMoved(h, l, l', x.call.now, x.call.draws, false, waited)
    ensures l' == Dispatched(h, l, x.call.now, x.call.draws)
  {
  }

  lemma SendIsNew(rounds: seq<Round>, r: nat, issued: set<ProviderId>)
    requires r < |rounds| && NewIds(rounds, r, issued) && |rounds[r].turns| == 9
    ensures rounds[r].turns[5].answer.Accepted? ==> rounds[r].turns[5].answer.id !in issued
  {
    if rounds[r].turns[5].answer.Accepted? {
      assert rounds[r].turns[5].answer.id in RoundIds(rounds[r]);
    }
  }

  lemma IdsStep(rounds: seq<Round>, r: nat, issued: set<ProviderId>, issued': set<ProviderId>)
    requires r < |rounds| && NewIds(rounds, r, issued) && issued' <= issued + RoundIds(rounds[r])
    ensures NewIds(rounds, r + 1, issued')
  {
    hide RoundIds;
  }

  /** Clock and provider ids after a round. */
  lemma RoundDone(cfg: Config, s: State, r: Round, played: seq<Turn>, waited: bool, until: Time, v: State)
    requires Calm(r.pop.env) && |r.turns| == 9 && AllCalm(r.turns) && |played| <= 9
    requires played == Adjusted(r.turns, waited, until)[..|played|]
    requires v == Run(cfg, Turned(cfg, s, r.pop), Interleaved(played))
    ensures v.issued <= s.issued + RoundIds(r) && s.clock <= v.clock
    ensures |played| > SEND_TURN ==>
              var s1 := Turned(cfg, s, r.pop);
              && s.clock <= ClockAt(cfg, s1, played, WAIT_TURN)
              && until <= ClockAt(cfg, s1, played, SEND_TURN) <= v.clock
  {
    hide Step, Run, Interleaved, ClockAt, RoundIds, Adjusted;
    var s1 := Turned(cfg, s, r.pop);
    PlayedIssue(cfg, s, r, waited, until, |played|);
    ClockGrows(cfg, s, r.pop.env);
    ClockStep(cfg, Run(cfg, s, r.pop.env), Work(r.pop.ok, r.pop.answer));
    ClockGrows(cfg, s1, Interleaved(played));
    if |played| > SEND_TURN {
      TurnClock(cfg, s1, played, WAIT_TURN);
      TurnClock(cfg, s1, played, SEND_TURN);
      SendAfterWait(cfg, s1, r.turns, waited, until, |played|);
    }
  }
}
