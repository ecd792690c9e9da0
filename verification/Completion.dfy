/** From wherever the system stands, a bounded number of working steps finishes every message. */
module Completion {
  import opened Basics
  import M = Messages
  import opened Protocol
  import opened Invariants
  import opened CoreSteps
  import opened NoLostWork
  import opened Interleaving
  import opened Gates
  import opened Guarantees
  import opened Drain
  import B = Batches
  import R = Revival

  /** Nobody is publishing, and no campaign is paused, half-resumed or cancelled. */
  predicate Unhindered(s: State) {
    && s.creating == {} && s.scheduler.Resting?
    && forall c :: 0 <= c < |s.campaigns| ==>
         !s.campaigns[c].paused && !s.campaigns[c].status.Paused? && s.campaigns[c].cancelledAt.None?
  }

  /** Every message of every campaign that does not wait for its schedule is dispatched or failed. */
  ghost predicate AllDone(s: State) {
    forall m :: 0 <= m < |s.messages| ==>
      && s.messages[m].campaign < |s.campaigns|
      && (!Dormant(s.campaigns[s.messages[m].campaign]) ==>
            M.Dispatched(s.messages[m].status) || s.messages[m].status.Failed?)
  }

  lemma DrainedAllDone(cfg: Config, s: State)
    requires CarefullyReached(cfg, s) && Drained(s)
    ensures AllDone(s)
  {
    hide CarefullyReached, Drained, Dormant;
    forall m | 0 <= m < |s.messages|
      ensures s.messages[m].campaign < |s.campaigns|
      ensures !Dormant(s.campaigns[s.messages[m].campaign]) ==>
                M.Dispatched(s.messages[m].status) || s.messages[m].status.Failed?
    {
      DrainedIsDone(cfg, s, m);
    }
  }

  // -------------------------------------------------------- careful runs compose

  lemma {:induction false} CarefulConcat(cfg: Config, s: State, a: seq<Event>, b: seq<Event>)
    requires Careful(cfg, s, a) && Careful(cfg, Run(cfg, s, a), b)
    ensures Careful(cfg, s, a + b)
    decreases |b|
  {
    hide Step, LosesWork;
    if b == [] {
      assert a + b == a;
    } else {
      var n := |b| - 1;
      CarefulConcat(cfg, s, a, b[..n]);
      RunConcat(cfg, s, a, b[..n]);
      assert (a + b)[..|a + b| - 1] == a + b[..n];
    }
  }

  lemma StillCareful(cfg: Config, s: State, es: seq<Event>)
    requires CarefullyReached(cfg, s) && Careful(cfg, s, es)
    ensures CarefullyReached(cfg, Run(cfg, s, es))
  {
    hide Step, Careful;
    var clock, before :| Careful(cfg, Init(clock), before) && s == Run(cfg, Init(clock), before);
    CarefulConcat(cfg, Init(clock), before, es);
    RunConcat(cfg, Init(clock), before, es);
  }

  lemma CarefulIsReachable(cfg: Config, s: State)
    requires CarefullyReached(cfg, s)
    ensures Reachable(cfg, s) && Core(cfg, s)
  {
    hide Step, Careful, Core;
    var clock, es :| Careful(cfg, Init(clock), es) && s == Run(cfg, Init(clock), es);
    ReachableIsCore(cfg, s);
  }

  lemma {:induction false} ArrivedConcat(cfg: Config, s: State, a: seq<Event>, b: seq<Event>)
    ensures Arrived(cfg, s, a + b) == Arrived(cfg, s, a) + Arrived(cfg, Run(cfg, s, a), b)
    decreases |b|
  {
    hide Step, Arriving;
    if b == [] {
      assert a + b == a;
    } else {
      var n := |b| - 1;
      ArrivedConcat(cfg, s, a, b[..n]);
      RunConcat(cfg, s, a, b[..n]);
      assert (a + b)[..|a + b| - 1] == a + b[..n];
    }
  }

  // -------------------------------------------------------------- one more step

  /** A job that was bounced before the campaign was resumed still has to be pushed. */
  function Bounced(s: State): nat {
    if s.worker.Requeue? then 4 else 0
  }

  /** `es` is a stretch of work: permitted, nothing lost, and the only arrival the bounced job. */
  ghost predicate Stretch(cfg: Config, batch: int, s: State, es: seq<Event>) {
    var t := Run(cfg, s, es);
    && Permitted(cfg, batch, s, es) && Careful(cfg, s, es) && Unhindered(t)
    && Arrived(cfg, s, es) + Bounced(t) <= Bounced(s)
  }

  lemma JoinStretches(cfg: Config, batch: int, s: State, a: seq<Event>, b: seq<Event>)
    requires Stretch(cfg, batch, s, a) && Stretch(cfg, batch, Run(cfg, s, a), b)
    ensures Stretch(cfg, batch, s, a + b) && Run(cfg, s, a + b) == Run(cfg, Run(cfg, s, a), b)
  {
    hide Step, Permitted, Careful, Arrived, Unhindered;
    Join(cfg, batch, s, a, b);
    CarefulConcat(cfg, s, a, b);
    ArrivedConcat(cfg, s, a, b);
  }

  lemma OneEvent(cfg: Config, s: State, e: Event)
    ensures Careful(cfg, s, [e]) <==> !LosesWork(s, e)
    ensures Arrived(cfg, s, [e]) == Arriving(cfg, s, e)
  {
    hide Step, LosesWork, Arriving;
    assert [e][..|[e]| - 1] == [] && Run(cfg, s, []) == s && Careful(cfg, s, []) && Arrived(cfg, s, []) == 0;
  }

  lemma StretchOfOne(cfg: Config, batch: int, s: State, e: Event)
    requires Allowed(batch, s, e) && Unaided(e) && !LosesWork(s, e) && Unhindered(Step(cfg, s, e))
    requires Arriving(cfg, s, e) + Bounced(Step(cfg, s, e)) <= Bounced(s)
    ensures Stretch(cfg, batch, s, [e]) && Run(cfg, s, [e]) == Step(cfg, s, e)
  {
    hide Step, Allowed, LosesWork, Arriving, Permitted, Careful, Arrived;
    OneIsPermitted(cfg, batch, s, e);
    R.OneStep(cfg, s, e);
    OneEvent(cfg, s, e);
  }

  lemma TickStretches(cfg: Config, batch: int, s: State, to: Time)
    requires Unhindered(s)
    ensures Stretch(cfg, batch, s, [Tick(to)]) && Run(cfg, s, [Tick(to)]) == s.(clock := Max(s.clock, to))
  {
    StretchOfOne(cfg, batch, s, Tick(to));
  }

  /** The delay passes, and a timer pushes its job. */
  lemma TimerStretches(cfg: Config, batch: int, s: State) returns (es: seq<Event>)
    requires Core(cfg, s) && Unhindered(s) && s.timers != []
    ensures Stretch(cfg, batch, s, es) && Load(cfg, Run(cfg, s, es)) < Load(cfg, s)
  {
    hide Core, Permitted, Careful, Arrived;
    var tick, fire := Tick(s.clock + cfg.retryDelay), FireTimer(0, true);
    var late := Step(cfg, s, tick);
    R.OneStep(cfg, s, tick);
    KeepStep(cfg, s, tick);
    R.OneStep(cfg, late, fire);
    DrainStep(cfg, late, fire);
    PairIsPermitted(cfg, batch, s, tick, fire);
    OneEvent(cfg, s, tick);
    OneEvent(cfg, late, fire);
    CarefulConcat(cfg, s, [tick], [fire]);
    ArrivedConcat(cfg, s, [tick], [fire]);
    RunConcat(cfg, s, [tick], [fire]);
    es := [tick] + [fire];
    assert es == [tick, fire];
  }

  /** The sweeper pushes a job that it holds. */
  lemma PushStretches(cfg: Config, batch: int, s: State)
    requires Core(cfg, s) && Unhindered(s) && s.swept != []
    ensures var es := [RequeueSwept(true)]; Stretch(cfg, batch, s, es) && Load(cfg, Run(cfg, s, es)) < Load(cfg, s)
  {
    hide Core;
    StretchOfOne(cfg, batch, s, RequeueSwept(true));
    DrainStep(cfg, s, RequeueSwept(true));
  }

  /** The worker makes its next step; the provider may answer what it likes. */
  lemma WorkStretches(cfg: Config, batch: int, s: State, answer: Answer)
    requires Core(cfg, s) && Unhindered(s) && (!s.worker.Idle? || s.queue != [])
    requires answer.Accepted? ==> answer.id !in s.issued
    ensures var es := [Work(true, answer)]; var t := Run(cfg, s, es);
            Stretch(cfg, batch, s, es) && Load(cfg, t) + Bounced(t) < Load(cfg, s) + Bounced(s)
  {
    var e := Work(true, answer);
    WorkIsUnhindered(cfg, s, answer);
    hide Core, DoWork;
    StretchOfOne(cfg, batch, s, e);
    DrainStep(cfg, s, e);
  }

  lemma WorkIsUnhindered(cfg: Config, s: State, answer: Answer)
    requires Core(cfg, s) && Unhindered(s)
    ensures Unhindered(DoWork(cfg, s, true, answer)) && !DoWork(cfg, s, true, answer).worker.Requeue?
  {
    hide Core, M.RowOk, ShouldRetry;
    match s.worker
    case Read(job, item) => ReadPasses(s, job, item);
    case _ => WorkKeepsCampaigns(cfg, s, answer);
  }

  lemma ReadPasses(s: State, job: Job, item: M.Message)
    requires Unhindered(s) && s.worker == Read(job, item)
    ensures var t := DoGate(s, job, item, true); Unhindered(t) && !t.worker.Requeue?
  {
  }

  lemma WorkKeepsCampaigns(cfg: Config, s: State, answer: Answer)
    requires Unhindered(s) && !s.worker.Read?
    ensures Unhindered(DoWork(cfg, s, true, answer)) && !DoWork(cfg, s, true, answer).worker.Requeue?
  {
    hide DoSettle, DoSend, DoMark, DoLookup, DoRearm, DoPop;
    match s.worker
    case Marked(job, item) => RecalculateIsUnhindered(s, item.campaign, Waiting(job, item));
    case Settled(job, item, retry) =>
      RecalculateIsUnhindered(s, item.campaign, if retry then Rearm(job, item) else Idle);
    case _ => WorkElsewhere(cfg, s, answer);
  }

  lemma RecalculateIsUnhindered(s: State, c: CampaignId, w: Worker)
    requires Unhindered(s) && !w.Requeue?
    ensures var t := DoRecalculateThen(s, c, true, w); Unhindered(t) && !t.worker.Requeue?
  {
  }

  lemma WorkElsewhere(cfg: Config, s: State, answer: Answer)
    requires !s.worker.Read? && !s.worker.Marked? && !s.worker.Settled?
    ensures var t := DoWork(cfg, s, true, answer);
            && t.campaigns == s.campaigns && t.creating == s.creating && t.scheduler == s.scheduler
            && !t.worker.Requeue?
  {
    hide ShouldRetry;
  }

  /** The sweeper claims a retry when it is due. */
  lemma SweepStretches(cfg: Config, batch: int, s: State, m: MessageId) returns (es: seq<Event>)
    requires Core(cfg, s) && Unhindered(s) && s.swept == [] && m < |s.messages| && s.messages[m].nextRetryAt.Some?
    ensures Stretch(cfg, batch, s, es) && Load(cfg, Run(cfg, s, es)) < Load(cfg, s)
    ensures Bounced(Run(cfg, s, es)) == Bounced(s)
  {
    hide Step, Permitted;
    var at := s.messages[m].nextRetryAt.value;
    TickStretches(cfg, batch, s, at);
    var t := Run(cfg, s, [Tick(at)]);
    RetryComesDue(cfg, s, m);
    var picked := B.SweeperClaims(cfg, t, 200, m);
    ClaimStretches(cfg, batch, t, picked);
    JoinStretches(cfg, batch, s, [Tick(at)], [ClaimRetries(200, picked)]);
    es := [Tick(at)] + [ClaimRetries(200, picked)];
  }

  lemma RetryComesDue(cfg: Config, s: State, m: MessageId)
    requires Core(cfg, s) && Unhindered(s) && m < |s.messages| && s.messages[m].nextRetryAt.Some?
    ensures var t := s.(clock := Max(s.clock, s.messages[m].nextRetryAt.value));
            Core(cfg, t) && RetryDue(t.messages, t.campaigns, t.clock, m)
  {
    KeepStep(cfg, s, Tick(s.messages[m].nextRetryAt.value));
    assert M.RowOk(s.messages[m], s.clock);
    assert Dir(s).owner[m] == s.messages[m].campaign;
  }

  lemma ClaimStretches(cfg: Config, batch: int, s: State, picked: seq<MessageId>)
    requires Core(cfg, s) && Unhindered(s) && Progress(s, ClaimRetries(200, picked))
    ensures var es := [ClaimRetries(200, picked)]; var t := Run(cfg, s, es);
            Stretch(cfg, batch, s, es) && Load(cfg, t) < Load(cfg, s) && Bounced(t) == Bounced(s)
  {
    hide Core, CanClaimRetries;
    StretchOfOne(cfg, batch, s, ClaimRetries(200, picked));
    DrainStep(cfg, s, ClaimRetries(200, picked));
  }

  // ------------------------------------------------------------------ completion

  /** While something is left, there is a stretch of work that lowers the load. */
  lemma OneMoreStretch(cfg: Config, batch: int, s: State, provider: State -> Answer) returns (es: seq<Event>)
    requires Core(cfg, s) && Unhindered(s) && !Drained(s)
    requires provider(s).Accepted? ==> provider(s).id !in s.issued
    ensures var t := Run(cfg, s, es);
            Stretch(cfg, batch, s, es) && Load(cfg, t) + Bounced(t) < Load(cfg, s) + Bounced(s)
  {
    hide Step, Core, Permitted, Careful, Arrived, Load;
    if s.timers != [] {
      es := TimerStretches(cfg, batch, s);
    } else if s.swept != [] {
      es := [RequeueSwept(true)];
      PushStretches(cfg, batch, s);
    } else if !s.worker.Idle? || s.queue != [] {
      es := [Work(true, provider(s))];
      WorkStretches(cfg, batch, s, provider(s));
    } else {
      var m :| 0 <= m < |s.messages| && s.messages[m].nextRetryAt.Some?;
      es := SweepStretches(cfg, batch, s, m);
    }
  }

  lemma {:induction false} Finishes(cfg: Config, batch: int, s: State, provider: State -> Answer)
    returns (es: seq<Event>)
    requires CarefullyReached(cfg, s) && Unhindered(s)
    requires forall x :: provider(x).Accepted? ==> provider(x).id !in x.issued
    ensures Stretch(cfg, batch, s, es) && CarefullyReached(cfg, Run(cfg, s, es)) && Drained(Run(cfg, s, es))
    decreases Load(cfg, s) + Bounced(s)
  {
    hide Step, Core, Permitted, Careful, Arrived, Load, Drained, Unhindered, CarefullyReached;
    CarefulIsReachable(cfg, s);
    if Drained(s) {
      es := [];
      NothingToDo(cfg, batch, s);
    } else {
      es := OneMoreStretch(cfg, batch, s, provider);
      StillCareful(cfg, s, es);
      var rest := Finishes(cfg, batch, Run(cfg, s, es), provider);
      JoinStretches(cfg, batch, s, es, rest);
      es := es + rest;
    }
  }

  lemma NothingToDo(cfg: Config, batch: int, s: State)
    requires Unhindered(s)
    ensures Stretch(cfg, batch, s, [])
  {
  }

  /** Completion: from every state reached without losing work, with nothing paused, cancelled or being published, a
      permitted continuation of at most `Load` working steps (and time passing) finishes every message of every campaign
      that does not wait for its schedule, whatever the provider answers. */
  lemma Completes(cfg: Config, batch: int, s: State, provider: State -> Answer) returns (es: seq<Event>)
    requires CarefullyReached(cfg, s) && Unhindered(s)
    requires forall x :: provider(x).Accepted? ==> provider(x).id !in x.issued
    ensures Permitted(cfg, batch, s, es) && Careful(cfg, s, es)
    ensures Occurrences(cfg, s, es, (x, e) => Progress(x, e)) <= Load(cfg, s) + Bounced(s)
    ensures Drained(Run(cfg, s, es)) && AllDone(Run(cfg, s, es))
  {
    hide Step, Core, Permitted, Careful, Arrived, Load, Drained, Unhindered, CarefullyReached;
    es := Finishes(cfg, batch, s, provider);
    CarefulIsReachable(cfg, s);
    DrainBound(cfg, s, es);
    DrainedAllDone(cfg, Run(cfg, s, es));
  }

  /** Nothing can be done any more, however much time passes. */
  ghost predicate Exhausted(cfg: Config, s: State) {
    forall to, e :: !Progress(Run(cfg, s, [Tick(to)]), e)
  }

  lemma ExhaustedIsDrained(cfg: Config, s: State)
    requires CarefullyReached(cfg, s) && Unhindered(s) && Exhausted(cfg, s)
    ensures Drained(s)
  {
    hide Step, CarefullyReached;
    CarefulIsReachable(cfg, s);
    var now := Tick(s.clock);
    TickStretches(cfg, 1, s, s.clock);
    assert Run(cfg, s, [now]) == s;
    assert forall e :: !Progress(s, e);
    assert !Progress(s, FireTimer(0, true)) && !Progress(s, RequeueSwept(true))
           && !Progress(s, Work(true, Rejected("")));
    forall m | 0 <= m < |s.messages| ensures s.messages[m].nextRetryAt.None? {
      if s.messages[m].nextRetryAt.Some? {
        RetryComesDue(cfg, s, m);
        TickStretches(cfg, 1, s, s.messages[m].nextRetryAt.value);
        var picked := B.SweeperClaims(cfg, Run(cfg, s, [Tick(s.messages[m].nextRetryAt.value)]), 200, m);
        assert false;
      }
    }
  }

  /** And every other schedule ends there as well: a run without lost work and without arrivals does at most `Load`
      working steps, and when none can follow it, everything is finished. */
  lemma EveryScheduleCompletes(cfg: Config, s: State, es: seq<Event>)
    requires CarefullyReached(cfg, s) && Careful(cfg, s, es) && Arrived(cfg, s, es) == 0
    ensures Occurrences(cfg, s, es, (x, e) => Progress(x, e)) <= Load(cfg, s)
    ensures var t := Run(cfg, s, es); Unhindered(t) && Exhausted(cfg, t) ==> Drained(t) && AllDone(t)
  {
    hide Step, Core, Careful, Arrived, Load, Drained, Unhindered, CarefullyReached, Exhausted;
    CarefulIsReachable(cfg, s);
    DrainBound(cfg, s, es);
    StillCareful(cfg, s, es);
    var t := Run(cfg, s, es);
    if Unhindered(t) && Exhausted(cfg, t) {
      ExhaustedIsDrained(cfg, t);
      DrainedAllDone(cfg, t);
    }
  }
}
