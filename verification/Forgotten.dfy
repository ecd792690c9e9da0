/** When a message is never sent (again), whatever happens. */
module Forgotten {
  import opened Basics
  import M = Messages
  import opened Protocol
  import opened Invariants
  import opened CoreSteps
  import opened NoLostWork
  import opened Interleaving
  import opened Outstanding
  import opened Gates
  import opened Revival
  import opened Stranded
  import G = Guarantees
  import D = Delivery
  import B = Batches

  /** Dispatched already; or without a job, of a campaign that is released for good, and not waiting for the sweeper. */
  ghost predicate Done(cfg: Config, s: State, m: MessageId) {
    && m < |s.messages|
    && (|| M.Dispatched(s.messages[m].status)
        || (!BroughtIn(cfg, s, m) && ReleasedForGood(s, s.messages[m].campaign) && s.messages[m].nextRetryAt.None?))
  }

  // ------------------------------------------------------------- done for good

  /** Only a retry of the message itself gives it a due time. */
  lemma NoDueTimeWork(cfg: Config, s: State, ok: bool, answer: Answer, m: MessageId)
    requires m < |s.messages| && !BroughtIn(cfg, s, m) && s.messages[m].nextRetryAt.None?
    ensures var t := DoWork(cfg, s, ok, answer); m < |t.messages| && t.messages[m].nextRetryAt.None?
  {
  }

  lemma NoDueTime(cfg: Config, s: State, e: Event, m: MessageId)
    requires m < |s.messages| && !BroughtIn(cfg, s, m) && s.messages[m].nextRetryAt.None?
    ensures var t := Step(cfg, s, e); m < |t.messages| && t.messages[m].nextRetryAt.None?
  {
    hide BroughtIn, DoWork, CanClaimDue, CanClaimRetries, ReleaseAll;
    if e.Work? {
      NoDueTimeWork(cfg, s, e.ok, e.answer, m);
    }
  }

  lemma ReleasedIsClosed(s: State, m: MessageId)
    requires m < |s.messages| && ReleasedForGood(s, s.messages[m].campaign) && s.messages[m].nextRetryAt.None?
    ensures Closed(s, m)
  {
  }

  lemma DoneStep(cfg: Config, s: State, e: Event, m: MessageId)
    requires Core(cfg, s) && Done(cfg, s, m)
    ensures Done(cfg, Step(cfg, s, e), m)
  {
    hide Step, Core, BroughtIn, ReleasedForGood, Closed;
    var t := Step(cfg, s, e);
    D.AdvanceStep(cfg, s, e);
    assert D.Advances(s.messages[m], t.messages[m]);
    if !M.Dispatched(s.messages[m].status) {
      NoDueTime(cfg, s, e, m);
      ReleasedStep(cfg, s, e, s.messages[m].campaign);
      ReleasedIsClosed(s, m);
      if BroughtIn(cfg, t, m) {
        NewJobs(cfg, s, e, m);
      }
    }
  }

  lemma {:induction false} DoneForever(cfg: Config, s: State, es: seq<Event>, m: MessageId)
    requires Core(cfg, s) && Done(cfg, s, m)
    ensures Core(cfg, Run(cfg, s, es)) && Done(cfg, Run(cfg, s, es), m)
  {
    hide Step, Core, Done;
    if es != [] {
      var before := es[..|es| - 1];
      DoneForever(cfg, s, before, m);
      DoneStep(cfg, Run(cfg, s, before), es[|es| - 1], m);
      KeepStep(cfg, Run(cfg, s, before), es[|es| - 1]);
    }
  }

  lemma DoneIsNotSent(cfg: Config, s: State, e: Event, m: MessageId)
    requires Core(cfg, s) && Done(cfg, s, m)
    ensures !G.SendsNow(s, e, m)
  {
  }

  // ------------------------------------------------------ the sweeper's way back

  /** The sweeper pushes everything it holds. */
  lemma {:induction false} PushesAll(cfg: Config, batch: int, s: State, c: CampaignId, m: MessageId)
    returns (es: seq<Event>)
    requires Unsent(cfg, s, c, m)
    ensures Permitted(cfg, batch, s, es)
    ensures var t := Run(cfg, s, es); Unsent(cfg, t, c, m) && t == s.(swept := [], queue := t.queue)
    decreases |s.swept|
  {
    hide Step, Reachable, Permitted;
    es := [];
    FreeIsPermitted(cfg, batch, s, es);
    if s.swept != [] {
      OnePush(cfg, s, c, m);
      es := [RequeueSwept(true)];
      FreeIsPermitted(cfg, batch, s, es);
      var more := PushesAll(cfg, batch, Run(cfg, s, es), c, m);
      Join(cfg, batch, s, es, more);
      es := es + more;
    }
  }

  lemma OnePush(cfg: Config, s: State, c: CampaignId, m: MessageId)
    requires Unsent(cfg, s, c, m) && s.swept != []
    ensures var t := Run(cfg, s, [RequeueSwept(true)]);
            Unsent(cfg, t, c, m) && t == s.(swept := s.swept[1..], queue := t.queue)
  {
    OneStep(cfg, s, RequeueSwept(true));
  }

  /** A due retry of an unpaused campaign, to be claimed by one of the next ticks. */
  ghost predicate Waits(cfg: Config, s: State, c: CampaignId, m: MessageId) {
    Unsent(cfg, s, c, m) && RetryDue(s.messages, s.campaigns, s.clock, m)
  }

  /** One tick of the sweeper: it takes `m`, or what it takes instead is no longer due. */
  lemma SweepHolds(cfg: Config, batch: int, s: State, c: CampaignId, m: MessageId) returns (picked: seq<MessageId>)
    requires Waits(cfg, s, c, m) && s.swept == []
    ensures Permitted(cfg, batch, s, [ClaimRetries(200, picked)])
    ensures var t := Run(cfg, s, [ClaimRetries(200, picked)]);
            && Unsent(cfg, t, c, m)
            && (Carries(t.swept, m) || (Waits(cfg, t, c, m) && DueLess(t, s)))
  {
    hide Permitted, DueRetries, RetryDue, EarliestBatch;
    var due := DueRetries(s.messages, s.campaigns, s.clock);
    picked := B.BatchExists(due, 200);
    OneIsPermitted(cfg, batch, s, ClaimRetries(200, picked));
    OneStep(cfg, s, ClaimRetries(200, picked));
    hide Reachable;
    SweepOutcome(s, picked, m);
  }

  ghost predicate DueLess(t: State, s: State) {
    |DueRetries(t.messages, t.campaigns, t.clock)| < |DueRetries(s.messages, s.campaigns, s.clock)|
  }

  lemma SweepOutcome(s: State, picked: seq<MessageId>, m: MessageId)
    requires CanClaimRetries(s, 200, picked) && m < |s.messages| && RetryDue(s.messages, s.campaigns, s.clock, m)
    ensures var t := DoClaimRetries(s, 200, picked);
            && m < |t.messages| && t.messages[m].campaign == s.messages[m].campaign && t.messages[m].status.Pending?
            && (Carries(t.swept, m) || (RetryDue(t.messages, t.campaigns, t.clock, m) && DueLess(t, s)))
  {
    var t := DoClaimRetries(s, 200, picked);
    if m in picked {
      var i :| 0 <= i < |picked| && picked[i] == m;
      assert t.swept[i].message == m;
    } else {
      B.SweptAreGone(s.messages, s.campaigns, s.clock, picked);
      B.OneTick(DueRetries(s.messages, s.campaigns, s.clock), 200, picked);
      assert m in DueRetries(s.messages, s.campaigns, s.clock);
    }
  }

  /** The sweeper's ticks of 200 reach every due retry. */
  lemma {:induction false} TicksReach(cfg: Config, batch: int, s: State, c: CampaignId, m: MessageId)
    returns (es: seq<Event>)
    requires Waits(cfg, s, c, m) && s.swept == []
    ensures Requeues(cfg, batch, s, es, c, m)
    decreases |DueRetries(s.messages, s.campaigns, s.clock)|
  {
    hide Step, Reachable, Permitted, DueRetries, RetryDue, Way;
    var picked := SweepHolds(cfg, batch, s, c, m);
    es := [ClaimRetries(200, picked)];
    var t := Run(cfg, s, es);
    if Carries(t.swept, m) {
      var i :| 0 <= i < |t.swept| && t.swept[i].message == m;
      var push := SweptQueues(cfg, batch, t, i, c, m);
      WayIsPermitted(cfg, batch, t, push, c);
      Join(cfg, batch, s, es, push);
      es := es + push;
    } else {
      var push := PushesAll(cfg, batch, t, c, m);
      Join(cfg, batch, s, es, push);
      es := es + push;
      var more := TicksReach(cfg, batch, Run(cfg, s, es), c, m);
      Join(cfg, batch, s, es, more);
      es := es + more;
    }
  }

  /** A pending row with a due time comes back through the sweeper. */
  lemma RetryQueues(cfg: Config, batch: int, s: State, c: CampaignId, m: MessageId) returns (es: seq<Event>)
    requires Unsent(cfg, s, c, m) && ReleasedForGood(s, c) && s.messages[m].nextRetryAt.Some?
    ensures Requeues(cfg, batch, s, es, c, m)
  {
    hide Step, Reachable, Permitted, Way;
    es := [Crash];
    FreeIsPermitted(cfg, batch, s, es);
    AfterCrash(cfg, s, c, m);
    var t := Run(cfg, s, es);
    if t.campaigns[c].paused {
      var resume := [SetPaused(c, false), Recalculate(c)];
      Resumes(cfg, batch, t, c, m);
      ResumeKeepsCancelled(cfg, t, c);
      WayIsPermitted(cfg, batch, t, resume, c);
      Join(cfg, batch, s, es, resume);
      es := es + resume;
    }
    var u := Run(cfg, s, es);
    var tick := [Tick(u.messages[m].nextRetryAt.value)];
    FreeIsPermitted(cfg, batch, u, tick);
    RetryIsDue(cfg, u, c, m);
    Join(cfg, batch, s, es, tick);
    es := es + tick;
    var more := TicksReach(cfg, batch, Run(cfg, s, es), c, m);
    Join(cfg, batch, s, es, more);
    es := es + more;
  }

  lemma AfterCrash(cfg: Config, s: State, c: CampaignId, m: MessageId)
    requires Unsent(cfg, s, c, m) && ReleasedForGood(s, c)
    ensures var t := Run(cfg, s, [Crash]);
            && Unsent(cfg, t, c, m) && t.swept == [] && t.timers == [] && t.messages == s.messages
            && c < |t.campaigns|
            && t.campaigns[c].cancelledAt.None? && t.campaigns == s.campaigns
  {
    ReachableIsCore(cfg, s);
    assert CampaignOk(s.campaigns[c]);
    OneStep(cfg, s, Crash);
  }

  lemma ResumeKeepsCancelled(cfg: Config, s: State, c: CampaignId)
    requires c < |s.campaigns|
    ensures var t := Run(cfg, s, [SetPaused(c, false), Recalculate(c)]);
            c < |t.campaigns| && t.campaigns[c].cancelledAt == s.campaigns[c].cancelledAt
  {
    TwoSteps(cfg, s, SetPaused(c, false), Recalculate(c));
  }

  lemma RetryIsDue(cfg: Config, s: State, c: CampaignId, m: MessageId)
    requires Unsent(cfg, s, c, m) && s.messages[m].nextRetryAt.Some? && s.swept == []
    requires c < |s.campaigns| && s.campaigns[c].cancelledAt.None? && !s.campaigns[c].paused
    ensures var t := Run(cfg, s, [Tick(s.messages[m].nextRetryAt.value)]); Waits(cfg, t, c, m) && t.swept == []
  {
    ReachableIsCore(cfg, s);
    assert M.RowOk(s.messages[m], s.clock);
    OneStep(cfg, s, Tick(s.messages[m].nextRetryAt.value));
  }

  // ------------------------------------------------------------------ the answer

  /** Some permitted continuation makes a successful SendText for `m`. */
  ghost predicate MaySend(cfg: Config, batch: int, s: State, m: MessageId) {
    exists es, e :: Permitted(cfg, batch, s, es) && G.SendsNow(Run(cfg, s, es), e, m)
  }

  lemma SendableMaySend(cfg: Config, batch: int, s: State, es: seq<Event>, c: CampaignId, m: MessageId)
    requires Permitted(cfg, batch, s, es) && Sendable(cfg, Run(cfg, s, es), c, m)
    ensures MaySend(cfg, batch, s, m)
  {
    hide Step, Permitted, Reachable;
    var id := FreshId(Run(cfg, s, es).issued);
    assert G.SendsNow(Run(cfg, s, es), Work(true, Accepted(id)), m);
  }

  lemma QueuedMaySend(cfg: Config, batch: int, s: State, first: seq<Event>, c: CampaignId, m: MessageId)
    requires Requeues(cfg, batch, s, first, c, m)
    ensures MaySend(cfg, batch, s, m)
  {
    hide Step, Reachable, Permitted;
    var more := QueuedReachesProvider(cfg, batch, Run(cfg, s, first), c, m);
    Join(cfg, batch, s, first, more);
    SendableMaySend(cfg, batch, s, first + more, c, m);
  }

  /** In every reachable state, faults of any kind having happened: a permitted continuation sends `m` (again) unless it
      is dispatched, or it has no job in the list, in a timer, with the sweeper or with the worker, its campaign's
      `Create` is not about to publish, the campaign is released for good, and no retry is due to the sweeper. In these
      cases no continuation sends it, permitted or not. */
  lemma NeverSentIffDone(cfg: Config, batch: int, s: State, m: MessageId)
    requires Reachable(cfg, s) && m < |s.messages|
    ensures MaySend(cfg, batch, s, m) <==> !Done(cfg, s, m)
    ensures Done(cfg, s, m) ==> forall es, e :: !G.SendsNow(Run(cfg, s, es), e, m)
  {
    hide Step, Reachable, BroughtIn, ReleasedForGood, Core, Permitted, Way, Requeues;
    var c := s.messages[m].campaign;
    if Done(cfg, s, m) {
      ReachableIsCore(cfg, s);
      forall es, e ensures !G.SendsNow(Run(cfg, s, es), e, m) {
        DoneForever(cfg, s, es, m);
        DoneIsNotSent(cfg, Run(cfg, s, es), e, m);
      }
    } else {
      CampaignExists(cfg, s, m);
      if BroughtIn(cfg, s, m) {
        var es := ReachesProvider(cfg, batch, s, c, m);
        WayIsPermitted(cfg, batch, s, es, c);
        SendableMaySend(cfg, batch, s, es, c, m);
      } else if !ReleasedForGood(s, c) {
        var es := PublishableQueues(cfg, batch, s, c, m);
        QueuedMaySend(cfg, batch, s, es, c, m);
      } else {
        var es := RetryQueues(cfg, batch, s, c, m);
        QueuedMaySend(cfg, batch, s, es, c, m);
      }
    }
  }
}
