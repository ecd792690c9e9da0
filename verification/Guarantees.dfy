/** What the invariants mean for a whole run: sends, attempts, publishes, silence, pause, counters. */
module Guarantees {
  import opened Basics
  import M = Messages
  import C = Campaigns
  import opened Protocol
  import opened Invariants
  import opened CoreSteps
  import opened Interleaving
  import opened Invariance
  import opened Accounting
  import K = Counters

  // ------------------------------------------------- counting steps of a run

  /** How many steps of the run satisfy `p` in the state they meet. */
  ghost function Occurrences(cfg: Config, s: State, es: seq<Event>, p: (State, Event) -> bool): nat {
    if es == [] then 0
    else Occurrences(cfg, s, es[..|es| - 1], p) + One(p(Run(cfg, s, es[..|es| - 1]), es[|es| - 1]))
  }

  /** SendText for `m` succeeds. */
  predicate SendsNow(s: State, e: Event, m: MessageId) {
    e.Work? && s.worker.Sending? && s.worker.job.message == m && e.answer.Accepted? && e.answer.id !in s.issued
  }

  /** The provider accepted `m`, but MarkMessageSent fails or the process dies first. */
  predicate LosesSend(s: State, e: Event, m: MessageId) {
    Window(s.worker, m) && (e.Crash? || (e.Work? && !e.ok))
  }

  ghost predicate SweepsNow(s: State, e: Event, m: MessageId) {
    e.ClaimRetries? && CanClaimRetries(s, e.limit, e.picked) && m in e.picked
  }

  /** `Create` pushes the jobs of `c`. */
  predicate CreatePublishesNow(s: State, e: Event, c: CampaignId) {
    e.PublishCreated? && e.campaign == c && e.ok && c in s.creating
  }

  /** The scheduler pushes the jobs of `c`. */
  predicate ReleasePublishesNow(s: State, e: Event, c: CampaignId) {
    e.PublishClaimed? && e.ok && s.scheduler.Publishing? && s.scheduler.claims != []
      && s.scheduler.claims[0].campaign == c
  }

  /** SendText is called for a message of `c`, whatever the outcome. */
  predicate CallsNow(s: State, e: Event, c: CampaignId) {
    e.Work? && s.worker.Sending? && s.worker.item.campaign == c && (e.answer.Accepted? ==> e.answer.id !in s.issued)
  }

  function TallyOf(s: State, m: MessageId): Tally {
    if m < |s.tally| then s.tally[m] else Tally(0, 0, 0, 0, 0)
  }

  function LogOf(s: State, c: CampaignId): Log {
    if c < |s.log| then s.log[c] else Log(0, false, 0, 0, [], 0)
  }

  /** Everything held in memory points into the tables. */
  predicate InRange(s: State) {
    && |s.tally| == |s.messages| && |s.log| == |s.campaigns|
    && (forall c :: c in s.creating ==> c < |s.campaigns|)
    && (s.scheduler.Publishing? && s.scheduler.claims != [] ==> s.scheduler.claims[0].campaign < |s.log|)
    && (!s.worker.Idle? ==> s.worker.job.message < |s.messages|)
    && (HasItem(s.worker) ==> s.worker.item.campaign < |s.log|)
  }

  lemma CoreInRange(cfg: Config, s: State)
    requires Core(cfg, s)
    ensures InRange(s)
  {
  }

  /** What one step adds to the history of `m`. */
  ghost predicate TallyMoves(s: State, e: Event, m: MessageId, a: Tally, b: Tally) {
    && b.sends == a.sends + One(SendsNow(s, e, m))
    && b.lost == a.lost + One(LosesSend(s, e, m))
    && b.sweeps == a.sweeps + One(SweepsNow(s, e, m))
  }

  lemma TallyCrash(s: State, m: MessageId)
    requires InRange(s)
    ensures TallyMoves(s, Crash, m, TallyOf(s, m), TallyOf(DoCrash(s), m))
  {
    hide Owed;
  }

  lemma TallyCreate(s: State, instance: InstanceId, at: Option<Time>, n: nat, m: MessageId)
    requires InRange(s)
    ensures TallyMoves(s, Event.Create(instance, at, n), m, TallyOf(s, m), TallyOf(DoCreate(s, instance, at, n), m))
  {
  }

  lemma TallyStep(cfg: Config, s: State, e: Event, m: MessageId)
    requires InRange(s)
    ensures TallyMoves(s, e, m, TallyOf(s, m), TallyOf(Step(cfg, s, e), m))
  {
    hide InRange, DoWork, DoClaimRetries, DoCreate, DoCrash, CanClaimDue, CanClaimRetries, ReceiveAll, ReleaseAll;
    match e
    case Work(ok, answer) => TallyWork(cfg, s, ok, answer, m);
    case ClaimRetries(limit, picked) => TallySweep(cfg, s, limit, picked, m);
    case Create(instance, at, n) => TallyCreate(s, instance, at, n, m);
    case Crash => TallyCrash(s, m);
    case _ =>
  }

  lemma TallySweep(cfg: Config, s: State, limit: int, picked: seq<MessageId>, m: MessageId)
    requires InRange(s)
    ensures TallyMoves(s, ClaimRetries(limit, picked), m, TallyOf(s, m), TallyOf(DoClaimRetries(s, limit, picked), m))
  {
    if SweepsNow(s, ClaimRetries(limit, picked), m) {
      PickedIsDue(s, picked, limit, m);
    }
  }

  lemma TallyWork(cfg: Config, s: State, ok: bool, answer: Answer, m: MessageId)
    requires InRange(s)
    ensures TallyMoves(s, Work(ok, answer), m, TallyOf(s, m), TallyOf(DoWork(cfg, s, ok, answer), m))
  {
    hide ShouldRetry, DoSettle, DoSend;
    match s.worker
    case Sending(job, item) => TallySend(cfg, s, job, item, ok, answer, m);
    case Answered(job, item, a) => TallySettle(cfg, s, job, item, a, ok, answer, m);
    case _ =>
  }

  lemma TallySend(cfg: Config, s: State, job: Job, item: M.Message, ok: bool, answer: Answer, m: MessageId)
    requires InRange(s) && s.worker == Sending(job, item)
    ensures TallyMoves(s, Work(ok, answer), m, TallyOf(s, m), TallyOf(DoSend(s, job, item, answer), m))
  {
  }

  lemma TallySettle(cfg: Config, s: State, job: Job, item: M.Message, a: Answer, ok: bool, answer: Answer, m: MessageId)
    requires InRange(s) && s.worker == Answered(job, item, a)
    ensures TallyMoves(s, Work(ok, answer), m, TallyOf(s, m), TallyOf(DoSettle(cfg, s, job, item, a, ok), m))
  {
  }

  /** What one step adds to the history of `c`. */
  predicate LogMoves(s: State, e: Event, c: CampaignId, a: Log, b: Log) {
    && b.createPublishes == a.createPublishes + One(CreatePublishesNow(s, e, c))
    && b.releasePublishes == a.releasePublishes + One(ReleasePublishesNow(s, e, c))
    && b.sendCalls == a.sendCalls + One(CallsNow(s, e, c))
  }

  lemma LogCreate(s: State, instance: InstanceId, at: Option<Time>, n: nat, c: CampaignId)
    requires InRange(s)
    ensures LogMoves(s, Event.Create(instance, at, n), c, LogOf(s, c), LogOf(DoCreate(s, instance, at, n), c))
  {
  }

  lemma LogPublishCreated(s: State, d: CampaignId, ok: bool, c: CampaignId)
    requires InRange(s)
    ensures LogMoves(s, PublishCreated(d, ok), c, LogOf(s, c), LogOf(DoPublishCreated(s, d, ok), c))
  {
    hide CreatedJobs, MessagesOf;
  }

  lemma LogPublishClaimed(s: State, ok: bool, c: CampaignId)
    requires InRange(s)
    ensures LogMoves(s, PublishClaimed(ok), c, LogOf(s, c), LogOf(DoPublishClaimed(s, ok), c))
  {
    hide MessagesOf;
  }

  lemma LogStep(cfg: Config, s: State, e: Event, c: CampaignId)
    requires InRange(s)
    ensures LogMoves(s, e, c, LogOf(s, c), LogOf(Step(cfg, s, e), c))
  {
    hide InRange, DoWork, DoCreate, DoPublishCreated, DoPublishClaimed, CanClaimDue, CanClaimRetries, ReceiveAll,
          ReleaseAll;
    match e
    case Create(instance, at, n) => LogCreate(s, instance, at, n, c);
    case PublishCreated(d, ok) => LogPublishCreated(s, d, ok, c);
    case PublishClaimed(ok) => LogPublishClaimed(s, ok, c);
    case Work(ok, answer) => LogWork(cfg, s, ok, answer, c);
    case _ =>
  }

  lemma LogWork(cfg: Config, s: State, ok: bool, answer: Answer, c: CampaignId)
    requires InRange(s)
    ensures LogMoves(s, Work(ok, answer), c, LogOf(s, c), LogOf(DoWork(cfg, s, ok, answer), c))
  {
    hide ShouldRetry, DoSend;
    match s.worker
    case Sending(job, item) => LogSend(cfg, s, job, item, ok, answer, c);
    case _ =>
  }

  lemma LogSend(cfg: Config, s: State, job: Job, item: M.Message, ok: bool, answer: Answer, c: CampaignId)
    requires InRange(s) && s.worker == Sending(job, item)
    ensures LogMoves(s, Work(ok, answer), c, LogOf(s, c), LogOf(DoSend(s, job, item, answer), c))
  {
  }

  /** The history fields are exactly the step counts of the run. */
  lemma {:induction false} HistoryIsTrace(cfg: Config, s: State, es: seq<Event>, m: MessageId, c: CampaignId)
    requires Core(cfg, s)
    ensures var t := Run(cfg, s, es);
            && TallyOf(t, m).sends == TallyOf(s, m).sends + Occurrences(cfg, s, es, (x, e) => SendsNow(x, e, m))
            && TallyOf(t, m).lost == TallyOf(s, m).lost + Occurrences(cfg, s, es, (x, e) => LosesSend(x, e, m))
            && TallyOf(t, m).sweeps == TallyOf(s, m).sweeps + Occurrences(cfg, s, es, (x, e) => SweepsNow(x, e, m))
            && LogOf(t, c).createPublishes
               == LogOf(s, c).createPublishes + Occurrences(cfg, s, es, (x, e) => CreatePublishesNow(x, e, c))
            && LogOf(t, c).releasePublishes
               == LogOf(s, c).releasePublishes + Occurrences(cfg, s, es, (x, e) => ReleasePublishesNow(x, e, c))
            && LogOf(t, c).sendCalls == LogOf(s, c).sendCalls + Occurrences(cfg, s, es, (x, e) => CallsNow(x, e, c))
  {
    if es != [] {
      var before := es[..|es| - 1];
      HistoryIsTrace(cfg, s, before, m, c);
      CoreAlways(cfg, s, before);
      CoreInRange(cfg, Run(cfg, s, before));
      TallyStep(cfg, Run(cfg, s, before), es[|es| - 1], m);
      LogStep(cfg, Run(cfg, s, before), es[|es| - 1], c);
    }
  }

  // ---------------------------------------------------------- reachable states

  lemma Reached(cfg: Config, clock: Time, es: seq<Event>)
    ensures Inv(cfg, Run(cfg, Init(clock), es))
  {
    InvInit(cfg, clock);
    InvAlways(cfg, Init(clock), es);
  }

  lemma InvHere(cfg: Config, s: State)
    requires Reachable(cfg, s)
    ensures Inv(cfg, s)
  {
    hide Step;
    var clock, es :| s == Run(cfg, Init(clock), es);
    Reached(cfg, clock, es);
  }

  /** Every row of every reachable state is well formed: failed_at, sent_at, delivered_at, read_at,
      next_retry_at and provider_message_id are set exactly when the status says so, in time order. */
  lemma RowsWellFormed(cfg: Config, s: State, m: MessageId)
    requires Reachable(cfg, s) && m < |s.messages|
    ensures M.RowOk(s.messages[m], s.clock)
  {
    InvHere(cfg, s);
  }

  // -------------------------------------------------------------------- sends

  /** Over every run, faults included: successful sends of `m` are the dispatched row, the sends
      whose MarkMessageSent was lost, and the one still waiting for its MarkMessageSent. */
  lemma SendLaw(cfg: Config, clock: Time, es: seq<Event>, m: MessageId)
    requires m < |Run(cfg, Init(clock), es).messages|
    ensures var s := Run(cfg, Init(clock), es);
            Occurrences(cfg, Init(clock), es, (x, e) => SendsNow(x, e, m))
            == One(M.Dispatched(s.messages[m].status))
               + Occurrences(cfg, Init(clock), es, (x, e) => LosesSend(x, e, m)) + One(Window(s.worker, m))
  {
    Reached(cfg, clock, es);
    CoreInit(cfg, clock);
    HistoryIsTrace(cfg, Init(clock), es, m, 0);
    var s := Run(cfg, Init(clock), es);
    assert SendOk(s.messages[m], s.tally[m], Window(s.worker, m));
  }

  /** Send-once despite duplicate jobs: unless a MarkMessageSent is lost, SendText succeeds at most once
      per message, and exactly once iff the row is sent, delivered or read or about to be marked sent. */
  lemma SendOnce(cfg: Config, clock: Time, es: seq<Event>, m: MessageId)
    requires m < |Run(cfg, Init(clock), es).messages|
    requires Occurrences(cfg, Init(clock), es, (x, e) => LosesSend(x, e, m)) == 0
    ensures var s := Run(cfg, Init(clock), es);
            var n := Occurrences(cfg, Init(clock), es, (x, e) => SendsNow(x, e, m));
            && n <= 1
            && (n == 1 <==> M.Dispatched(s.messages[m].status) || Window(s.worker, m))
  {
    SendLaw(cfg, clock, es, m);
    Reached(cfg, clock, es);
    var s := Run(cfg, Init(clock), es);
    if Window(s.worker, m) {
      assert ItemOk(cfg, s.messages[m], s.worker);
    }
  }

  // ----------------------------------------------------------------- attempts

  /** attempt_count is bounded by the publishes of the campaign, the retry budget and the sweeper's
      claims; the sweeper claims a message at most as often as it may be retried. */
  lemma AttemptBound(cfg: Config, clock: Time, es: seq<Event>, m: MessageId)
    requires m < |Run(cfg, Init(clock), es).messages|
    ensures var s := Run(cfg, Init(clock), es);
            var c := s.messages[m].campaign;
            var published := Occurrences(cfg, Init(clock), es, (x, e) => CreatePublishesNow(x, e, c))
                             + Occurrences(cfg, Init(clock), es, (x, e) => ReleasePublishesNow(x, e, c));
            var swept := Occurrences(cfg, Init(clock), es, (x, e) => SweepsNow(x, e, m));
            && s.messages[m].attempts <= published + Max(0, cfg.maxAttempts - 1) + swept
            && swept <= Max(0, cfg.maxAttempts - 1)
  {
    Reached(cfg, clock, es);
    CoreInit(cfg, clock);
    var s := Run(cfg, Init(clock), es);
    assert Dir(s).owner[m] == s.messages[m].campaign;
    HistoryIsTrace(cfg, Init(clock), es, m, s.messages[m].campaign);
    assert AttemptOk(cfg, s.messages[m], s.tally[m], Publishes(s.log[s.messages[m].campaign]),
                     AllCopies(s.queue, s.timers, s.swept, m), s.worker, m);
  }

  /** The scheduler successfully pushes a campaign at most once over the whole run, through any number of
      failed publishes and reverts; `Create` pushes it at most once, and never one born scheduled. */
  lemma PublishBound(cfg: Config, clock: Time, es: seq<Event>, c: CampaignId)
    requires c < |Run(cfg, Init(clock), es).campaigns|
    ensures var s := Run(cfg, Init(clock), es);
            var created := Occurrences(cfg, Init(clock), es, (x, e) => CreatePublishesNow(x, e, c));
            var released := Occurrences(cfg, Init(clock), es, (x, e) => ReleasePublishesNow(x, e, c));
            && created <= 1 && released <= 1
            && c < |s.log| && (s.log[c].bornScheduled ==> created == 0)
            && (released == 1 ==> s.campaigns[c].releasedAt.Some?)
            && !(s.campaigns[c].releasedAt.Some? && s.campaigns[c].cancelledAt.Some?)
  {
    Reached(cfg, clock, es);
    CoreInit(cfg, clock);
    HistoryIsTrace(cfg, Init(clock), es, 0, c);
    var s := Run(cfg, Init(clock), es);
    assert PublishOk(s.campaigns[c], s.log[c], c in s.creating, Claims(s.scheduler, c));
    assert CampaignOk(s.campaigns[c]);
  }

  /** With one publish and no sweep, a message is attempted at most MaxAttempts times. */
  lemma AttemptsWithinMax(cfg: Config, clock: Time, es: seq<Event>, m: MessageId)
    requires m < |Run(cfg, Init(clock), es).messages| && cfg.maxAttempts >= 1
    requires var c := Run(cfg, Init(clock), es).messages[m].campaign;
             Occurrences(cfg, Init(clock), es, (x, e) => CreatePublishesNow(x, e, c))
             + Occurrences(cfg, Init(clock), es, (x, e) => ReleasePublishesNow(x, e, c))
             + Occurrences(cfg, Init(clock), es, (x, e) => SweepsNow(x, e, m)) <= 1
    ensures Run(cfg, Init(clock), es).messages[m].attempts <= cfg.maxAttempts
  {
    hide Step;
    AttemptBound(cfg, clock, es, m);
  }

  // ------------------------------------------------------------------ silence

  /** No job of `c` exists outside the database and no message of it was ever attempted or sent. */
  ghost predicate Silent(s: State, c: CampaignId) {
    && (forall i :: 0 <= i < |s.queue| ==> s.queue[i].campaign != c)
    && (forall i :: 0 <= i < |s.timers| ==> s.timers[i].campaign != c)
    && (forall i :: 0 <= i < |s.swept| ==> s.swept[i].campaign != c)
    && (!s.worker.Idle? ==> s.worker.job.campaign != c)
    && (forall m :: 0 <= m < |s.messages| && s.messages[m].campaign == c ==>
          && s.messages[m].status.Pending? && s.messages[m].attempts == 0 && s.messages[m].nextRetryAt.None?
          && TallyOf(s, m).sends == 0)
  }

  lemma SilentWhileUnpublished(cfg: Config, s: State, c: CampaignId)
    requires Inv(cfg, s) && c < |s.campaigns| && !Published(s.log[c])
    ensures Silent(s, c)
  {
    var d, live := Dir(s), Live(s.log);
    assert c !in live;
    forall i | 0 <= i < |s.queue| ensures s.queue[i].campaign != c { assert JobOk(d, live, s.queue[i]); }
    forall i | 0 <= i < |s.timers| ensures s.timers[i].campaign != c { assert JobOk(d, live, s.timers[i]); }
    forall i | 0 <= i < |s.swept| ensures s.swept[i].campaign != c { assert JobOk(d, live, s.swept[i]); }
    forall m | 0 <= m < |s.messages| && s.messages[m].campaign == c
      ensures s.messages[m].status.Pending? && s.messages[m].attempts == 0 && s.messages[m].nextRetryAt.None?
      ensures TallyOf(s, m).sends == 0
    {
      assert d.owner[m] == c;
      assert M.RowOk(s.messages[m], s.clock);
      assert SendOk(s.messages[m], s.tally[m], Window(s.worker, m));
    }
  }

  /** While a campaign created as scheduled is unreleased, nothing of it moves. */
  lemma ScheduledSilence(cfg: Config, s: State, c: CampaignId)
    requires Reachable(cfg, s) && c < |s.campaigns| && c < |s.log|
    requires s.log[c].bornScheduled && s.campaigns[c].releasedAt.None?
    ensures Silent(s, c)
  {
    InvHere(cfg, s);
    assert PublishOk(s.campaigns[c], s.log[c], c in s.creating, Claims(s.scheduler, c));
    SilentWhileUnpublished(cfg, s, c);
  }

  /** Without a reschedule, a cancelled campaign stays cancelled. */
  lemma CancelledStep(cfg: Config, s: State, e: Event, c: CampaignId)
    requires c < |s.campaigns| && s.campaigns[c].cancelledAt.Some? && !(e.Reschedule? && e.campaign == c)
    ensures var t := Step(cfg, s, e); c < |t.campaigns| && t.campaigns[c].cancelledAt.Some?
  {
    hide DoWork, CanClaimRetries, ReceiveAll, Sweep, CountSweep;
    match e
    case ClaimDue(batchSize, claims) => CancelledNotClaimed(s, batchSize, claims, c);
    case Work(ok, answer) => CancelledWork(cfg, s, ok, answer, c);
    case _ =>
  }

  lemma CancelledWork(cfg: Config, s: State, ok: bool, answer: Answer, c: CampaignId)
    requires c < |s.campaigns| && s.campaigns[c].cancelledAt.Some?
    ensures var t := DoWork(cfg, s, ok, answer); c < |t.campaigns| && t.campaigns[c].cancelledAt.Some?
  {
  }

  lemma CancelledNotClaimed(s: State, batchSize: int, claims: seq<Claimed>, c: CampaignId)
    requires c < |s.campaigns| && s.campaigns[c].cancelledAt.Some?
    ensures CanClaimDue(s, batchSize, claims) ==> c !in Campaigns(claims)
  {
    if CanClaimDue(s, batchSize, claims) {
      forall k | 0 <= k < |claims| ensures Campaigns(claims)[k] != c {
        assert Campaigns(claims)[k] in DueCampaigns(s.campaigns, s.clock);
      }
    }
  }

  /** Cancelled, never published, and nobody is about to publish it. */
  predicate Withdrawn(s: State, c: CampaignId) {
    && c < |s.campaigns| && c < |s.log| && s.campaigns[c].cancelledAt.Some?
    && !Published(s.log[c]) && c !in s.creating
  }

  lemma WithdrawnPublish(cfg: Config, s: State, ok: bool, c: CampaignId)
    requires Core(cfg, s) && Withdrawn(s, c)
    ensures Withdrawn(DoPublishClaimed(s, ok), c)
  {
    if s.scheduler.Publishing? {
      assert Claims(s.scheduler, s.scheduler.claims[0].campaign);
      assert PublishOk(s.campaigns[c], s.log[c], c in s.creating, Claims(s.scheduler, c));
      assert CampaignOk(s.campaigns[c]);
    }
  }

  lemma WithdrawnWork(cfg: Config, s: State, ok: bool, answer: Answer, c: CampaignId)
    requires Withdrawn(s, c)
    ensures Withdrawn(DoWork(cfg, s, ok, answer), c)
  {
    CancelledWork(cfg, s, ok, answer, c);
    match s.worker
    case Sending(job, item) => WithdrawnSend(s, job, item, answer, c);
    case _ =>
  }

  lemma WithdrawnSend(s: State, job: Job, item: M.Message, answer: Answer, c: CampaignId)
    requires Withdrawn(s, c)
    ensures Withdrawn(DoSend(s, job, item, answer), c)
  {
  }

  lemma WithdrawnStep(cfg: Config, s: State, e: Event, c: CampaignId)
    requires Core(cfg, s) && Withdrawn(s, c) && !(e.Reschedule? && e.campaign == c)
    ensures Withdrawn(Step(cfg, s, e), c)
  {
    CoreInRange(cfg, s);
    CancelledStep(cfg, s, e, c);
    if e.PublishClaimed? {
      WithdrawnPublish(cfg, s, e.ok, c);
    } else if e.Work? {
      WithdrawnWork(cfg, s, e.ok, e.answer, c);
    }
    hide Core;
  }

  lemma {:induction false} WithdrawnStays(cfg: Config, s: State, es: seq<Event>, c: CampaignId)
    requires Core(cfg, s) && Withdrawn(s, c)
    requires forall i :: 0 <= i < |es| ==> !(es[i].Reschedule? && es[i].campaign == c)
    ensures Core(cfg, Run(cfg, s, es)) && Withdrawn(Run(cfg, s, es), c)
  {
    hide Step, Core, Withdrawn;
    if es != [] {
      var before := es[..|es| - 1];
      WithdrawnStays(cfg, s, before, c);
      WithdrawnStep(cfg, Run(cfg, s, before), es[|es| - 1], c);
      KeepStep(cfg, Run(cfg, s, before), es[|es| - 1]);
    }
  }

  /** A cancelled campaign that was created for later, or was never published for another reason, stays silent until
      it is rescheduled. */
  lemma CancelledNeverSends(cfg: Config, s: State, more: seq<Event>, c: CampaignId)
    requires Reachable(cfg, s) && c < |s.campaigns| && c < |s.log| && s.campaigns[c].cancelledAt.Some?
    requires s.log[c].bornScheduled || (!Published(s.log[c]) && c !in s.creating)
    requires forall i :: 0 <= i < |more| ==> !(more[i].Reschedule? && more[i].campaign == c)
    ensures Silent(Run(cfg, s, more), c)
  {
    hide Step;
    InvHere(cfg, s);
    assert CampaignOk(s.campaigns[c]);
    assert PublishOk(s.campaigns[c], s.log[c], c in s.creating, Claims(s.scheduler, c));
    WithdrawnStays(cfg, s, more, c);
    InvAlways(cfg, s, more);
    SilentWhileUnpublished(cfg, Run(cfg, s, more), c);
  }

  // -------------------------------------------------------------------- pause

  /** Past the pause check and before the provider call, for campaign `c`. */
  predicate PastGate(w: Worker, c: CampaignId) {
    (w.Admitted? || w.Marked? || w.Waiting? || w.Sending?) && w.item.campaign == c
  }

  lemma PausedStep(cfg: Config, s: State, e: Event, c: CampaignId)
    requires InRange(s) && c < |s.campaigns| && s.campaigns[c].paused && !(e.SetPaused? && e.campaign == c && !e.paused)
    ensures var t := Step(cfg, s, e);
            && c < |t.campaigns| && t.campaigns[c].paused
            && One(CallsNow(s, e, c)) + One(PastGate(t.worker, c)) <= One(PastGate(s.worker, c))
  {
    hide DoWork, CanClaimRetries, ReceiveAll, Sweep, CountSweep;
    if e.Work? {
      PausedWork(cfg, s, e.ok, e.answer, c);
    }
  }

  lemma PausedWork(cfg: Config, s: State, ok: bool, answer: Answer, c: CampaignId)
    requires InRange(s) && c < |s.campaigns| && s.campaigns[c].paused
    ensures var t := DoWork(cfg, s, ok, answer);
            && c < |t.campaigns| && t.campaigns[c].paused
            && One(CallsNow(s, Work(ok, answer), c)) + One(PastGate(t.worker, c)) <= One(PastGate(s.worker, c))
  {
    match s.worker
    case Read(job, item) => PausedGate(s, job, item, ok, c);
    case Sending(job, item) => PausedSend(s, job, item, ok, answer, c);
    case _ =>
  }

  lemma PausedGate(s: State, job: Job, item: M.Message, ok: bool, c: CampaignId)
    requires c < |s.campaigns| && s.campaigns[c].paused && s.worker == Read(job, item)
    ensures var t := DoGate(s, job, item, ok);
            t.campaigns == s.campaigns && !PastGate(t.worker, c) && !PastGate(s.worker, c)
  {
  }

  lemma PausedSend(s: State, job: Job, item: M.Message, ok: bool, answer: Answer, c: CampaignId)
    requires InRange(s) && s.worker == Sending(job, item)
    ensures var t := DoSend(s, job, item, answer);
            t.campaigns == s.campaigns
            && One(CallsNow(s, Work(ok, answer), c)) + One(PastGate(t.worker, c)) <= One(PastGate(s.worker, c))
  {
  }

  /** From a pause until the next resume at most one SendText is made for the campaign, and only if the
      worker had already read the campaign row before the pause. */
  lemma {:induction false} PauseSafety(cfg: Config, s: State, es: seq<Event>, c: CampaignId)
    requires Core(cfg, s) && c < |s.campaigns| && s.campaigns[c].paused
    requires forall i :: 0 <= i < |es| ==> !(es[i].SetPaused? && es[i].campaign == c && !es[i].paused)
    ensures var t := Run(cfg, s, es);
            && c < |t.campaigns| && t.campaigns[c].paused
            && Occurrences(cfg, s, es, (x, e) => CallsNow(x, e, c)) + One(PastGate(t.worker, c))
               <= One(PastGate(s.worker, c))
  {
    if es != [] {
      var before := es[..|es| - 1];
      PauseSafety(cfg, s, before, c);
      CoreAlways(cfg, s, before);
      CoreInRange(cfg, Run(cfg, s, before));
      PausedStep(cfg, Run(cfg, s, before), es[|es| - 1], c);
    }
  }

  // ----------------------------------------------------------------- counters

  /** A recalculation that somebody owed fails, or dies with the process. */
  predicate LosesRecalculation(s: State, e: Event) {
    || (e.Work? && !e.ok && (s.worker.Marked? || s.worker.Settled?))
    || (e.TrackMark? && !e.ok) || (e.TrackRecalculate? && !e.ok) || e.Crash?
  }

  lemma {:induction false} NothingStale(cfg: Config, s: State, es: seq<Event>)
    requires s.stale == {} && Occurrences(cfg, s, es, (x, e) => LosesRecalculation(x, e)) == 0
    ensures Run(cfg, s, es).stale == {}
  {
    if es != [] {
      NothingStale(cfg, s, es[..|es| - 1]);
      StaleStep(cfg, Run(cfg, s, es[..|es| - 1]), es[|es| - 1]);
    }
  }

  lemma StaleStep(cfg: Config, s: State, e: Event)
    requires s.stale == {} && !LosesRecalculation(s, e)
    ensures Step(cfg, s, e).stale == {}
  {
  }

  /** In every reachable state the six counters sum to total_messages, the number of rows, and they equal the
      true per-status counts unless the worker or a Track call owes a recalculation, or one was lost. */
  lemma CounterCoherence(cfg: Config, s: State, c: CampaignId)
    requires Reachable(cfg, s) && c < |s.campaigns|
    ensures var row := s.campaigns[c];
            && C.Sum(row.counts) == row.total && C.RowsOf(s.messages, c) == row.total && row.total >= 1
            && (row.counts == C.TrueCounts(s.messages, c) || Owed(s.worker, s.tracks, c) || c in s.stale)
  {
    InvHere(cfg, s);
    assert K.CounterOk(s.campaigns[c], s.messages, s.worker, s.tracks, s.stale, c);
    assert Dir(s).total[c] == s.campaigns[c].total;
  }

  /** In a run that loses no recalculation, the counters are exact whenever nobody owes one. */
  lemma CountersExact(cfg: Config, clock: Time, es: seq<Event>, c: CampaignId)
    requires Occurrences(cfg, Init(clock), es, (x, e) => LosesRecalculation(x, e)) == 0
    ensures var s := Run(cfg, Init(clock), es);
            c < |s.campaigns| ==> s.campaigns[c].counts == C.TrueCounts(s.messages, c) || Owed(s.worker, s.tracks, c)
  {
    hide Step;
    NothingStale(cfg, Init(clock), es);
    if c < |Run(cfg, Init(clock), es).campaigns| {
      CounterCoherence(cfg, Run(cfg, Init(clock), es), c);
    }
  }
}
