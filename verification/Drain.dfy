/** Every run drains: a potential that each unit of work lowers, and what is true when it is gone. */
module Drain {
  import opened Basics
  import M = Messages
  import C = Campaigns
  import opened Protocol
  import opened Invariants
  import opened CoreSteps
  import A = Accounting
  import opened NoLostWork
  import opened Guarantees

  /** A pending retry will cost a sweep, and every unused retry a whole attempt. */
  function Weight(cfg: Config, row: M.Message): nat {
    (if row.nextRetryAt.Some? then 12 else 0) + 40 * Max(0, A.Retries(cfg) - row.attempts)
  }

  function Backlog(cfg: Config, ms: seq<M.Message>): nat {
    if ms == [] then 0 else Backlog(cfg, ms[..|ms| - 1]) + Weight(cfg, ms[|ms| - 1])
  }

  /** What the attempt in hand may still add if it is retried. */
  function Reserve(cfg: Config, item: M.Message): nat {
    if item.attempts + 1 < cfg.maxAttempts then 24 else 0
  }

  function HandLoad(cfg: Config, w: Worker): nat {
    match w
    case Idle => 0
    case Popped(_) => 9
    case Read(_, _) => 8
    case Requeue(_) => 7
    case Admitted(_, _) => 7
    case Marked(_, item) => 6 + Reserve(cfg, item)
    case Waiting(_, item) => 5 + Reserve(cfg, item)
    case Sending(_, item) => 4 + Reserve(cfg, item)
    case Answered(_, item, _) => 3 + Reserve(cfg, item)
    case Settled(_, _, retry) => if retry then 13 else 2
    case Rearm(_, _) => 12
  }

  function Load(cfg: Config, s: State): nat {
    10 * |s.queue| + 11 * |s.timers| + 11 * |s.swept| + Backlog(cfg, s.messages) + HandLoad(cfg, s.worker)
  }

  /** New work: created or published messages, and jobs bounced off a paused campaign. */
  function Arriving(cfg: Config, s: State, e: Event): nat {
    match e
    case Create(_, _, n) => 40 * A.Retries(cfg) * n
    case PublishCreated(c, ok) => if c < |s.campaigns| then 10 * s.campaigns[c].total else 0
    case PublishClaimed(ok) =>
      if s.scheduler.Publishing? && s.scheduler.claims != [] then 10 * |s.scheduler.claims[0].jobs| else 0
    case Work(ok, _) => if s.worker.Requeue? then 4 else 0
    case _ => 0
  }

  /** The event does a unit of dispatch work in `s`. */
  ghost predicate Progress(s: State, e: Event) {
    match e
    case ClaimRetries(limit, picked) => CanClaimRetries(s, limit, picked) && picked != []
    case RequeueSwept(_) => s.swept != []
    case FireTimer(i, _) => i < |s.timers|
    case Work(ok, answer) =>
      && !(s.worker.Idle? && (!ok || s.queue == []))
      && !(s.worker.Sending? && answer.Accepted? && answer.id in s.issued)
    case _ => false
  }

  // ----------------------------------------------------------------- backlog

  lemma {:induction false} BacklogConcat(cfg: Config, a: seq<M.Message>, b: seq<M.Message>)
    ensures Backlog(cfg, a + b) == Backlog(cfg, a) + Backlog(cfg, b)
  {
    if b == [] {
      assert a + b == a;
    } else {
      BacklogConcat(cfg, a, b[..|b| - 1]);
      assert (a + b)[..|a + b| - 1] == a + b[..|b| - 1];
    }
  }

  lemma BacklogUpdate(cfg: Config, ms: seq<M.Message>, m: MessageId, row: M.Message)
    requires m < |ms|
    ensures Backlog(cfg, ms[m := row]) + Weight(cfg, ms[m]) == Backlog(cfg, ms) + Weight(cfg, row)
  {
    var a, b := ms[..m], ms[m + 1..];
    assert ms == a + [ms[m]] + b && ms[m := row] == a + [row] + b;
    BacklogConcat(cfg, a + [ms[m]], b);
    BacklogConcat(cfg, a + [row], b);
    BacklogConcat(cfg, a, [ms[m]]);
    BacklogConcat(cfg, a, [row]);
    assert [row][..0] == [] && [ms[m]][..0] == [];
  }

  lemma {:induction false} BacklogSame(cfg: Config, a: seq<M.Message>, b: seq<M.Message>)
    requires |a| == |b| && forall m :: 0 <= m < |a| ==> Weight(cfg, a[m]) == Weight(cfg, b[m])
    ensures Backlog(cfg, a) == Backlog(cfg, b)
  {
    if a != [] {
      var n := |a| - 1;
      BacklogSame(cfg, a[..n], b[..n]);
    }
  }

  lemma {:induction false} BacklogOfFresh(cfg: Config, c: CampaignId, n: nat)
    ensures Backlog(cfg, C.FreshRows(c, n)) == 40 * A.Retries(cfg) * n
  {
    if n > 0 {
      BacklogOfFresh(cfg, c, n - 1);
      assert C.FreshRows(c, n)[..n - 1] == C.FreshRows(c, n - 1);
    }
  }

  /** Claiming k retries takes 12k off the backlog. */
  lemma {:induction false} BacklogSweep(cfg: Config, ms: seq<M.Message>, picked: seq<MessageId>)
    requires Distinct(picked)
    requires forall i :: 0 <= i < |picked| ==> picked[i] < |ms| && ms[picked[i]].nextRetryAt.Some?
    ensures Backlog(cfg, Sweep(ms, picked)) + 12 * |picked| == Backlog(cfg, ms)
  {
    if picked == [] {
      BacklogSame(cfg, Sweep(ms, picked), ms);
    } else {
      var n := |picked| - 1;
      var p, rest := picked[n], picked[..n];
      BacklogSweep(cfg, ms, rest);
      var some := Sweep(ms, rest);
      assert p !in rest;
      BacklogUpdate(cfg, some, p, M.ClearRetry(some[p]));
      assert picked == rest + [p];
      assert Sweep(ms, picked) == some[p := M.ClearRetry(some[p])];
    }
  }

  // -------------------------------------------------------------------- steps

  ghost predicate Lowers(cfg: Config, s: State, e: Event, t: State) {
    Load(cfg, t) + A.One(Progress(s, e)) <= Load(cfg, s) + Arriving(cfg, s, e)
  }

  lemma DrainCreate(cfg: Config, s: State, instance: InstanceId, at: Option<Time>, n: nat)
    ensures Lowers(cfg, s, Create(instance, at, n), DoCreate(s, instance, at, n))
  {
    BacklogConcat(cfg, s.messages, C.FreshRows(|s.campaigns|, n));
    BacklogOfFresh(cfg, |s.campaigns|, n);
  }

  lemma DrainClaimRetries(cfg: Config, s: State, limit: int, picked: seq<MessageId>)
    ensures Lowers(cfg, s, ClaimRetries(limit, picked), DoClaimRetries(s, limit, picked))
  {
    if CanClaimRetries(s, limit, picked) {
      forall i | 0 <= i < |picked| ensures picked[i] < |s.messages| && s.messages[picked[i]].nextRetryAt.Some? {
        PickedIsDue(s, picked, limit, picked[i]);
      }
      BacklogSweep(cfg, s.messages, picked);
    }
  }

  lemma DrainTrackMark(cfg: Config, s: State, t: nat, ok: bool)
    ensures Lowers(cfg, s, TrackMark(t, ok), DoTrackMark(s, t, ok))
  {
    BacklogSame(cfg, s.messages, DoTrackMark(s, t, ok).messages);
  }

  lemma DrainMark(cfg: Config, s: State, job: Job, item: M.Message, ok: bool, answer: Answer)
    requires Core(cfg, s) && s.worker == Admitted(job, item)
    ensures Lowers(cfg, s, Work(ok, answer), DoMark(s, job, item, ok))
  {
    BacklogUpdate(cfg, s.messages, job.message, M.MarkProcessing(s.messages[job.message]));
  }

  lemma DrainSettle(cfg: Config, s: State, job: Job, item: M.Message, a: Answer, ok: bool, answer: Answer)
    requires s.worker == Answered(job, item, a) && job.message < |s.messages| && |s.tally| == |s.messages|
    ensures Lowers(cfg, s, Work(ok, answer), DoSettle(cfg, s, job, item, a, ok))
  {
    var t := DoSettle(cfg, s, job, item, a, ok);
    assert t.messages == s.messages[job.message := t.messages[job.message]];
    SettleWeight(cfg, s, job, item, a, ok);
    BacklogUpdate(cfg, s.messages, job.message, t.messages[job.message]);
  }

  lemma SettleWeight(cfg: Config, s: State, job: Job, item: M.Message, a: Answer, ok: bool)
    requires s.worker == Answered(job, item, a) && job.message < |s.messages| && |s.tally| == |s.messages|
    ensures var t := DoSettle(cfg, s, job, item, a, ok);
            Weight(cfg, t.messages[job.message]) + HandLoad(cfg, t.worker) + 1
            <= Weight(cfg, s.messages[job.message]) + HandLoad(cfg, s.worker)
  {
  }

  lemma DrainWork(cfg: Config, s: State, ok: bool, answer: Answer)
    requires Core(cfg, s)
    ensures Lowers(cfg, s, Work(ok, answer), DoWork(cfg, s, ok, answer))
  {
    hide Core, Lowers, DoMark, DoSettle, DoSend, DoPop, DoLookup, DoGate, DoRecalculateThen, DoRearm;
    CoreInRange(cfg, s);
    match s.worker
    case Admitted(job, item) => DrainMark(cfg, s, job, item, ok, answer);
    case Answered(job, item, a) => DrainSettle(cfg, s, job, item, a, ok, answer);
    case Sending(job, item) => DrainSend(cfg, s, job, item, ok, answer);
    case _ => DrainMove(cfg, s, ok, answer);
  }

  lemma DrainSend(cfg: Config, s: State, job: Job, item: M.Message, ok: bool, answer: Answer)
    requires s.worker == Sending(job, item) && job.message < |s.tally| && item.campaign < |s.log|
    ensures Lowers(cfg, s, Work(ok, answer), DoSend(s, job, item, answer))
  {
  }

  lemma DrainPop(cfg: Config, s: State, ok: bool, answer: Answer)
    requires s.worker.Idle?
    ensures Lowers(cfg, s, Work(ok, answer), DoPop(s, ok))
  {
  }

  lemma DrainLookup(cfg: Config, s: State, job: Job, ok: bool, answer: Answer)
    requires s.worker == Popped(job)
    ensures Lowers(cfg, s, Work(ok, answer), DoLookup(s, job, ok))
  {
  }

  lemma DrainGate(cfg: Config, s: State, job: Job, item: M.Message, ok: bool, answer: Answer)
    requires s.worker == Read(job, item)
    ensures Lowers(cfg, s, Work(ok, answer), DoGate(s, job, item, ok))
  {
  }

  lemma DrainRequeue(cfg: Config, s: State, job: Job, ok: bool, answer: Answer)
    requires s.worker == Requeue(job)
    ensures Lowers(cfg, s, Work(ok, answer), DoRequeue(s, job, ok))
  {
  }

  lemma DrainRecalculate(cfg: Config, s: State, c: CampaignId, ok: bool, answer: Answer, w: Worker)
    requires (s.worker.Marked? && w.Waiting? && w.item == s.worker.item)
             || (s.worker.Settled? && (if s.worker.retry then w.Rearm? else w.Idle?))
    ensures Lowers(cfg, s, Work(ok, answer), DoRecalculateThen(s, c, ok, w))
  {
  }

  lemma DrainWait(cfg: Config, s: State, job: Job, item: M.Message, ok: bool, answer: Answer)
    requires s.worker == Waiting(job, item)
    ensures Lowers(cfg, s, Work(ok, answer), DoWait(s, job, item, ok))
  {
  }

  lemma DrainRearm(cfg: Config, s: State, job: Job, ok: bool, answer: Answer)
    requires s.worker.Rearm? && s.worker.job == job && job.message < |s.tally|
    ensures Lowers(cfg, s, Work(ok, answer), DoRearm(s, job))
  {
  }

  lemma DrainMove(cfg: Config, s: State, ok: bool, answer: Answer)
    requires !s.worker.Admitted? && !s.worker.Answered? && !s.worker.Sending?
    requires !s.worker.Idle? ==> s.worker.job.message < |s.tally|
    ensures Lowers(cfg, s, Work(ok, answer), DoWork(cfg, s, ok, answer))
  {
    hide Lowers;
    match s.worker
    case Idle => DrainPop(cfg, s, ok, answer);
    case Popped(job) => DrainLookup(cfg, s, job, ok, answer);
    case Read(job, item) => DrainGate(cfg, s, job, item, ok, answer);
    case Requeue(job) => DrainRequeue(cfg, s, job, ok, answer);
    case Marked(job, item) => DrainRecalculate(cfg, s, item.campaign, ok, answer, Waiting(job, item));
    case Waiting(job, item) => DrainWait(cfg, s, job, item, ok, answer);
    case Settled(job, item, retry) =>
      DrainRecalculate(cfg, s, item.campaign, ok, answer, if retry then Rearm(job, item) else Idle);
    case Rearm(job, item) => DrainRearm(cfg, s, job, ok, answer);
  }

  lemma DrainPush(cfg: Config, s: State, e: Event)
    requires e.PublishCreated? || e.PublishClaimed? || e.RequeueSwept? || e.FireTimer?
    requires Core(cfg, s)
    ensures Lowers(cfg, s, e, Step(cfg, s, e))
  {
    hide Core;
  }

  lemma DrainQuiet(cfg: Config, s: State, e: Event)
    requires !e.Create? && !e.PublishCreated? && !e.PublishClaimed? && !e.RequeueSwept? && !e.FireTimer?
    requires !e.ClaimRetries? && !e.TrackMark? && !e.Work?
    ensures Lowers(cfg, s, e, Step(cfg, s, e))
  {
    hide CanClaimDue, ReleaseAll, C.Recalculate;
  }

  lemma DrainStep(cfg: Config, s: State, e: Event)
    requires Core(cfg, s)
    ensures Lowers(cfg, s, e, Step(cfg, s, e))
  {
    hide Core, Lowers, DoCreate, DoClaimRetries, DoTrackMark, DoWork;
    match e
    case Create(instance, at, n) => DrainCreate(cfg, s, instance, at, n);
    case ClaimRetries(limit, picked) => DrainClaimRetries(cfg, s, limit, picked);
    case TrackMark(t, ok) => DrainTrackMark(cfg, s, t, ok);
    case Work(ok, answer) => DrainWork(cfg, s, ok, answer);
    case PublishCreated(c, ok) => DrainPush(cfg, s, e);
    case PublishClaimed(ok) => DrainPush(cfg, s, e);
    case RequeueSwept(ok) => DrainPush(cfg, s, e);
    case FireTimer(i, ok) => DrainPush(cfg, s, e);
    case _ => DrainQuiet(cfg, s, e);
  }

  // --------------------------------------------------------------------- runs

  ghost function Arrived(cfg: Config, s: State, es: seq<Event>): nat {
    if es == [] then 0
    else Arrived(cfg, s, es[..|es| - 1]) + Arriving(cfg, Run(cfg, s, es[..|es| - 1]), es[|es| - 1])
  }

  /** Drain theorem: over every run, whatever the provider answers and whatever fails, the units of
      dispatch work done are bounded by the load at the start plus the work that arrived. */
  lemma {:induction false} DrainBound(cfg: Config, s: State, es: seq<Event>)
    requires Core(cfg, s)
    ensures Load(cfg, Run(cfg, s, es)) + Occurrences(cfg, s, es, (x, e) => Progress(x, e))
            <= Load(cfg, s) + Arrived(cfg, s, es)
  {
    if es != [] {
      var before := es[..|es| - 1];
      DrainBound(cfg, s, before);
      CoreAlways(cfg, s, before);
      DrainStep(cfg, Run(cfg, s, before), es[|es| - 1]);
    }
  }

  /** Nothing in the queue, in memory, or due for the sweeper. */
  ghost predicate Drained(s: State) {
    && s.queue == [] && s.timers == [] && Quiet(s)
    && forall m :: 0 <= m < |s.messages| ==> s.messages[m].nextRetryAt.None?
  }

  /** A worker, timer, or sweeper that holds something can always take its next step. */
  lemma NeverStuck(cfg: Config, s: State)
    requires s.queue != [] || s.timers != [] || s.swept != [] || !s.worker.Idle?
    ensures exists e :: Progress(s, e)
  {
    if s.timers != [] {
      assert Progress(s, FireTimer(0, true));
    } else if s.swept != [] {
      assert Progress(s, RequeueSwept(true));
    } else {
      assert Progress(s, Work(true, Rejected("")));
    }
  }

  /** When everything has drained after a run that lost no work, every message of every campaign that is
      not waiting for its schedule has been dispatched or has failed. */
  lemma DrainedIsDone(cfg: Config, s: State, m: MessageId)
    requires CarefullyReached(cfg, s) && Drained(s) && m < |s.messages|
    ensures var row := s.messages[m];
            && row.campaign < |s.campaigns|
            && (!Dormant(s.campaigns[row.campaign]) ==> M.Dispatched(row.status) || row.status.Failed?)
  {
    NoOrphans(cfg, s, m);
  }

  /** ... and recalculating such a campaign, unless cancelled or paused, yields a final status. */
  lemma DrainedIsFinal(cfg: Config, s: State, c: CampaignId)
    requires CarefullyReached(cfg, s) && Drained(s) && c < |s.campaigns|
    requires !Dormant(s.campaigns[c]) && s.campaigns[c].cancelledAt.None? && !s.campaigns[c].paused
    ensures C.Recalculate(s.campaigns[c], s.messages, c).status in {C.Sent, C.Delivered, C.Read, C.Failed, C.Partial}
  {
    hide Drained;
    CounterCoherence(cfg, s, c);
    C.CountsPartitionRows(s.messages, c);
    C.CountPositive(s.messages, c, M.Pending);
    C.CountPositive(s.messages, c, M.Processing);
    forall m | 0 <= m < |s.messages| && s.messages[m].campaign == c
      ensures !s.messages[m].status.Pending? && !s.messages[m].status.Processing?
    {
      DrainedIsDone(cfg, s, m);
    }
  }
}
