/** In runs without lost work, no pending message is ever forgotten. */
module NoLostWork {
  import opened Basics
  import M = Messages
  import C = Campaigns
  import opened Protocol
  import opened Invariants
  import opened CoreSteps

  ghost predicate Carries(jobs: seq<Job>, m: MessageId) {
    exists i :: 0 <= i < |jobs| && jobs[i].message == m
  }

  /** Scheduled and not released: the scheduler will publish the campaign as a whole. */
  predicate Dormant(c: C.Campaign) {
    c.mode.Later? && c.releasedAt.None?
  }

  /** Something durable, or something a running goroutine holds, will bring `m` back to the worker. */
  ghost predicate Held(row: M.Message, m: MessageId, queue: seq<Job>, swept: seq<Job>, creating: set<CampaignId>,
                       sch: Scheduler, w: Worker) {
    || Carries(queue, m)
    || row.nextRetryAt.Some?
    || Carries(swept, m)
    || row.campaign in creating
    || Claims(sch, row.campaign)
    || (BeforeMark(w) && w.job.message == m)
  }

  ghost predicate Cared(cs: seq<C.Campaign>, row: M.Message, m: MessageId, queue: seq<Job>, swept: seq<Job>,
                        creating: set<CampaignId>, sch: Scheduler, w: Worker) {
    && (row.status.Pending? && row.campaign < |cs| && !Dormant(cs[row.campaign]) ==>
         Held(row, m, queue, swept, creating, sch, w))
    && (row.status.Processing? ==> InFlight(w) && w.job.message == m)
  }

  /** Timers do not occur here: they are never needed to keep a message alive. */
  ghost predicate NoneLost(cs: seq<C.Campaign>, ms: seq<M.Message>, queue: seq<Job>, swept: seq<Job>,
                           creating: set<CampaignId>, sch: Scheduler, w: Worker) {
    forall m :: 0 <= m < |ms| ==> Cared(cs, ms[m], m, queue, swept, creating, sch, w)
  }

  ghost predicate Safe(s: State) {
    NoneLost(s.campaigns, s.messages, s.queue, s.swept, s.creating, s.scheduler, s.worker)
  }

  /** No goroutine holds work that exists nowhere else. */
  predicate Quiet(s: State) {
    s.worker.Idle? && s.swept == [] && s.creating == {} && s.scheduler.Resting?
  }

  /** The failures after which a message can be forgotten. Failed recalculations, timers and
      webhooks, a failed publish that is reverted and had nothing queued behind it in its batch,
      and a crash of a quiet process are not among them. */
  predicate LosesWork(s: State, e: Event) {
    match e
    case PublishCreated(_, ok) => !ok
    case PublishClaimed(ok) => !ok && s.scheduler.Publishing? && |s.scheduler.claims| > 1
    case RevertRelease(ok) => !ok
    case RequeueSwept(ok) => !ok
    case Work(ok, _) => !ok && !s.worker.Idle? && !s.worker.Marked? && !s.worker.Settled?
    case Crash => !Quiet(s)
    case _ => false
  }

  ghost predicate Given(cfg: Config, s: State) {
    Core(cfg, s) && Safe(s)
  }

  lemma SafeCreate(cfg: Config, s: State, instance: InstanceId, at: Option<Time>, n: nat)
    requires Given(cfg, s)
    ensures Safe(DoCreate(s, instance, at, n))
  {
    var t := DoCreate(s, instance, at, n);
    forall m | 0 <= m < |s.messages|
      ensures n > 0 ==> Cared(t.campaigns, t.messages[m], m, t.queue, t.swept, t.creating, t.scheduler, t.worker)
    {
      assert Dir(s).owner[m] == s.messages[m].campaign;
    }
  }

  /** Appending to the queue forgets nothing. */
  lemma CarriesAppend(a: seq<Job>, b: seq<Job>, m: MessageId)
    ensures Carries(a, m) || Carries(b, m) ==> Carries(a + b, m)
  {
    if Carries(a, m) {
      var i :| 0 <= i < |a| && a[i].message == m;
      assert (a + b)[i].message == m;
    } else if Carries(b, m) {
      var i :| 0 <= i < |b| && b[i].message == m;
      assert (a + b)[|a| + i].message == m;
    }
  }

  lemma CoveredIsCarried(d: Directory, c: CampaignId, jobs: seq<Job>, m: MessageId)
    requires Covers(d, c, jobs) && m < |d.owner| && d.owner[m] == c
    ensures Carries(jobs, m)
  {
    var i :| 0 <= i < |jobs| && MessagesOf(jobs)[i] == m;
    assert jobs[i].message == m;
  }

  lemma SafePublishCreated(cfg: Config, s: State, c: CampaignId)
    requires Given(cfg, s)
    ensures Safe(DoPublishCreated(s, c, true))
  {
    var t := DoPublishCreated(s, c, true);
    if c in s.creating {
      CreatedJobsRefer(s, c);
      forall m | 0 <= m < |s.messages|
        ensures Cared(t.campaigns, t.messages[m], m, t.queue, t.swept, t.creating, t.scheduler, t.worker)
      {
        CarriesAppend(s.queue, CreatedJobs(s, c), m);
        if s.messages[m].campaign == c {
          CoveredIsCarried(Dir(s), c, CreatedJobs(s, c), m);
        }
      }
    }
  }

  /** A row update that does not wake a dormant campaign. */
  lemma SafeCampaignRow(cfg: Config, s: State, c: CampaignId, row: C.Campaign)
    requires Given(cfg, s) && c < |s.campaigns| && (Dormant(s.campaigns[c]) ==> Dormant(row))
    ensures Safe(SetCampaign(s, c, row))
  {
  }

  lemma SafeClaimDue(cfg: Config, s: State, batchSize: int, claims: seq<Claimed>)
    requires Given(cfg, s)
    ensures Safe(DoClaimDue(s, batchSize, claims))
  {
    var t := DoClaimDue(s, batchSize, claims);
    if CanClaimDue(s, batchSize, claims) {
      forall c | c in Campaigns(claims) ensures Claims(t.scheduler, c) {
        var k :| 0 <= k < |claims| && Campaigns(claims)[k] == c;
        assert claims[k].campaign == c;
      }
    }
  }

  lemma SafePublishClaimed(cfg: Config, s: State, ok: bool)
    requires Given(cfg, s) && !LosesWork(s, PublishClaimed(ok))
    ensures Safe(DoPublishClaimed(s, ok))
  {
    var t := DoPublishClaimed(s, ok);
    if s.scheduler.Publishing? {
      var claims := s.scheduler.claims;
      forall m | 0 <= m < |s.messages|
        ensures Cared(t.campaigns, t.messages[m], m, t.queue, t.swept, t.creating, t.scheduler, t.worker)
      {
        CarriesAppend(s.queue, claims[0].jobs, m);
        if s.messages[m].campaign == claims[0].campaign {
          CoveredIsCarried(Dir(s), claims[0].campaign, claims[0].jobs, m);
        } else if Claims(s.scheduler, s.messages[m].campaign) {
          var k :| 0 <= k < |claims| && claims[k].campaign == s.messages[m].campaign;
          assert claims[1..][k - 1] == claims[k];
        }
      }
    }
  }

  lemma SafeRevert(cfg: Config, s: State)
    requires Given(cfg, s)
    ensures Safe(DoRevert(s, true))
  {
    if s.scheduler.Reverting? {
      assert Claims(s.scheduler, s.scheduler.campaign);
    }
  }

  lemma SweptCarries(s: State, picked: seq<MessageId>, m: MessageId)
    requires forall i :: 0 <= i < |picked| ==> picked[i] < |s.messages|
    requires forall i :: 0 <= i < |picked| ==> s.messages[picked[i]].campaign < |s.campaigns|
    requires m in picked
    ensures Carries(SweptJobs(s, picked), m)
  {
    var i :| 0 <= i < |picked| && picked[i] == m;
    assert SweptJobs(s, picked)[i].message == m;
  }

  lemma SafeClaimRetries(cfg: Config, s: State, limit: int, picked: seq<MessageId>)
    requires Given(cfg, s)
    ensures Safe(DoClaimRetries(s, limit, picked))
  {
    hide Core;
    if CanClaimRetries(s, limit, picked) {
      forall i | 0 <= i < |picked|
        ensures picked[i] < |s.messages| && s.messages[picked[i]].campaign < |s.campaigns|
      {
        PickedIsDue(s, picked, limit, picked[i]);
      }
      forall m | m in picked ensures Carries(SweptJobs(s, picked), m) {
        SweptCarries(s, picked, m);
      }
    }
  }

  lemma SafeRequeueSwept(cfg: Config, s: State)
    requires Given(cfg, s)
    ensures Safe(DoRequeueSwept(s, true))
  {
    if s.swept != [] {
      var t := DoRequeueSwept(s, true);
      forall m | Carries(s.queue, m) || Carries(s.swept, m) ensures Carries(t.queue, m) || Carries(t.swept, m) {
        CarriesAppend(s.queue, [s.swept[0]], m);
        if Carries(s.swept, m) && !Carries(s.queue, m) {
          var i :| 0 <= i < |s.swept| && s.swept[i].message == m;
          if i == 0 {
            assert [s.swept[0]][0].message == m;
          } else {
            assert t.swept[i - 1].message == m;
          }
        }
      }
    }
  }

  lemma SafeFireTimer(cfg: Config, s: State, i: nat, ok: bool)
    requires Given(cfg, s)
    ensures Safe(DoFireTimer(s, i, ok))
  {
    if i < |s.timers| {
      forall m | Carries(s.queue, m) ensures Carries(s.queue + [s.timers[i]], m) {
        CarriesAppend(s.queue, [s.timers[i]], m);
      }
    }
  }

  lemma SafePop(cfg: Config, s: State, ok: bool)
    requires Given(cfg, s) && s.worker.Idle?
    ensures Safe(DoPop(s, ok))
  {
    if ok && s.queue != [] {
      var t := DoPop(s, ok);
      forall m | Carries(s.queue, m) ensures Carries(t.queue, m) || s.queue[0].message == m {
        var i :| 0 <= i < |s.queue| && s.queue[i].message == m;
        if i > 0 {
          assert t.queue[i - 1].message == m;
        }
      }
    }
  }

  lemma SafeLookup(cfg: Config, s: State, job: Job)
    requires Given(cfg, s) && s.worker == Popped(job)
    ensures Safe(DoLookup(s, job, true))
  {
  }

  /** A job found scheduled is dropped, but then its campaign is dormant. */
  lemma SafeGate(cfg: Config, s: State, job: Job, item: M.Message)
    requires Given(cfg, s) && s.worker == Read(job, item)
    ensures Safe(DoGate(s, job, item, true))
  {
    assert CampaignOk(s.campaigns[item.campaign]);
  }

  lemma SafeRequeue(cfg: Config, s: State, job: Job)
    requires Given(cfg, s) && s.worker == Requeue(job)
    ensures Safe(DoRequeue(s, job, true))
  {
    forall m | Carries(s.queue, m) || job.message == m ensures Carries(s.queue + [job], m) {
      assert [job][0].message == job.message;
      CarriesAppend(s.queue, [job], m);
    }
  }

  lemma SafeMark(cfg: Config, s: State, job: Job, item: M.Message)
    requires Given(cfg, s) && s.worker == Admitted(job, item)
    ensures Safe(DoMark(s, job, item, true))
  {
  }

  lemma SafeRecalculateThen(cfg: Config, s: State, ok: bool, w: Worker)
    requires Given(cfg, s) && (s.worker.Marked? || s.worker.Settled?)
    requires s.worker.Marked? ==> InFlight(w) && w.job == s.worker.job
    requires s.worker.Settled? ==> !BeforeMark(w)
    ensures Safe(DoRecalculateThen(s, s.worker.item.campaign, ok, w))
  {
  }

  lemma SafeSettle(cfg: Config, s: State, job: Job, item: M.Message, a: Answer)
    requires Given(cfg, s) && s.worker == Answered(job, item, a)
    ensures Safe(DoSettle(cfg, s, job, item, a, true))
  {
  }

  lemma SafeTrackMark(cfg: Config, s: State, t: nat, ok: bool)
    requires Given(cfg, s)
    ensures Safe(DoTrackMark(s, t, ok))
  {
  }

  lemma SafeRecalculate(cfg: Config, s: State, c: CampaignId, ok: bool)
    requires Given(cfg, s)
    ensures Safe(DoRecalculate(s, c, ok))
  {
    if ok && c < |s.campaigns| {
      SafeCampaignRow(cfg, s, c, C.Recalculate(s.campaigns[c], s.messages, c));
    }
  }

  /** A restart while nothing is held loses nothing, even though every timer is gone. */
  lemma SafeRestart(cfg: Config, s: State)
    requires Given(cfg, s) && Quiet(s)
    ensures Safe(DoCrash(s))
  {
  }

  // --------------------------------------------------------------------- runs

  lemma SafeRequestStep(cfg: Config, s: State, e: Event)
    requires Given(cfg, s) && !LosesWork(s, e)
    requires e.Tick? || e.Create? || e.PublishCreated? || e.SetPaused? || e.Reschedule? || e.CancelScheduled?
             || e.Recalculate?
    ensures Safe(Step(cfg, s, e))
  {
    match e
    case Tick(to) =>
    case Create(instance, at, n) => SafeCreate(cfg, s, instance, at, n);
    case PublishCreated(c, ok) => SafePublishCreated(cfg, s, c);
    case SetPaused(c, p) => if c < |s.campaigns| { SafeCampaignRow(cfg, s, c, C.SetPaused(s.campaigns[c], p)); }
    case Reschedule(c, at) => if c < |s.campaigns| { SafeCampaignRow(cfg, s, c, C.Reschedule(s.campaigns[c], at)); }
    case CancelScheduled(c) => if c < |s.campaigns| { SafeCampaignRow(cfg, s, c, C.Cancel(s.campaigns[c], s.clock)); }
    case Recalculate(c) => SafeRecalculate(cfg, s, c, true);
  }

  lemma SafeReleaseStep(cfg: Config, s: State, e: Event)
    requires Given(cfg, s) && !LosesWork(s, e)
    requires e.ClaimDue? || e.PublishClaimed? || e.RevertRelease? || e.ClaimRetries? || e.RequeueSwept? || e.FireTimer?
    ensures Safe(Step(cfg, s, e))
  {
    match e
    case ClaimDue(batchSize, claims) => SafeClaimDue(cfg, s, batchSize, claims);
    case PublishClaimed(ok) => SafePublishClaimed(cfg, s, ok);
    case RevertRelease(ok) => SafeRevert(cfg, s);
    case ClaimRetries(limit, picked) => SafeClaimRetries(cfg, s, limit, picked);
    case RequeueSwept(ok) => SafeRequeueSwept(cfg, s);
    case FireTimer(i, ok) => SafeFireTimer(cfg, s, i, ok);
  }

  lemma SafeTrackStep(cfg: Config, s: State, e: Event)
    requires Given(cfg, s) && !LosesWork(s, e)
    requires e.TrackStart? || e.TrackMark? || e.TrackRecalculate? || e.Crash?
    ensures Safe(Step(cfg, s, e))
  {
    match e
    case TrackStart(receipt, ids) =>
    case TrackMark(t, ok) => SafeTrackMark(cfg, s, t, ok);
    case TrackRecalculate(t, c, ok) => SafeRecalculate(cfg, s, c, ok);
    case Crash => SafeRestart(cfg, s);
  }

  lemma SafeWorkBeforeMark(cfg: Config, s: State, ok: bool, answer: Answer)
    requires Given(cfg, s) && !LosesWork(s, Work(ok, answer)) && (s.worker.Idle? || BeforeMark(s.worker))
    ensures Safe(DoWork(cfg, s, ok, answer))
  {
    match s.worker
    case Idle => SafePop(cfg, s, ok);
    case Popped(job) => SafeLookup(cfg, s, job);
    case Read(job, item) => SafeGate(cfg, s, job, item);
    case Requeue(job) => SafeRequeue(cfg, s, job);
    case Admitted(job, item) => SafeMark(cfg, s, job, item);
  }

  lemma SafeWorkAfterMark(cfg: Config, s: State, ok: bool, answer: Answer)
    requires Given(cfg, s) && !LosesWork(s, Work(ok, answer)) && AfterMark(s.worker)
    ensures Safe(DoWork(cfg, s, ok, answer))
  {
    hide Core, DoRecalculateThen, DoSettle;
    match s.worker
    case Marked(job, item) => SafeRecalculateThen(cfg, s, ok, Waiting(job, item));
    case Waiting(job, item) =>
    case Sending(job, item) =>
    case Answered(job, item, a) => SafeSettle(cfg, s, job, item, a);
    case Settled(job, item, retry) => SafeRecalculateThen(cfg, s, ok, if retry then Rearm(job, item) else Idle);
    case Rearm(job, item) =>
  }

  lemma SafeStep(cfg: Config, s: State, e: Event)
    requires Given(cfg, s) && !LosesWork(s, e)
    ensures Safe(Step(cfg, s, e))
  {
    if e.Work? {
      if s.worker.Idle? || BeforeMark(s.worker) {
        SafeWorkBeforeMark(cfg, s, e.ok, e.answer);
      } else {
        SafeWorkAfterMark(cfg, s, e.ok, e.answer);
      }
    } else if e.TrackStart? || e.TrackMark? || e.TrackRecalculate? || e.Crash? {
      SafeTrackStep(cfg, s, e);
    } else if e.ClaimDue? || e.PublishClaimed? || e.RevertRelease? || e.ClaimRetries? || e.RequeueSwept?
      || e.FireTimer? {
      SafeReleaseStep(cfg, s, e);
    } else {
      SafeRequestStep(cfg, s, e);
    }
  }

  /** No event of the run loses work in the state it meets. */
  ghost predicate Careful(cfg: Config, s: State, es: seq<Event>) {
    es == [] || (Careful(cfg, s, es[..|es| - 1]) && !LosesWork(Run(cfg, s, es[..|es| - 1]), es[|es| - 1]))
  }

  lemma {:induction false} SafeAlways(cfg: Config, s: State, es: seq<Event>)
    requires Core(cfg, s) && Safe(s) && Careful(cfg, s, es)
    ensures Safe(Run(cfg, s, es))
  {
    if es != [] {
      var before := es[..|es| - 1];
      SafeAlways(cfg, s, before);
      CoreAlways(cfg, s, before);
      SafeStep(cfg, Run(cfg, s, before), es[|es| - 1]);
    }
  }

  /** Some run without lost work leads to `s`. */
  ghost predicate CarefullyReached(cfg: Config, s: State) {
    exists clock, es :: Careful(cfg, Init(clock), es) && s == Run(cfg, Init(clock), es)
  }

  /** No orphaned work: a pending message of a campaign that is not waiting for its schedule is in
      the queue, due for the sweeper, or held by the worker, the sweeper or a publisher; a message
      in processing is the worker's. */
  lemma NoOrphans(cfg: Config, s: State, m: MessageId)
    requires CarefullyReached(cfg, s) && m < |s.messages|
    ensures var row := s.messages[m];
            && row.campaign < |s.campaigns|
            && (row.status.Pending? && !Dormant(s.campaigns[row.campaign]) ==>
                  || Carries(s.queue, m) || row.nextRetryAt.Some? || Carries(s.swept, m)
                  || row.campaign in s.creating || Claims(s.scheduler, row.campaign)
                  || (BeforeMark(s.worker) && s.worker.job.message == m))
            && (row.status.Processing? ==> InFlight(s.worker) && s.worker.job.message == m)
  {
    hide Step;
    var clock, es :| Careful(cfg, Init(clock), es) && s == Run(cfg, Init(clock), es);
    CoreInit(cfg, clock);
    CoreAlways(cfg, Init(clock), es);
    SafeAlways(cfg, Init(clock), es);
    assert Dir(s).owner[m] == s.messages[m].campaign;
  }
}
