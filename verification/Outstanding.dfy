/** The jobs that may still bring a message to the provider, and why no others appear. */
module Outstanding {
  import opened Basics
  import opened Protocol
  import opened Invariants
  import opened CoreSteps
  import opened NoLostWork
  import D = Delivery

  /** The worker holds `m` and has not given up on it. */
  predicate InHand(cfg: Config, w: Worker, m: MessageId) {
    && !w.Idle? && w.job.message == m
    && match w
       case Answered(_, item, a) => a.Rejected? && ShouldRetry(cfg, a.error, item.attempts + 1)
       case Settled(_, _, retry) => retry
       case _ => true
  }

  /** A job of `m`, or a `Create` call that still has to publish its campaign `c`. */
  ghost predicate Brought(cfg: Config, queue: seq<Job>, timers: seq<Job>, swept: seq<Job>, creating: set<CampaignId>,
                          w: Worker, c: CampaignId, m: MessageId) {
    Carries(queue, m) || Carries(timers, m) || Carries(swept, m) || c in creating || InHand(cfg, w, m)
  }

  ghost predicate BroughtIn(cfg: Config, s: State, m: MessageId)
    requires m < |s.messages|
  {
    Brought(cfg, s.queue, s.timers, s.swept, s.creating, s.worker, s.messages[m].campaign, m)
  }

  /** Neither the scheduler nor the sweeper will make a new job for `m`. */
  ghost predicate Closed(s: State, m: MessageId)
    requires m < |s.messages|
  {
    var c := s.messages[m].campaign;
    && c < |s.campaigns| && !Claims(s.scheduler, c)
    && (s.campaigns[c].cancelledAt.Some? || !s.messages[m].status.Pending? || s.messages[m].nextRetryAt.None?)
  }

  lemma CarriesSplit(a: seq<Job>, b: seq<Job>, m: MessageId)
    ensures Carries(a + b, m) ==> Carries(a, m) || Carries(b, m)
  {
    if Carries(a + b, m) {
      var i :| 0 <= i < |a + b| && (a + b)[i].message == m;
      if i < |a| {
        assert a[i].message == m;
      } else {
        assert b[i - |a|].message == m;
      }
    }
  }

  lemma CoversOnly(d: Directory, c: CampaignId, jobs: seq<Job>, m: MessageId)
    requires Covers(d, c, jobs) && m < |d.owner| && d.owner[m] != c
    ensures !Carries(jobs, m)
  {
    forall i | 0 <= i < |jobs| ensures jobs[i].message != m {
      assert RefersTo(d, jobs[i]);
    }
  }

  lemma NewJobsPublishCreated(cfg: Config, s: State, c: CampaignId, ok: bool, m: MessageId)
    requires Core(cfg, s) && m < |s.messages| && BroughtIn(cfg, DoPublishCreated(s, c, ok), m)
    ensures BroughtIn(cfg, s, m)
  {
    if c in s.creating && ok && s.messages[m].campaign != c {
      CreatedJobsRefer(s, c);
      assert Dir(s).owner[m] == s.messages[m].campaign;
      CoversOnly(Dir(s), c, CreatedJobs(s, c), m);
      CarriesSplit(s.queue, CreatedJobs(s, c), m);
    }
  }

  lemma NewJobsPublishClaimed(cfg: Config, s: State, ok: bool, m: MessageId)
    requires Core(cfg, s) && m < |s.messages| && Closed(s, m) && BroughtIn(cfg, DoPublishClaimed(s, ok), m)
    ensures BroughtIn(cfg, s, m)
  {
    if s.scheduler.Publishing? && ok {
      var h := s.scheduler.claims[0];
      assert Claims(s.scheduler, h.campaign);
      assert Dir(s).owner[m] == s.messages[m].campaign;
      CoversOnly(Dir(s), h.campaign, h.jobs, m);
      CarriesSplit(s.queue, h.jobs, m);
    }
  }

  lemma NewJobsRequeueSwept(cfg: Config, s: State, ok: bool, m: MessageId)
    requires m < |s.messages| && BroughtIn(cfg, DoRequeueSwept(s, ok), m)
    ensures BroughtIn(cfg, s, m)
  {
    if s.swept != [] {
      assert s.swept == [s.swept[0]] + s.swept[1..];
      CarriesAppend([s.swept[0]], s.swept[1..], m);
      CarriesSplit(s.queue, [s.swept[0]], m);
    }
  }

  lemma NewJobsFireTimer(cfg: Config, s: State, i: nat, ok: bool, m: MessageId)
    requires m < |s.messages| && BroughtIn(cfg, DoFireTimer(s, i, ok), m)
    ensures BroughtIn(cfg, s, m)
  {
    if i < |s.timers| {
      var a, j, b := s.timers[..i], s.timers[i], s.timers[i + 1..];
      assert s.timers == a + [j] + b;
      CarriesSplit(a, b, m);
      CarriesSplit(s.queue, [j], m);
      CarriesAppend(a, [j], m);
      CarriesAppend(a + [j], b, m);
    }
  }

  lemma NewJobsClaimRetries(cfg: Config, s: State, limit: int, picked: seq<MessageId>, m: MessageId)
    requires m < |s.messages| && Closed(s, m) && BroughtIn(cfg, DoClaimRetries(s, limit, picked), m)
    ensures BroughtIn(cfg, s, m)
  {
    if CanClaimRetries(s, limit, picked) {
      forall i | 0 <= i < |picked| ensures picked[i] != m && picked[i] < |s.messages| {
        PickedIsDue(s, picked, limit, picked[i]);
      }
    }
  }

  lemma NewJobsPop(cfg: Config, s: State, ok: bool, m: MessageId)
    requires m < |s.messages| && s.worker.Idle? && BroughtIn(cfg, DoPop(s, ok), m)
    ensures BroughtIn(cfg, s, m)
  {
    if ok && s.queue != [] {
      assert s.queue == [s.queue[0]] + s.queue[1..];
      assert Carries([s.queue[0]], m) <==> s.queue[0].message == m by {
        assert [s.queue[0]][0] == s.queue[0];
      }
      CarriesAppend([s.queue[0]], s.queue[1..], m);
    }
  }

  lemma NewJobsRequeue(cfg: Config, s: State, job: Job, ok: bool, m: MessageId)
    requires m < |s.messages| && s.worker == Requeue(job) && BroughtIn(cfg, DoRequeue(s, job, ok), m)
    ensures BroughtIn(cfg, s, m)
  {
    CarriesSplit(s.queue, [job], m);
  }

  lemma NewJobsRearm(cfg: Config, s: State, job: Job, m: MessageId)
    requires m < |s.messages| && s.worker.Rearm? && s.worker.job == job && BroughtIn(cfg, DoRearm(s, job), m)
    ensures BroughtIn(cfg, s, m)
  {
    CarriesSplit(s.timers, [job.(attempt := job.attempt + 1)], m);
  }

  /** The steps in between keep the job in hand, or drop it. */
  lemma NewJobsInHand(cfg: Config, s: State, ok: bool, answer: Answer, m: MessageId)
    requires m < |s.messages| && !s.worker.Idle? && !s.worker.Requeue? && !s.worker.Rearm?
    requires m < |DoWork(cfg, s, ok, answer).messages|
    requires DoWork(cfg, s, ok, answer).messages[m].campaign == s.messages[m].campaign
    requires BroughtIn(cfg, DoWork(cfg, s, ok, answer), m)
    ensures BroughtIn(cfg, s, m)
  {
  }

  lemma NewJobsWork(cfg: Config, s: State, ok: bool, answer: Answer, m: MessageId)
    requires Core(cfg, s) && m < |s.messages|
    requires m < |DoWork(cfg, s, ok, answer).messages| && BroughtIn(cfg, DoWork(cfg, s, ok, answer), m)
    ensures BroughtIn(cfg, s, m)
  {
    D.AdvanceWork(cfg, s, ok, answer);
    assert D.Advances(s.messages[m], DoWork(cfg, s, ok, answer).messages[m]);
    hide Core, BroughtIn;
    match s.worker
    case Idle => NewJobsPop(cfg, s, ok, m);
    case Requeue(job) => NewJobsRequeue(cfg, s, job, ok, m);
    case Rearm(job, item) => NewJobsRearm(cfg, s, job, m);
    case _ => NewJobsInHand(cfg, s, ok, answer, m);
  }

  /** Once closed, a message gets no new job from any event. */
  lemma NewJobs(cfg: Config, s: State, e: Event, m: MessageId)
    requires Core(cfg, s) && m < |s.messages| && Closed(s, m)
    requires m < |Step(cfg, s, e).messages| && BroughtIn(cfg, Step(cfg, s, e), m)
    ensures BroughtIn(cfg, s, m)
  {
    hide Core, DoCreate, DoPublishCreated, DoPublishClaimed, DoRequeueSwept, DoFireTimer, DoClaimRetries, DoWork,
          DoTrackMark;
    match e
    case Create(instance, at, n) => NewJobsCreate(cfg, s, instance, at, n, m);
    case PublishCreated(c, ok) => NewJobsPublishCreated(cfg, s, c, ok, m);
    case PublishClaimed(ok) => NewJobsPublishClaimed(cfg, s, ok, m);
    case RequeueSwept(ok) => NewJobsRequeueSwept(cfg, s, ok, m);
    case FireTimer(i, ok) => NewJobsFireTimer(cfg, s, i, ok, m);
    case ClaimRetries(limit, picked) => NewJobsClaimRetries(cfg, s, limit, picked, m);
    case Work(ok, answer) => NewJobsWork(cfg, s, ok, answer, m);
    case TrackMark(t, ok) => NewJobsTrackMark(cfg, s, t, ok, m);
    case Crash =>
    case _ =>
  }

  lemma NewJobsCreate(cfg: Config, s: State, instance: InstanceId, at: Option<Time>, n: nat, m: MessageId)
    requires Core(cfg, s) && m < |s.messages| && BroughtIn(cfg, DoCreate(s, instance, at, n), m)
    ensures BroughtIn(cfg, s, m)
  {
    assert Dir(s).owner[m] == s.messages[m].campaign;
  }

  lemma NewJobsTrackMark(cfg: Config, s: State, t: nat, ok: bool, m: MessageId)
    requires m < |s.messages| && BroughtIn(cfg, DoTrackMark(s, t, ok), m)
    ensures BroughtIn(cfg, s, m)
  {
  }

  // ------------------------------------------------- campaigns that stay released

  /** Released, and the scheduler is done with it. */
  ghost predicate ReleasedForGood(s: State, c: CampaignId) {
    c < |s.campaigns| && s.campaigns[c].releasedAt.Some? && !Claims(s.scheduler, c)
  }

  lemma ReleasedClaim(s: State, batchSize: int, claims: seq<Claimed>, c: CampaignId)
    requires ReleasedForGood(s, c)
    ensures ReleasedForGood(DoClaimDue(s, batchSize, claims), c)
  {
    if CanClaimDue(s, batchSize, claims) {
      forall k | 0 <= k < |claims| ensures claims[k].campaign != c {
        assert Campaigns(claims)[k] in DueCampaigns(s.campaigns, s.clock);
      }
    }
  }

  lemma ReleasedPublish(s: State, ok: bool, c: CampaignId)
    requires ReleasedForGood(s, c)
    ensures ReleasedForGood(DoPublishClaimed(s, ok), c)
  {
    if s.scheduler.Publishing? && s.scheduler.claims != [] {
      var claims := s.scheduler.claims;
      forall k | 0 <= k < |claims[1..]| ensures claims[1..][k].campaign != c {
        assert claims[1..][k] == claims[k + 1];
      }
    }
  }

  lemma ReleasedWork(cfg: Config, s: State, ok: bool, answer: Answer, c: CampaignId)
    requires ReleasedForGood(s, c)
    ensures ReleasedForGood(DoWork(cfg, s, ok, answer), c)
  {
    match s.worker
    case Marked(job, item) => ReleasedRecalculate(s, item.campaign, ok, Waiting(job, item), c);
    case Settled(job, item, retry) =>
      ReleasedRecalculate(s, item.campaign, ok, if retry then Rearm(job, item) else Idle, c);
    case _ =>
  }

  lemma ReleasedRecalculate(s: State, d: CampaignId, ok: bool, w: Worker, c: CampaignId)
    requires ReleasedForGood(s, c)
    ensures ReleasedForGood(DoRecalculateThen(s, d, ok, w), c)
  {
  }

  /** Nothing takes a release back once the scheduler is done with it. */
  lemma ReleasedStep(cfg: Config, s: State, e: Event, c: CampaignId)
    requires ReleasedForGood(s, c)
    ensures ReleasedForGood(Step(cfg, s, e), c)
  {
    hide DoWork, DoClaimDue, DoPublishClaimed, CanClaimRetries, ReceiveAll, Sweep, CountSweep;
    match e
    case ClaimDue(batchSize, claims) => ReleasedClaim(s, batchSize, claims, c);
    case PublishClaimed(ok) => ReleasedPublish(s, ok, c);
    case Work(ok, answer) => ReleasedWork(cfg, s, ok, answer, c);
    case _ =>
  }
}
