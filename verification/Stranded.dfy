/** When a message stays in processing for good. */
module Stranded {
  import opened Basics
  import M = Messages
  import C = Campaigns
  import opened Protocol
  import opened Invariants
  import opened CoreSteps
  import opened NoLostWork
  import opened Interleaving
  import opened Outstanding
  import opened Revival
  import opened Scenarios
  import opened Gates
  import B = Batches

  /** In processing, but no job of it is left, its campaign is released and nobody will publish it. */
  ghost predicate Stranded(cfg: Config, s: State, m: MessageId) {
    && m < |s.messages| && s.messages[m].status.Processing?
    && !BroughtIn(cfg, s, m) && !(s.worker.Answered? && s.worker.job.message == m)
    && ReleasedForGood(s, s.messages[m].campaign)
  }

  // ------------------------------------------------------- stranded for good

  lemma RowUntouchedWork(cfg: Config, s: State, ok: bool, answer: Answer, m: MessageId)
    requires Core(cfg, s) && Stranded(cfg, s, m)
    ensures |DoWork(cfg, s, ok, answer).messages| == |s.messages|
    ensures DoWork(cfg, s, ok, answer).messages[m] == s.messages[m]
    ensures var t := DoWork(cfg, s, ok, answer); !(t.worker.Answered? && t.worker.job.message == m)
  {
    hide Core;
    match s.worker
    case Admitted(job, item) => OtherRowMarked(cfg, s, job, item, ok, m);
    case Answered(job, item, a) => OtherRowSettled(cfg, s, job, item, a, ok, m);
    case _ =>
  }

  lemma OtherRowMarked(cfg: Config, s: State, job: Job, item: M.Message, ok: bool, m: MessageId)
    requires m < |s.messages| && s.worker == Admitted(job, item) && job.message != m
    ensures var t := DoMark(s, job, item, ok); |t.messages| == |s.messages| && t.messages[m] == s.messages[m]
  {
  }

  lemma OtherRowSettled(cfg: Config, s: State, job: Job, item: M.Message, a: Answer, ok: bool, m: MessageId)
    requires m < |s.messages| && s.worker == Answered(job, item, a) && job.message != m
    ensures var t := DoSettle(cfg, s, job, item, a, ok); |t.messages| == |s.messages| && t.messages[m] == s.messages[m]
  {
  }

  lemma RowUntouchedTrack(cfg: Config, s: State, t: nat, ok: bool, m: MessageId)
    requires Core(cfg, s) && m < |s.messages| && s.messages[m].status.Processing?
    ensures |DoTrackMark(s, t, ok).messages| == |s.messages| && DoTrackMark(s, t, ok).messages[m] == s.messages[m]
  {
    assert M.RowOk(s.messages[m], s.clock);
  }

  lemma RowUntouchedSweep(s: State, limit: int, picked: seq<MessageId>, m: MessageId)
    requires m < |s.messages| && s.messages[m].status.Processing?
    ensures var t := DoClaimRetries(s, limit, picked); |t.messages| == |s.messages| && t.messages[m] == s.messages[m]
  {
    if CanClaimRetries(s, limit, picked) && m in picked {
      PickedIsDue(s, picked, limit, m);
    }
  }

  lemma RowUntouched(cfg: Config, s: State, e: Event, m: MessageId)
    requires Core(cfg, s) && Stranded(cfg, s, m)
    ensures var t := Step(cfg, s, e);
            m < |t.messages| && t.messages[m] == s.messages[m] && !(t.worker.Answered? && t.worker.job.message == m)
  {
    hide Core, DoWork, ReceiveAll, Sweep, CountSweep, CanClaimRetries, CanClaimDue, ReleaseAll;
    match e
    case Work(ok, answer) => RowUntouchedWork(cfg, s, ok, answer, m);
    case TrackMark(t, ok) => RowUntouchedTrack(cfg, s, t, ok, m);
    case ClaimRetries(limit, picked) => RowUntouchedSweep(s, limit, picked, m);
    case _ =>
  }

  lemma StrandedStep(cfg: Config, s: State, e: Event, m: MessageId)
    requires Core(cfg, s) && Stranded(cfg, s, m)
    ensures Stranded(cfg, Step(cfg, s, e), m)
  {
    hide Step, Core, BroughtIn;
    RowUntouched(cfg, s, e, m);
    ReleasedStep(cfg, s, e, s.messages[m].campaign);
    if BroughtIn(cfg, Step(cfg, s, e), m) {
      NewJobs(cfg, s, e, m);
    }
  }

  lemma {:induction false} StrandedForever(cfg: Config, s: State, es: seq<Event>, m: MessageId)
    requires Core(cfg, s) && Stranded(cfg, s, m)
    ensures Core(cfg, Run(cfg, s, es)) && Stranded(cfg, Run(cfg, s, es), m)
  {
    hide Step, Core, Stranded;
    if es != [] {
      var before := es[..|es| - 1];
      StrandedForever(cfg, s, before, m);
      StrandedStep(cfg, Run(cfg, s, before), es[|es| - 1], m);
      KeepStep(cfg, Run(cfg, s, before), es[|es| - 1]);
    }
  }

  // --------------------------------------------------------- ways to move on

  /** After `es` the row is sent, pending again, or failed. */
  ghost predicate MovesOn(cfg: Config, s: State, es: seq<Event>, m: MessageId) {
    m < |Run(cfg, s, es).messages| && !Run(cfg, s, es).messages[m].status.Processing?
  }

  /** Some permitted continuation moves the row on. */
  ghost predicate MayMoveOn(cfg: Config, batch: int, s: State, m: MessageId) {
    exists es :: Permitted(cfg, batch, s, es) && MovesOn(cfg, s, es, m)
  }

  /** A worker at the provider can send and mark the message. */
  lemma SendableMovesOn(cfg: Config, batch: int, s: State, first: seq<Event>, c: CampaignId, m: MessageId)
    requires Permitted(cfg, batch, s, first) && Sendable(cfg, Run(cfg, s, first), c, m)
    ensures MayMoveOn(cfg, batch, s, m)
  {
    hide Step, Reachable, Permitted;
    var t := Run(cfg, s, first);
    var id := FreshId(t.issued);
    var yes := Work(true, Accepted(id));
    SentAndMarked(cfg, t, id, m);
    FreeIsPermitted(cfg, batch, t, [yes, yes]);
    Join(cfg, batch, s, first, [yes, yes]);
    assert MovesOn(cfg, s, first + [yes, yes], m);
  }

  lemma SentAndMarked(cfg: Config, s: State, id: ProviderId, m: MessageId)
    requires Reachable(cfg, s) && s.worker.Sending? && s.worker.job.message == m && id !in s.issued
    ensures MovesOn(cfg, s, [Work(true, Accepted(id)), Work(true, Accepted(id))], m)
  {
    ReachableIsCore(cfg, s);
    ItemCampaignExists(cfg, s);
    TwoSteps(cfg, s, Work(true, Accepted(id)), Work(true, Accepted(id)));
  }

  lemma ItemCampaignExists(cfg: Config, s: State)
    requires Core(cfg, s) && s.worker.Sending?
    ensures s.worker.job.message < |s.messages| == |s.tally| && s.worker.item.campaign < |s.log|
  {
  }

  lemma AnsweredMovesOn(cfg: Config, batch: int, s: State, m: MessageId)
    requires Reachable(cfg, s) && m < |s.messages| && s.worker.Answered? && s.worker.job.message == m
    ensures MayMoveOn(cfg, batch, s, m)
  {
    FreeIsPermitted(cfg, batch, s, WORK);
    OneStep(cfg, s, Work(true, NO));
    Tables(cfg, s);
    assert MovesOn(cfg, s, WORK, m);
  }

  /** The next publish of the scheduler is that of `c`, or brings it closer. */
  lemma PublishMovesOn(cfg: Config, s: State, k: nat, c: CampaignId, m: MessageId)
    requires Unsent(cfg, s, c, m) && s.scheduler.Publishing? && k < |s.scheduler.claims|
             && s.scheduler.claims[k].campaign == c
    ensures Run(cfg, s, [PublishClaimed(true)]) == DoPublishClaimed(s, true)
    ensures Unsent(cfg, DoPublishClaimed(s, true), c, m)
    ensures k == 0 ==> Carries(DoPublishClaimed(s, true).queue, m)
    ensures k > 0 ==> DoPublishClaimed(s, true).scheduler == Publishing(s.scheduler.claims[1..])
  {
    OneStep(cfg, s, PublishClaimed(true));
    ReachableIsCore(cfg, s);
    var h := s.scheduler.claims[0];
    assert Dir(s).owner[m] == c;
    assert Covers(Dir(s), h.campaign, h.jobs) && h.campaign < |s.log|;
    hide Core, Reachable;
    if k == 0 {
      CoveredIsCarried(Dir(s), c, h.jobs, m);
      CarriesAppend(s.queue, h.jobs, m);
    }
  }

  /** After `es` a job of `m` is in the list; `c` may have been rescheduled for it. */
  ghost predicate Requeues(cfg: Config, batch: int, s: State, es: seq<Event>, c: CampaignId, m: MessageId) {
    Permitted(cfg, batch, s, es) && Unsent(cfg, Run(cfg, s, es), c, m) && Carries(Run(cfg, s, es).queue, m)
  }

  lemma {:induction false} ClaimedQueues(cfg: Config, batch: int, s: State, k: nat, c: CampaignId, m: MessageId)
    returns (es: seq<Event>)
    requires Unsent(cfg, s, c, m) && s.scheduler.Publishing? && k < |s.scheduler.claims|
             && s.scheduler.claims[k].campaign == c
    ensures Requeues(cfg, batch, s, es, c, m)
    decreases k
  {
    hide Unsent, DoPublishClaimed, Step, Reachable, Permitted;
    PublishMovesOn(cfg, s, k, c, m);
    es := [PublishClaimed(true)];
    FreeIsPermitted(cfg, batch, s, es);
    if k > 0 {
      var t := DoPublishClaimed(s, true);
      var more := ClaimedQueues(cfg, batch, t, k - 1, c, m);
      Join(cfg, batch, s, es, more);
      es := es + more;
    }
  }

  // -------------------------------------------- an unreleased campaign can be released

  /** Strictly before every schedule, and not in the future. */
  lemma {:induction false} EarlyTime(cs: seq<C.Campaign>, now: Time) returns (w: Time)
    ensures w <= now && forall c :: 0 <= c < |cs| && cs[c].scheduledAt.Some? ==> w < cs[c].scheduledAt.value
  {
    if cs == [] {
      w := now;
    } else {
      var n := |cs| - 1;
      w := EarlyTime(cs[..n], now);
      if cs[n].scheduledAt.Some? {
        w := Min(w, cs[n].scheduledAt.value - 1);
      }
    }
  }

  /** One job per row of `c`. */
  function RowJobs(s: State, c: CampaignId): seq<Job>
    requires c < |s.campaigns| && c < |s.log| && s.log[c].first + s.campaigns[c].total <= |s.messages|
  {
    seq(s.campaigns[c].total, i requires 0 <= i < s.campaigns[c].total =>
      Job(s.log[c].first + i, c, s.campaigns[c].instance, s.messages[s.log[c].first + i].attempts))
  }

  lemma RowRange(s: State, c: CampaignId)
    requires |s.log| == |s.campaigns| && DirOk(Dir(s)) && c < |s.campaigns|
    ensures s.log[c].first + s.campaigns[c].total <= |s.messages|
    ensures forall m :: 0 <= m < |s.messages| ==>
              (s.messages[m].campaign == c <==> s.log[c].first <= m < s.log[c].first + s.campaigns[c].total)
  {
    var d := Dir(s);
    assert d.first[c] == s.log[c].first && d.total[c] == s.campaigns[c].total;
    forall m | 0 <= m < |s.messages| ensures d.owner[m] == s.messages[m].campaign {}
  }

  lemma RowJobsList(s: State, c: CampaignId)
    requires |s.log| == |s.campaigns| && DirOk(Dir(s)) && c < |s.campaigns|
    ensures s.log[c].first + s.campaigns[c].total <= |s.messages|
    ensures Lists(s.messages, s.campaigns, c, RowJobs(s, c))
  {
    RowRange(s, c);
    RowJobsCount(s, c);
    var jobs := RowJobs(s, c);
    hide DirOk, Dir, RowJobs;
    forall m | 0 <= m < |s.messages| && s.messages[m].campaign == c ensures m in MessagesOf(jobs) {
      assert MessagesOf(jobs)[m - s.log[c].first] == m;
    }
  }

  lemma RowJobsCount(s: State, c: CampaignId)
    requires c < |s.campaigns| && c < |s.log| && s.log[c].first + s.campaigns[c].total <= |s.messages|
    ensures var jobs := RowJobs(s, c);
            && |jobs| == s.campaigns[c].total
            && forall i :: 0 <= i < |jobs| ==>
                 && MessagesOf(jobs)[i] == s.log[c].first + i
                 && jobs[i] == Job(s.log[c].first + i, c, s.campaigns[c].instance,
                                   s.messages[s.log[c].first + i].attempts)
  {
  }

  /** What a claim of the campaigns `picked` returns. */
  function ClaimsFor(s: State, picked: seq<CampaignId>): seq<Claimed>
    requires forall i :: 0 <= i < |picked| ==>
               picked[i] < |s.campaigns| && picked[i] < |s.log|
               && s.log[picked[i]].first + s.campaigns[picked[i]].total <= |s.messages|
  {
    seq(|picked|, i requires 0 <= i < |picked| => Claimed(picked[i], RowJobs(s, picked[i])))
  }

  /** A campaign that is due before all others is in every batch. */
  lemma FirstIsPicked(due: map<nat, Time>, limit: nat, picked: seq<nat>, c: nat)
    requires EarliestBatch(picked, due, limit) && limit >= 1 && c in due
    requires forall d :: d in due && d != c ==> due[c] < due[d]
    ensures c in picked
  {
    assert |due| >= 1 && picked[0] in due;
    if picked[0] != c {
      assert due[c] < due[picked[0]];
    }
  }

  /** With nothing due earlier, the next batch holds `c`. */
  lemma ClaimsIt(cfg: Config, batch: int, s: State, c: CampaignId) returns (claims: seq<Claimed>, k: nat)
    requires Reachable(cfg, s) && s.scheduler.Resting? && c < |s.campaigns| && C.Due(s.campaigns[c], s.clock)
    requires forall d :: 0 <= d < |s.campaigns| && d != c && s.campaigns[d].scheduledAt.Some? ==>
               s.campaigns[c].scheduledAt.value < s.campaigns[d].scheduledAt.value
    ensures CanClaimDue(s, batch, claims) && k < |claims| && claims[k].campaign == c
  {
    var due := DueCampaigns(s.campaigns, s.clock);
    var picked := B.BatchExists(due, Effective(batch, 25));
    FirstIsPicked(due, Effective(batch, 25), picked, c);
    k :| 0 <= k < |picked| && picked[k] == c;
    claims := BatchIsClaimed(cfg, batch, s, picked);
    assert Campaigns(claims)[k] == c;
  }

  lemma BatchIsClaimed(cfg: Config, batch: int, s: State, picked: seq<CampaignId>) returns (claims: seq<Claimed>)
    requires Reachable(cfg, s) && s.scheduler.Resting?
    requires EarliestBatch(picked, DueCampaigns(s.campaigns, s.clock), Effective(batch, 25))
    ensures CanClaimDue(s, batch, claims) && Campaigns(claims) == picked
  {
    hide Lists, C.Due, RowJobs, Reachable;
    PickedExist(s, batch, picked);
    forall i | 0 <= i < |picked|
      ensures picked[i] < |s.campaigns| == |s.log|
      ensures s.log[picked[i]].first + s.campaigns[picked[i]].total <= |s.messages|
      ensures Lists(s.messages, s.campaigns, picked[i], RowJobs(s, picked[i]))
    {
      ListedRows(cfg, s, picked[i]);
    }
    claims := ClaimsFor(s, picked);
    assert Campaigns(claims) == picked;
    hide EarliestBatch;
  }

  lemma PickedExist(s: State, batch: int, picked: seq<CampaignId>)
    requires EarliestBatch(picked, DueCampaigns(s.campaigns, s.clock), Effective(batch, 25))
    ensures forall i :: 0 <= i < |picked| ==> picked[i] < |s.campaigns|
  {
    forall i | 0 <= i < |picked| ensures picked[i] < |s.campaigns| {
      assert picked[i] in DueCampaigns(s.campaigns, s.clock);
    }
  }

  lemma ListedRows(cfg: Config, s: State, c: CampaignId)
    requires Reachable(cfg, s) && c < |s.campaigns|
    ensures |s.log| == |s.campaigns| && s.log[c].first + s.campaigns[c].total <= |s.messages|
    ensures Lists(s.messages, s.campaigns, c, RowJobs(s, c))
  {
    ReachableIsCore(cfg, s);
    RowJobsList(s, c);
  }

  /** Whatever the campaign went through, rescheduling it to the past lets the next tick claim it. */
  lemma RescheduleClaims(cfg: Config, batch: int, s: State, c: CampaignId, m: MessageId)
    returns (es: seq<Event>, k: nat)
    requires Unsent(cfg, s, c, m) && s.scheduler.Resting? && c < |s.campaigns| && s.campaigns[c].releasedAt.None?
    ensures Permitted(cfg, batch, s, es)
    ensures var t := Run(cfg, s, es);
            && Unsent(cfg, t, c, m) && t.scheduler.Publishing? && k < |t.scheduler.claims|
            && t.scheduler.claims[k].campaign == c
  {
    hide Permitted;
    var w := EarlyTime(s.campaigns, s.clock);
    OneStep(cfg, s, Event.Reschedule(c, w));
    OneIsPermitted(cfg, batch, s, Event.Reschedule(c, w));
    var t := Step(cfg, s, Event.Reschedule(c, w));
    var claims;
    claims, k := ClaimsIt(cfg, batch, t, c);
    ClaimTakes(cfg, batch, t, c, claims, m);
    Join(cfg, batch, s, [Event.Reschedule(c, w)], [ClaimDue(batch, claims)]);
    es := [Event.Reschedule(c, w)] + [ClaimDue(batch, claims)];
  }

  lemma ClaimTakes(cfg: Config, batch: int, s: State, c: CampaignId, claims: seq<Claimed>, m: MessageId)
    requires Unsent(cfg, s, c, m) && CanClaimDue(s, batch, claims) && claims != []
    ensures var t := Run(cfg, s, [ClaimDue(batch, claims)]);
            Unsent(cfg, t, c, m) && t.scheduler == Publishing(claims)
    ensures Permitted(cfg, batch, s, [ClaimDue(batch, claims)])
  {
    OneStep(cfg, s, ClaimDue(batch, claims));
    OneIsPermitted(cfg, batch, s, ClaimDue(batch, claims));
  }

  lemma UnreleasedQueues(cfg: Config, batch: int, s: State, c: CampaignId, m: MessageId) returns (es: seq<Event>)
    requires Unsent(cfg, s, c, m) && c < |s.campaigns| && s.campaigns[c].releasedAt.None?
    ensures Requeues(cfg, batch, s, es, c, m)
  {
    hide Step, Reachable, Permitted;
    CrashKeepsList(cfg, s, c, m);
    FreeIsPermitted(cfg, batch, s, [Crash]);
    var idle := Run(cfg, s, [Crash]);
    var claim, k := RescheduleClaims(cfg, batch, idle, c, m);
    var publish := ClaimedQueues(cfg, batch, Run(cfg, idle, claim), k, c, m);
    Join(cfg, batch, s, [Crash], claim);
    Join(cfg, batch, s, [Crash] + claim, publish);
    es := [Crash] + claim + publish;
  }

  lemma RevertReleases(cfg: Config, s: State, c: CampaignId, m: MessageId)
    requires Unsent(cfg, s, c, m) && s.scheduler == Reverting(c)
    ensures var t := Run(cfg, s, [RevertRelease(true)]);
            Unsent(cfg, t, c, m) && c < |t.campaigns| && t.campaigns[c].releasedAt.None?
  {
    ReachableIsCore(cfg, s);
    assert PublishOk(s.campaigns[c], s.log[c], c in s.creating, Claims(s.scheduler, c));
    assert CampaignOk(s.campaigns[c]);
    OneStep(cfg, s, RevertRelease(true));
  }

  lemma QueuedMovesOn(cfg: Config, batch: int, s: State, first: seq<Event>, c: CampaignId, m: MessageId)
    requires Requeues(cfg, batch, s, first, c, m)
    ensures MayMoveOn(cfg, batch, s, m)
  {
    hide Step, Reachable, Permitted;
    var more := QueuedReachesProvider(cfg, batch, Run(cfg, s, first), c, m);
    Join(cfg, batch, s, first, more);
    SendableMovesOn(cfg, batch, s, first + more, c, m);
  }

  /** A campaign that is not released for good can be published (again). */
  lemma PublishableQueues(cfg: Config, batch: int, s: State, c: CampaignId, m: MessageId) returns (es: seq<Event>)
    requires Unsent(cfg, s, c, m) && c < |s.campaigns| && !ReleasedForGood(s, c)
    ensures Requeues(cfg, batch, s, es, c, m)
  {
    hide Step, Reachable, Permitted;
    if s.campaigns[c].releasedAt.None? {
      es := UnreleasedQueues(cfg, batch, s, c, m);
    } else if s.scheduler.Publishing? {
      var k :| 0 <= k < |s.scheduler.claims| && s.scheduler.claims[k].campaign == c;
      es := ClaimedQueues(cfg, batch, s, k, c, m);
    } else {
      RevertReleases(cfg, s, c, m);
      FreeIsPermitted(cfg, batch, s, [RevertRelease(true)]);
      var more := UnreleasedQueues(cfg, batch, Run(cfg, s, [RevertRelease(true)]), c, m);
      Join(cfg, batch, s, [RevertRelease(true)], more);
      es := [RevertRelease(true)] + more;
    }
  }

  /** A message in processing stays there in every permitted continuation if and only if no job of it is left in the
      list, in a timer, with the sweeper or with the worker, its campaign's `Create` is not about to publish, and the
      campaign is released for good. Then it stays there in every other continuation as well. */
  lemma ProcessingForeverIffStranded(cfg: Config, batch: int, s: State, m: MessageId)
    requires Reachable(cfg, s) && m < |s.messages| && s.messages[m].status.Processing?
    ensures !MayMoveOn(cfg, batch, s, m) <==> Stranded(cfg, s, m)
    ensures Stranded(cfg, s, m) ==> forall es :: !MovesOn(cfg, s, es, m)
  {
    hide Step, Reachable, BroughtIn, ReleasedForGood, Permitted, Way, Requeues;
    var c := s.messages[m].campaign;
    if Stranded(cfg, s, m) {
      ReachableIsCore(cfg, s);
      hide Core;
      forall es ensures !MovesOn(cfg, s, es, m) {
        StrandedForever(cfg, s, es, m);
      }
    } else {
      CampaignExists(cfg, s, m);
      if s.worker.Answered? && s.worker.job.message == m {
        AnsweredMovesOn(cfg, batch, s, m);
      } else if BroughtIn(cfg, s, m) {
        var first := ReachesProvider(cfg, batch, s, c, m);
        WayIsPermitted(cfg, batch, s, first, c);
        SendableMovesOn(cfg, batch, s, first, c, m);
      } else {
        var first := PublishableQueues(cfg, batch, s, c, m);
        QueuedMovesOn(cfg, batch, s, first, c, m);
      }
    }
  }

  lemma WayIsPermitted(cfg: Config, batch: int, s: State, es: seq<Event>, c: CampaignId)
    requires Way(cfg, batch, s, es, c)
    ensures Permitted(cfg, batch, s, es)
  {
  }

  lemma CampaignExists(cfg: Config, s: State, m: MessageId)
    requires Reachable(cfg, s) && m < |s.messages|
    ensures s.messages[m].campaign < |s.campaigns|
  {
    ReachableIsCore(cfg, s);
    assert Dir(s).owner[m] == s.messages[m].campaign;
  }

  /** It happens: a shutdown during the cadence wait strands a message of a released campaign. */
  lemma ShutdownStrands(cfg: Config, batch: int) returns (es: seq<Event>)
    ensures Permitted(cfg, batch, Init(0), es) && Stranded(cfg, Run(cfg, Init(0), es), 0)
  {
    hide Step, Stranded, Permitted;
    var w, stop := Work(true, NO), Work(false, NO);
    ReleasedOnce(cfg, batch);
    LaterIsPermitted(cfg, batch);
    HeadIsAdmitted(cfg, RELEASED, NO);
    var admitted := Run(cfg, RELEASED, [w, w, w]);
    WaitIsCancelled(cfg, admitted);
    ThenWorks(cfg, batch, Init(0), Later(batch), [w, w, w]);
    ThenWorks(cfg, batch, Init(0), Later(batch) + [w, w, w], [w, w, stop]);
    es := Later(batch) + [w, w, w] + [w, w, stop];
  }

  lemma WaitIsCancelled(cfg: Config, s: State)
    requires s == RELEASED.(worker := Admitted(ONLY_JOB, M.New(0)), queue := [])
    ensures Stranded(cfg, Run(cfg, s, [Work(true, NO), Work(true, NO), Work(false, NO)]), 0)
  {
    var marked := DoMark(s, ONLY_JOB, M.New(0), true);
    var waiting := DoRecalculateThen(marked, 0, true, Waiting(ONLY_JOB, M.New(0)));
    assert DoWork(cfg, s, true, NO) == marked && DoWork(cfg, marked, true, NO) == waiting;
    ThreeSteps(cfg, s, Work(true, NO), Work(true, NO), Work(false, NO));
  }
}
