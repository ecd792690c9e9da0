/** A release tick under arbitrary interference, and what a failed publish does to the rest of its batch. */
module ReleaseTicks {
  import opened Basics
  import M = Messages
  import C = Campaigns
  import opened Protocol
  import opened Invariants
  import opened Interleaving
  import opened Invariance
  import opened Outstanding
  import opened Gates
  import opened CampaignService
  import opened Scheduler
  import G = Guarantees
  import A = Accounting
  import B = Batches
  import R = Revival

  // -------------------------------------------------- between two publishes

  /** Released when, planned for when, and not cancelled since. */
  predicate SamePlan(a: C.Campaign, b: C.Campaign) {
    b.releasedAt == a.releasedAt && b.mode == a.mode && b.scheduledAt == a.scheduledAt && b.cancelledAt == a.cancelledAt
  }

  /** What the other goroutines leave alone: releases, their publishes, and campaigns that are not being created. */
  ghost predicate Left(s: State, t: State, c: CampaignId)
    requires c < |s.campaigns| && c < |s.log|
  {
    && |t.log| == |t.campaigns| >= |s.campaigns|
    && c < |t.log|
    && (s.campaigns[c].releasedAt.Some? ==> SamePlan(s.campaigns[c], t.campaigns[c]))
    && t.log[c].releasePublishes == s.log[c].releasePublishes
    && (c !in s.creating ==> c !in t.creating && t.log[c].createPublishes == s.log[c].createPublishes)
  }

  lemma LeftStep(cfg: Config, s: State, e: Event, c: CampaignId)
    requires |s.log| == |s.campaigns| && c < |s.campaigns|
    requires !e.ClaimDue? && !e.PublishClaimed? && !e.RevertRelease? && !e.Crash?
    ensures Left(s, Step(cfg, s, e), c)
  {
    if e.Work? {
      LeftWork(cfg, s, e.ok, e.answer, c);
    }
  }

  lemma LeftWork(cfg: Config, s: State, ok: bool, answer: Answer, c: CampaignId)
    requires |s.log| == |s.campaigns| && c < |s.campaigns|
    ensures Left(s, DoWork(cfg, s, ok, answer), c)
  {
    match s.worker
    case Sending(job, item) => LeftSend(s, job, item, answer, c);
    case _ =>
  }

  lemma LeftSend(s: State, job: Job, item: M.Message, answer: Answer, c: CampaignId)
    requires |s.log| == |s.campaigns| && c < |s.campaigns|
    ensures Left(s, DoSend(s, job, item, answer), c)
  {
  }

  lemma {:induction false} LeftRun(cfg: Config, s: State, env: seq<Event>, c: CampaignId)
    requires |s.log| == |s.campaigns| && c < |s.campaigns| && LeavesScheduler(env)
    ensures Left(s, Run(cfg, s, env), c)
  {
    hide Step;
    if env != [] {
      LeftRun(cfg, s, env[..|env| - 1], c);
      LeftStep(cfg, Run(cfg, s, env[..|env| - 1]), env[|env| - 1], c);
    }
  }

  // --------------------------------------------------------- the publish loop

  /** The loop's inputs: the first `n` publishes succeed, and the others never touch the scheduler. */
  ghost predicate Publishable(claims: seq<Claimed>, pushes: seq<Push>, n: nat) {
    && n <= |claims| && n <= |pushes| && Distinct(Campaigns(claims))
    && (forall i :: 0 <= i < n ==> pushes[i].ok)
    && (forall i :: 0 <= i < |pushes| ==> LeavesScheduler(pushes[i].env))
  }

  /** `t` is reached from the claim `s` with the first `n` claims published. */
  ghost predicate InLoop(s: State, claims: seq<Claimed>, n: nat, t: State, c: CampaignId)
    requires n <= |claims| && c < |s.campaigns| && c < |s.log|
  {
    && t.scheduler == NextClaims(claims[n..])
    && |t.log| == |t.campaigns| >= |s.campaigns| && c < |t.log|
    && (s.campaigns[c].releasedAt.Some? ==> SamePlan(s.campaigns[c], t.campaigns[c]))
    && t.log[c].releasePublishes == s.log[c].releasePublishes + A.One(c in Campaigns(claims[..n]))
    && (c !in s.creating ==> c !in t.creating && t.log[c].createPublishes == s.log[c].createPublishes)
  }

  lemma {:induction false} PublishLoop(cfg: Config, s: State, claims: seq<Claimed>, pushes: seq<Push>, n: nat,
                                       c: CampaignId)
    requires Reachable(cfg, s) && s.scheduler == NextClaims(claims) && Publishable(claims, pushes, n)
    requires c < |s.campaigns| && c < |s.log|
    ensures InLoop(s, claims, n, Run(cfg, s, Pushes(pushes[..n], Publish)), c)
  {
    hide Step, Reachable;
    if n == 0 {
      LogLength(cfg, s);
      assert claims[0..] == claims;
    } else {
      var before := Run(cfg, s, Pushes(pushes[..n - 1], Publish));
      PublishLoop(cfg, s, claims, pushes, n - 1, c);
      LeftRun(cfg, before, pushes[n - 1].env, c);
      OneMorePublish(cfg, s, pushes, n - 1);
      PublishInLoop(s, claims, n - 1, before, Run(cfg, before, pushes[n - 1].env), c);
    }
  }

  lemma LogLength(cfg: Config, s: State)
    requires Reachable(cfg, s)
    ensures |s.log| == |s.campaigns|
  {
    ReachableIsCore(cfg, s);
  }

  lemma PublishInLoop(s: State, claims: seq<Claimed>, n: nat, before: State, mid: State, c: CampaignId)
    requires n < |claims| && Distinct(Campaigns(claims)) && c < |s.campaigns| && c < |s.log|
    requires InLoop(s, claims, n, before, c) && Left(before, mid, c) && mid.scheduler == before.scheduler
    requires claims[n].campaign < |mid.log|
    ensures InLoop(s, claims, n + 1, DoPublishClaimed(mid, true), c)
  {
    assert claims[n..][1..] == claims[n + 1..];
    assert Campaigns(claims[..n + 1]) == Campaigns(claims[..n]) + [claims[n].campaign];
    NotAmong(claims, n, n);
  }

  lemma NotAmong(claims: seq<Claimed>, i: nat, k: nat)
    requires Distinct(Campaigns(claims)) && i < |claims| && k < |claims|
    ensures k >= i ==> claims[k].campaign !in Campaigns(claims[..i])
    ensures k != i ==> claims[k].campaign != claims[i].campaign
  {
    forall j | 0 <= j < i ensures Campaigns(claims[..i])[j] == Campaigns(claims)[j] {}
    assert Campaigns(claims)[k] == claims[k].campaign && Campaigns(claims)[i] == claims[i].campaign;
  }

  /** Where the loop ends: after its last publish, or after the revert of the one that failed. */
  ghost predicate Ended(claims: seq<Claimed>, pushes: seq<Push>, n: nat, failed: bool, revert: Push) {
    && Publishable(claims, pushes, n) && LeavesScheduler(revert.env)
    && (failed <==> n < |claims|) && (failed ==> n < |pushes| && !pushes[n].ok)
  }

  ghost function TickEnd(cfg: Config, s: State, pushes: seq<Push>, n: nat, failed: bool, revert: Push): State
    requires n + A.One(failed) <= |pushes|
  {
    Run(cfg, s, ReleaseEvents(pushes, n + A.One(failed), failed, revert))
  }

  /** `b` waits for its schedule again, for the instant that `a` was planned for. */
  predicate PlannedAgain(a: C.Campaign, b: C.Campaign) {
    && b.status.Scheduled? && b.releasedAt.None? && b.cancelledAt == a.cancelledAt && b.scheduledAt == a.scheduledAt
    && b.mode.Later?
  }

  /** What the whole publish loop did to campaign `c`. */
  lemma TickOutcome(cfg: Config, s: State, claims: seq<Claimed>, pushes: seq<Push>, n: nat, failed: bool, revert: Push,
                    c: CampaignId)
    requires Reachable(cfg, s) && s.scheduler == NextClaims(claims) && Ended(claims, pushes, n, failed, revert)
    requires c < |s.campaigns| && c < |s.log|
    ensures var t := TickEnd(cfg, s, pushes, n, failed, revert);
            && t.scheduler.Resting? && c < |t.campaigns| && c < |t.log|
            && t.log[c].releasePublishes == s.log[c].releasePublishes + A.One(c in Campaigns(claims[..n]))
            && (s.campaigns[c].releasedAt.Some? && s.campaigns[c].mode.Later? ==>
                  if failed && c == claims[n].campaign && revert.ok then PlannedAgain(s.campaigns[c], t.campaigns[c])
                  else SamePlan(s.campaigns[c], t.campaigns[c]))
            && (c !in s.creating ==> c !in t.creating && t.log[c].createPublishes == s.log[c].createPublishes)
  {
    hide Step, Reachable;
    PublishLoop(cfg, s, claims, pushes, n, c);
    if failed {
      FailedOutcome(cfg, s, claims, pushes, n, revert, c);
    } else {
      assert ReleaseEvents(pushes, n, false, revert) == Pushes(pushes[..n], Publish);
    }
  }

  lemma FailedOutcome(cfg: Config, s: State, claims: seq<Claimed>, pushes: seq<Push>, n: nat, revert: Push,
                      c: CampaignId)
    requires Reachable(cfg, s) && s.scheduler == NextClaims(claims) && Ended(claims, pushes, n, true, revert)
    requires c < |s.campaigns| && c < |s.log|
    requires InLoop(s, claims, n, Run(cfg, s, Pushes(pushes[..n], Publish)), c)
    ensures var t := TickEnd(cfg, s, pushes, n, true, revert);
            && t.scheduler.Resting? && c < |t.campaigns| && c < |t.log|
            && t.log[c].releasePublishes == s.log[c].releasePublishes + A.One(c in Campaigns(claims[..n]))
            && (s.campaigns[c].releasedAt.Some? && s.campaigns[c].mode.Later? ==>
                  if c == claims[n].campaign && revert.ok then PlannedAgain(s.campaigns[c], t.campaigns[c])
                  else SamePlan(s.campaigns[c], t.campaigns[c]))
            && (c !in s.creating ==> c !in t.creating && t.log[c].createPublishes == s.log[c].createPublishes)
  {
    hide Step, Reachable;
    var loop := Run(cfg, s, Pushes(pushes[..n], Publish));
    LeftRun(cfg, loop, pushes[n].env, c);
    OneMorePublish(cfg, s, pushes, n);
    var failing := Run(cfg, s, Pushes(pushes[..n + 1], Publish));
    assert failing.scheduler == Reverting(claims[n].campaign);
    LeftRun(cfg, failing, revert.env, c);
    OthersLeaveScheduler(cfg, failing, revert.env);
    RevertedExists(cfg, s, Pushes(pushes[..n + 1], Publish), revert.env);
    var last := Run(cfg, failing, revert.env);
    RunThen(cfg, s, Pushes(pushes[..n + 1], Publish), revert.env, RevertRelease(revert.ok));
    RevertIsStep(cfg, last, revert.ok);
    assert ReleaseEvents(pushes, n + 1, true, revert)
           == Pushes(pushes[..n + 1], Publish) + revert.env + [RevertRelease(revert.ok)];
  }

  // --------------------------------------------------------- release exactness

  /** Release exactness under any interference: over the events of one call the scheduler pushes exactly the campaigns
      it reports as published, each once; so after a nil return, every claimed campaign. */
  lemma ReleaseExactness(cfg: Config, s: State, batchSize: int, claims: seq<Claimed>, pushes: seq<Push>, n: nat,
                         failed: bool, revert: Push, c: CampaignId)
    requires Reachable(cfg, s) && CanClaimDue(s, batchSize, claims) && Ended(claims, pushes, n, failed, revert)
    requires c < |s.campaigns|
    ensures G.Occurrences(cfg, DoClaimDue(s, batchSize, claims),
                          ReleaseEvents(pushes, n + A.One(failed), failed, revert),
                          (x, e) => G.ReleasePublishesNow(x, e, c))
            == A.One(c in Campaigns(claims[..n]))
  {
    hide Step, Reachable;
    ClaimReachable(cfg, s, batchSize, claims);
    var claimed := DoClaimDue(s, batchSize, claims);
    LogLength(cfg, claimed);
    TickOutcome(cfg, claimed, claims, pushes, n, failed, revert, c);
    ReachableIsCore(cfg, claimed);
    G.HistoryIsTrace(cfg, claimed, ReleaseEvents(pushes, n + A.One(failed), failed, revert), 0, c);
  }

  /** Each of these pushes appends exactly the claimed jobs: every message of the campaign once, and no other. */
  lemma PushAppendsJobs(cfg: Config, s: State, batchSize: int, claims: seq<Claimed>, pushes: seq<Push>, k: nat,
                        m: MessageId)
    requires Reachable(cfg, s) && CanClaimDue(s, batchSize, claims) && Publishable(claims, pushes, k + 1)
    requires k < |claims| && m < |s.messages|
    ensures var claimed := DoClaimDue(s, batchSize, claims);
            var mid := Run(cfg, Run(cfg, claimed, Pushes(pushes[..k], Publish)), pushes[k].env);
            && Run(cfg, claimed, Pushes(pushes[..k + 1], Publish)).queue == mid.queue + claims[k].jobs
            && A.Copies(claims[k].jobs, m) == A.One(s.messages[m].campaign == claims[k].campaign)
            && claims[k].campaign < |s.campaigns|
            && forall i :: 0 <= i < |claims[k].jobs| ==>
                 var job := claims[k].jobs[i];
                 && job.message < |s.messages|
                 && job == Job(job.message, claims[k].campaign, s.campaigns[claims[k].campaign].instance,
                               s.messages[job.message].attempts)
  {
    hide Step, Reachable;
    ClaimReachable(cfg, s, batchSize, claims);
    var claimed := DoClaimDue(s, batchSize, claims);
    ClaimedExists(cfg, s, batchSize, claims, k);
    PublishLoop(cfg, claimed, claims, pushes, k, claims[k].campaign);
    OneMorePublish(cfg, claimed, pushes, k);
    A.CopiesOfDistinct(claims[k].jobs, m);
    ListsExactly(s, claims[k], m);
  }

  lemma ClaimedExists(cfg: Config, s: State, batchSize: int, claims: seq<Claimed>, k: nat)
    requires Reachable(cfg, s) && CanClaimDue(s, batchSize, claims) && k < |claims|
    ensures claims[k].campaign < |s.campaigns| == |s.log|
  {
    LogLength(cfg, s);
    assert Campaigns(claims)[k] in DueCampaigns(s.campaigns, s.clock);
  }

  // --------------------------------------------- a publish fails inside a batch

  /** Neither published nor about to be by its own `Create` call. */
  predicate Unpublished(s: State, c: CampaignId) {
    c < |s.log| == |s.campaigns| && !Published(s.log[c]) && c !in s.creating
  }

  /** Released for good, but never published. */
  ghost predicate Abandoned(s: State, c: CampaignId) {
    ReleasedForGood(s, c) && Unpublished(s, c)
  }

  lemma UnpublishedPublish(s: State, ok: bool, c: CampaignId)
    requires Unpublished(s, c) && !Claims(s.scheduler, c)
    ensures Unpublished(DoPublishClaimed(s, ok), c)
  {
  }

  lemma UnpublishedWork(cfg: Config, s: State, ok: bool, answer: Answer, c: CampaignId)
    requires Unpublished(s, c)
    ensures Unpublished(DoWork(cfg, s, ok, answer), c)
  {
    hide DoSend, ShouldRetry;
    if s.worker.Sending? {
      UnpublishedSend(s, s.worker.job, s.worker.item, answer, c);
    }
  }

  lemma UnpublishedSend(s: State, job: Job, item: M.Message, answer: Answer, c: CampaignId)
    requires Unpublished(s, c)
    ensures Unpublished(DoSend(s, job, item, answer), c)
  {
  }

  lemma AbandonedStep(cfg: Config, s: State, e: Event, c: CampaignId)
    requires Abandoned(s, c)
    ensures Abandoned(Step(cfg, s, e), c)
  {
    hide DoWork, DoPublishClaimed, CanClaimDue, CanClaimRetries, ReceiveAll, Sweep, CountSweep;
    ReleasedStep(cfg, s, e, c);
    match e
    case PublishClaimed(ok) => UnpublishedPublish(s, ok, c);
    case Work(ok, answer) => UnpublishedWork(cfg, s, ok, answer, c);
    case _ =>
  }

  /** An abandoned campaign is never sent: no tick, retry, reschedule, cancel or resume brings it back. */
  lemma {:induction false} AbandonedForever(cfg: Config, s: State, es: seq<Event>, c: CampaignId)
    requires Inv(cfg, s) && Abandoned(s, c)
    ensures Abandoned(Run(cfg, s, es), c) && G.Silent(Run(cfg, s, es), c)
  {
    hide Step;
    InvAlways(cfg, s, es);
    if es != [] {
      AbandonedForever(cfg, s, es[..|es| - 1], c);
      AbandonedStep(cfg, Run(cfg, s, es[..|es| - 1]), es[|es| - 1], c);
    }
    G.SilentWhileUnpublished(cfg, Run(cfg, s, es), c);
  }

  /** Scheduled, neither released nor cancelled, for an instant that has come. */
  predicate ScheduledAgain(c: C.Campaign, now: Time) {
    && c.status.Scheduled? && c.releasedAt.None? && c.cancelledAt.None?
    && c.scheduledAt.Some? && c.scheduledAt.value <= now
  }

  /** A claimed campaign was published by this tick, or is scheduled again. */
  predicate Accounted(s: State, c: CampaignId) {
    c < |s.campaigns| && c < |s.log| && (s.log[c].releasePublishes >= 1 || ScheduledAgain(s.campaigns[c], s.clock))
  }

  lemma ClaimedFacts(cfg: Config, s: State, batchSize: int, claims: seq<Claimed>, k: nat)
    requires Inv(cfg, s) && CanClaimDue(s, batchSize, claims) && k < |claims|
    ensures var c := claims[k].campaign; var t := DoClaimDue(s, batchSize, claims);
            && c < |s.campaigns| == |s.log| && s.log[c].releasePublishes == 0
            && ScheduledAgain(s.campaigns[c], s.clock) && t.campaigns[c].mode.Later?
            && t.campaigns[c] == s.campaigns[c].(status := C.Pending, releasedAt := Some(s.clock))
            && (s.log[c].bornScheduled ==> s.log[c].createPublishes == 0 && c !in s.creating)
  {
    hide Inv;
    var c := claims[k].campaign;
    ClaimedIsDue(s, batchSize, claims, k);
    PublishFacts(cfg, s, c);
    hide CanClaimDue, C.Due;
  }

  lemma ClaimedIsDue(s: State, batchSize: int, claims: seq<Claimed>, k: nat)
    requires CanClaimDue(s, batchSize, claims) && k < |claims|
    ensures var c := claims[k].campaign; var t := DoClaimDue(s, batchSize, claims);
            && c < |s.campaigns| == |t.campaigns| && ScheduledAgain(s.campaigns[c], s.clock)
            && t.campaigns[c] == s.campaigns[c].(status := C.Pending, releasedAt := Some(s.clock))
            && t.clock == s.clock
  {
    assert Campaigns(claims)[k] == claims[k].campaign;
    assert Campaigns(claims)[k] in DueCampaigns(s.campaigns, s.clock);
  }

  lemma PublishFacts(cfg: Config, s: State, c: CampaignId)
    requires Inv(cfg, s) && c < |s.campaigns|
    ensures |s.log| == |s.campaigns| && CampaignOk(s.campaigns[c])
    ensures PublishOk(s.campaigns[c], s.log[c], c in s.creating, Claims(s.scheduler, c))
  {
  }

  /** When publish number `i` fails, under any interference, every claimed campaign is published or scheduled again
      exactly if the failing campaign was the last of its batch and its revert succeeded. */
  lemma AllAccountedIffLast(cfg: Config, s: State, batchSize: int, claims: seq<Claimed>, pushes: seq<Push>, i: nat,
                            revert: Push)
    requires Reachable(cfg, s) && CanClaimDue(s, batchSize, claims) && Ended(claims, pushes, i, true, revert)
    ensures var t := TickEnd(cfg, DoClaimDue(s, batchSize, claims), pushes, i, true, revert);
            (forall k :: 0 <= k < |claims| ==> Accounted(t, claims[k].campaign)) <==> i == |claims| - 1 && revert.ok
  {
    hide Step, Reachable;
    var t := TickEnd(cfg, DoClaimDue(s, batchSize, claims), pushes, i, true, revert);
    forall k | 0 <= k < |claims|
      ensures Accounted(t, claims[k].campaign) <==> k < i || (k == i && revert.ok)
    {
      AccountedFacts(cfg, s, batchSize, claims, pushes, i, revert, k);
    }
    assert Accounted(t, claims[i].campaign) <==> revert.ok;
    assert Accounted(t, claims[|claims| - 1].campaign) <==> |claims| - 1 == i && revert.ok;
  }

  lemma AccountedFacts(cfg: Config, s: State, batchSize: int, claims: seq<Claimed>, pushes: seq<Push>, i: nat,
                       revert: Push, k: nat)
    requires Reachable(cfg, s) && CanClaimDue(s, batchSize, claims) && Ended(claims, pushes, i, true, revert)
    requires k < |claims|
    ensures var t := TickEnd(cfg, DoClaimDue(s, batchSize, claims), pushes, i, true, revert);
            && (Accounted(t, claims[k].campaign) <==> k < i || (k == i && revert.ok))
            && t.scheduler.Resting?
  {
    hide Step, Reachable, Inv;
    ClockGrows(cfg, DoClaimDue(s, batchSize, claims), ReleaseEvents(pushes, i + 1, true, revert));
    ClaimedIsDue(s, batchSize, claims, k);
    G.InvHere(cfg, s);
    ClaimReachable(cfg, s, batchSize, claims);
    ClaimedFacts(cfg, s, batchSize, claims, k);
    NotAmong(claims, i, k);
    Among(claims, i, k);
    TickOutcome(cfg, DoClaimDue(s, batchSize, claims), claims, pushes, i, true, revert, claims[k].campaign);
  }

  lemma Among(claims: seq<Claimed>, i: nat, k: nat)
    requires i <= |claims| && k < |claims|
    ensures k < i ==> claims[k].campaign in Campaigns(claims[..i])
  {
    if k < i {
      assert Campaigns(claims[..i])[k] == claims[k].campaign;
    }
  }

  /** A failed publish is retried: when its revert succeeds, under any interference, the campaign is scheduled for the
      instant it was claimed for, due from the claim on, and a later tick claims it unless its batch is full of
      campaigns that are due no later. */
  lemma FailedPublishIsRetried(cfg: Config, s: State, batchSize: int, claims: seq<Claimed>, pushes: seq<Push>, i: nat,
                               revert: Push, now: Time, nextSize: int, next: seq<Claimed>)
    requires Reachable(cfg, s) && CanClaimDue(s, batchSize, claims) && Ended(claims, pushes, i, true, revert)
    requires revert.ok && now >= s.clock
    ensures var t := TickEnd(cfg, DoClaimDue(s, batchSize, claims), pushes, i, true, revert);
            var c := claims[i].campaign;
            && c < |s.campaigns| && c < |t.campaigns|
            && ScheduledAgain(t.campaigns[c], s.clock) && t.campaigns[c].scheduledAt == s.campaigns[c].scheduledAt
            && c in DueCampaigns(t.campaigns, now) && t.scheduler.Resting?
            && (CanClaimDue(t.(clock := now), nextSize, next) ==>
                  || c in Campaigns(next)
                  || (&& |next| == Effective(nextSize, 25)
                      && forall k :: 0 <= k < |next| ==>
                           && next[k].campaign < |t.campaigns| && t.campaigns[next[k].campaign].scheduledAt.Some?
                           && t.campaigns[next[k].campaign].scheduledAt.value <= t.campaigns[c].scheduledAt.value))
  {
    hide Step, Reachable, Inv;
    var t := TickEnd(cfg, DoClaimDue(s, batchSize, claims), pushes, i, true, revert);
    var c := claims[i].campaign;
    G.InvHere(cfg, s);
    ClaimReachable(cfg, s, batchSize, claims);
    ClaimedFacts(cfg, s, batchSize, claims, i);
    TickOutcome(cfg, DoClaimDue(s, batchSize, claims), claims, pushes, i, true, revert, c);
    if CanClaimDue(t.(clock := now), nextSize, next) {
      NextBatchReaches(t.(clock := now), nextSize, next, c);
    }
  }

  lemma NextBatchReaches(t: State, nextSize: int, next: seq<Claimed>, c: CampaignId)
    requires CanClaimDue(t, nextSize, next) && c < |t.campaigns| && ScheduledAgain(t.campaigns[c], t.clock)
    ensures c in Campaigns(next)
      || (&& |next| == Effective(nextSize, 25)
          && forall k :: 0 <= k < |next| ==>
               && next[k].campaign < |t.campaigns| && t.campaigns[next[k].campaign].scheduledAt.Some?
               && t.campaigns[next[k].campaign].scheduledAt.value <= t.campaigns[c].scheduledAt.value)
  {
    var due := DueCampaigns(t.campaigns, t.clock);
    B.BatchReaches(Campaigns(next), due, Effective(nextSize, 25), c);
    forall k | 0 <= k < |next| ensures Campaigns(next)[k] in due && Campaigns(next)[k] == next[k].campaign {}
  }

  /** The campaigns behind the failing one that nothing else published are abandoned: released, unpublished, and silent
      in every continuation. */
  lemma RestOfBatchAbandoned(cfg: Config, s: State, batchSize: int, claims: seq<Claimed>, pushes: seq<Push>, i: nat,
                             revert: Push, k: nat, es: seq<Event>)
    requires Reachable(cfg, s) && CanClaimDue(s, batchSize, claims) && Ended(claims, pushes, i, true, revert)
    requires i < k < |claims| && claims[k].campaign < |s.log|
    requires !Published(s.log[claims[k].campaign]) && claims[k].campaign !in s.creating
    ensures var t := TickEnd(cfg, DoClaimDue(s, batchSize, claims), pushes, i, true, revert);
            Abandoned(t, claims[k].campaign) && G.Silent(Run(cfg, t, es), claims[k].campaign)
  {
    hide Step, Reachable, Inv;
    var c := claims[k].campaign;
    var claimed := DoClaimDue(s, batchSize, claims);
    var t := TickEnd(cfg, claimed, pushes, i, true, revert);
    G.InvHere(cfg, s);
    ClaimReachable(cfg, s, batchSize, claims);
    ClaimedFacts(cfg, s, batchSize, claims, k);
    NotAmong(claims, i, k);
    TickOutcome(cfg, claimed, claims, pushes, i, true, revert, c);
    StillReachable(cfg, claimed, ReleaseEvents(pushes, i + 1, true, revert));
    LogLength(cfg, t);
    assert Abandoned(t, c);
    G.InvHere(cfg, t);
    AbandonedForever(cfg, t, es, c);
  }

  // ------------------------------------------------------------- it happens

  /** Two campaigns of one message each, created for the same past instant. */
  const BOTH_SCHEDULED: State := State(
    0, [M.New(0), M.New(1)], [C.New("line", Some(0), 1), C.New("line", Some(0), 1)], [], [], [], {}, Resting, Idle, [],
    {}, {}, [Tally(0, 0, 0, 0, 0), Tally(0, 0, 0, 0, 0)], [Log(0, true, 0, 0, [], 0), Log(1, true, 0, 0, [], 0)])

  const BOTH: seq<Claimed> := [Claimed(0, [Job(0, 0, "line", 0)]), Claimed(1, [Job(1, 1, "line", 0)])]

  const BOTH_CREATED: seq<Event> := [Event.Create("line", Some(0), 1), Event.Create("line", Some(0), 1)]

  function FailedTick(batch: int): seq<Event> {
    [ClaimDue(batch, BOTH), PublishClaimed(false), RevertRelease(true)]
  }

  lemma BothAreScheduled(cfg: Config)
    ensures Run(cfg, Init(0), BOTH_CREATED) == BOTH_SCHEDULED
  {
    assert C.FreshRows(0, 1) == [M.New(0)] && C.FreshRows(1, 1) == [M.New(1)] && Blank(1) == [Tally(0, 0, 0, 0, 0)];
    R.TwoSteps(cfg, Init(0), BOTH_CREATED[0], BOTH_CREATED[1]);
    assert BOTH_CREATED == [BOTH_CREATED[0], BOTH_CREATED[1]];
  }

  lemma BothAreClaimed(s: State, batch: int)
    requires s == BOTH_SCHEDULED && Effective(batch, 25) >= 2
    ensures CanClaimDue(s, batch, BOTH) && Campaigns(BOTH) == [0, 1]
  {
    assert Campaigns(BOTH) == [0, 1];
    assert DueCampaigns(s.campaigns, s.clock) == map[0 := 0, 1 := 0];
    forall i | 0 <= i < |BOTH| ensures Lists(s.messages, s.campaigns, BOTH[i].campaign, BOTH[i].jobs) {
      assert MessagesOf(BOTH[i].jobs) == [i];
    }
  }

  lemma ClaimTakesBoth(cfg: Config, batch: int)
    requires Effective(batch, 25) >= 2
    ensures var t := Step(cfg, BOTH_SCHEDULED, ClaimDue(batch, BOTH));
            && t.scheduler == Publishing(BOTH) && |t.campaigns| == 2 && t.log == BOTH_SCHEDULED.log && t.creating == {}
            && t.campaigns[1].releasedAt.Some?
  {
    BothAreClaimed(BOTH_SCHEDULED, batch);
    hide CanClaimDue;
  }

  lemma FirstFails(cfg: Config, s: State)
    requires s.scheduler == Publishing(BOTH) && |s.campaigns| == 2 && s.log == BOTH_SCHEDULED.log && s.creating == {}
    requires s.campaigns[1].releasedAt.Some?
    ensures Abandoned(Step(cfg, Step(cfg, s, PublishClaimed(false)), RevertRelease(true)), 1)
  {
  }

  /** From the empty system: the publish of the first of two due campaigns fails, and the second is abandoned although
      its turn never came. It takes batches of two or more. */
  lemma SecondIsAbandoned(cfg: Config, batch: int)
    requires Effective(batch, 25) >= 2
    ensures Permitted(cfg, batch, Init(0), BOTH_CREATED + FailedTick(batch))
    ensures Abandoned(Run(cfg, Init(0), BOTH_CREATED + FailedTick(batch)), 1)
  {
    hide Step, Abandoned, Permitted;
    BothAreScheduled(cfg);
    ClaimTakesBoth(cfg, batch);
    var claim, fail, revert := ClaimDue(batch, BOTH), PublishClaimed(false), RevertRelease(true);
    FirstFails(cfg, Step(cfg, BOTH_SCHEDULED, claim));
    R.ThreeSteps(cfg, BOTH_SCHEDULED, claim, fail, revert);
    FreeIsPermitted(cfg, batch, Init(0), BOTH_CREATED);
    OneIsPermitted(cfg, batch, BOTH_SCHEDULED, claim);
    FreeIsPermitted(cfg, batch, Run(cfg, BOTH_SCHEDULED, [claim]), [fail, revert]);
    Join(cfg, batch, BOTH_SCHEDULED, [claim], [fail, revert]);
    assert FailedTick(batch) == [claim] + [fail, revert] == [claim, fail, revert];
    Join(cfg, batch, Init(0), BOTH_CREATED, FailedTick(batch));
  }
}
