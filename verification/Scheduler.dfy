/** `CampaignScheduler`: what its ticks release when nothing else moves and no publish fails. */
module Scheduler {
  import opened Basics
  import opened Protocol
  import opened Interleaving
  import opened Platform
  import opened Batches
  import opened CampaignService
  import A = Accounting

  function JobsIn(claims: seq<Claimed>): seq<Job> {
    if claims == [] then [] else JobsIn(claims[..|claims| - 1]) + claims[|claims| - 1].jobs
  }

  /** The state after the first `n` publishes. */
  ghost predicate PublishedSoFar(s: State, claims: seq<Claimed>, n: nat, t: State)
    requires n <= |claims|
  {
    && t.scheduler == NextClaims(claims[n..]) && t.queue == s.queue + JobsIn(claims[..n])
    && t.campaigns == s.campaigns && t.messages == s.messages && t.clock == s.clock
    && t.timers == s.timers && t.swept == s.swept && t.worker == s.worker && t.creating == s.creating
    && LoggedSoFar(s.log, claims, n, t.log)
  }

  /** The first `n` claims were published by this call, nothing else was. */
  ghost predicate LoggedSoFar(log: seq<Log>, claims: seq<Claimed>, n: nat, log': seq<Log>)
    requires n <= |claims|
  {
    && |log'| == |log|
    && (forall k :: 0 <= k < n && claims[k].campaign < |log| ==>
          log'[claims[k].campaign].releasePublishes > log[claims[k].campaign].releasePublishes)
    && (forall c :: 0 <= c < |log| && c !in Campaigns(claims[..n]) ==> log'[c] == log[c])
    && (forall c :: 0 <= c < |log| ==> log'[c].releasePublishes >= log[c].releasePublishes)
  }

  lemma {:induction false} QuietPublishes(cfg: Config, s: State, claims: seq<Claimed>, pushes: seq<Push>, n: nat)
    requires Reachable(cfg, s) && s.scheduler == NextClaims(claims) && Undisturbed(pushes) && n <= |claims|
             && n <= |pushes|
    ensures PublishedSoFar(s, claims, n, Run(cfg, s, Pushes(pushes[..n], Publish)))
  {
    hide Step;
    if n > 0 {
      var before := Run(cfg, s, Pushes(pushes[..n - 1], Publish));
      QuietPublishes(cfg, s, claims, pushes, n - 1);
      OneMorePublish(cfg, s, pushes, n - 1);
      PublishStep(s, claims, n - 1, before);
    }
  }

  lemma LogStep(log: seq<Log>, claims: seq<Claimed>, n: nat, log': seq<Log>, log'': seq<Log>)
    requires n < |claims| && LoggedSoFar(log, claims, n, log') && claims[n].campaign < |log'| == |log''|
    requires forall c :: 0 <= c < |log'| ==>
               if c == claims[n].campaign then log''[c].releasePublishes == log'[c].releasePublishes + 1
                 else log''[c] == log'[c]
    ensures LoggedSoFar(log, claims, n + 1, log'')
  {
    assert Campaigns(claims[..n + 1]) == Campaigns(claims[..n]) + [claims[n].campaign];
  }

  lemma PublishStep(s: State, claims: seq<Claimed>, n: nat, t: State)
    requires n < |claims| && PublishedSoFar(s, claims, n, t) && claims[n].campaign < |t.log|
    ensures PublishedSoFar(s, claims, n + 1, DoPublishClaimed(t, true))
  {
    assert claims[n..][1..] == claims[n + 1..];
    assert claims[..n + 1][..n] == claims[..n];
    LogStep(s.log, claims, n, t.log, DoPublishClaimed(t, true).log);
    assert s.queue + JobsIn(claims[..n]) + claims[n].jobs == s.queue + (JobsIn(claims[..n]) + claims[n].jobs);
  }

  /** The jobs of the claims hold every message of a claimed campaign once, and no other. */
  lemma {:induction false} CopiesInClaims(s: State, claims: seq<Claimed>, m: MessageId)
    requires forall i :: 0 <= i < |claims| ==> Lists(s.messages, s.campaigns, claims[i].campaign, claims[i].jobs)
    requires Distinct(Campaigns(claims)) && m < |s.messages|
    ensures A.Copies(JobsIn(claims), m) == A.One(s.messages[m].campaign in Campaigns(claims))
  {
    if claims != [] {
      var n := |claims| - 1;
      var last := claims[n];
      assert Campaigns(claims)[..n] == Campaigns(claims[..n]) && Campaigns(claims)[n] == last.campaign;
      assert Campaigns(claims) == Campaigns(claims[..n]) + [last.campaign];
      CopiesInClaims(s, claims[..n], m);
      A.CopiesConcat(JobsIn(claims[..n]), last.jobs, m);
      A.CopiesOfDistinct(last.jobs, m);
      ListsExactly(s, last, m);
    }
  }

  lemma ListsExactly(s: State, claim: Claimed, m: MessageId)
    requires Lists(s.messages, s.campaigns, claim.campaign, claim.jobs) && m < |s.messages|
    ensures m in MessagesOf(claim.jobs) <==> s.messages[m].campaign == claim.campaign
  {
    if m in MessagesOf(claim.jobs) {
      var i :| 0 <= i < |claim.jobs| && MessagesOf(claim.jobs)[i] == m;
      assert claim.jobs[i].message == m;
    }
  }

  /** A tick that nothing disturbs releases the claimed campaigns and appends to the list exactly one job per message of
      each of them, and nothing else. */
  lemma UndisturbedRelease(cfg: Config, s: State, batchSize: int, claims: seq<Claimed>, pushes: seq<Push>, m: MessageId)
    requires Reachable(cfg, s) && CanClaimDue(s, batchSize, claims)
    requires Undisturbed(pushes) && |claims| <= |pushes| && m < |s.messages|
    ensures var t := Run(cfg, DoClaimDue(s, batchSize, claims), Pushes(pushes[..|claims|], Publish));
            && t.scheduler.Resting? && t.campaigns == ReleaseAll(s.campaigns, Campaigns(claims), s.clock)
            && t.messages == s.messages && t.clock == s.clock
            && t.queue == s.queue + JobsIn(claims)
            && A.Copies(t.queue, m) == A.Copies(s.queue, m) + A.One(s.messages[m].campaign in Campaigns(claims))
  {
    hide Step;
    ClaimReachable(cfg, s, batchSize, claims);
    var claimed := DoClaimDue(s, batchSize, claims);
    QuietPublishes(cfg, claimed, claims, pushes, |claims|);
    assert claims[..|claims|] == claims;
    CopiesInClaims(s, claims, m);
    A.CopiesConcat(s.queue, JobsIn(claims), m);
  }

  class CampaignScheduler {
    const service: CampaignService
    const batchSize: int

    constructor (service: CampaignService, batchSize: int)
      ensures this.service == service && this.batchSize == batchSize
    {
      this.service, this.batchSize := service, batchSize;
    }

    /** `run` for the given number of ticks: each tick that nothing disturbs drains one batch. */
    method RunTicks(ticks: nat)
      requires Reachable(service.cfg, service.world.View()) && service.world.View().scheduler.Resting?
      modifies service.world, service.world.repository, service.world.redis
      ensures var due := old(DueCampaigns(service.world.View().campaigns, service.world.View().clock));
              |DueCampaigns(service.world.View().campaigns, service.world.View().clock)|
              == Max(0, |due| - ticks * Effective(batchSize, 25))
      ensures service.world.View().clock == old(service.world.View().clock)
      ensures service.world.View().messages == old(service.world.View().messages)
      ensures service.world.View().scheduler.Resting?
    {
      ghost var n := |DueCampaigns(service.world.View().campaigns, service.world.View().clock)|;
      for tick := 0 to ticks
        invariant Reachable(service.cfg, service.world.View()) && service.world.View().scheduler.Resting?
        invariant service.world.View().clock == old(service.world.View().clock)
        invariant service.world.View().messages == old(service.world.View().messages)
        invariant |DueCampaigns(service.world.View().campaigns, service.world.View().clock)|
                  == Max(0, n - tick * Effective(batchSize, 25))
      {
        Tick();
        LessPerTick(n, Effective(batchSize, 25), tick);
      }
    }

    /** One tick of `run`; its error would only be logged. */
    method Tick()
      requires Reachable(service.cfg, service.world.View()) && service.world.View().scheduler.Resting?
      modifies service.world, service.world.repository, service.world.redis
      ensures Reachable(service.cfg, service.world.View()) && service.world.View().scheduler.Resting?
      ensures service.world.View().clock == old(service.world.View().clock)
      ensures service.world.View().messages == old(service.world.View().messages)
      ensures |DueCampaigns(service.world.View().campaigns, service.world.View().clock)|
              == Max(0, old(|DueCampaigns(service.world.View().campaigns, service.world.View().clock)|)
                        - Effective(batchSize, 25))
    {
      var pushes := seq(Effective(batchSize, 25), _ => Push([], true));
      ghost var s := service.world.View();
      var claimed, published, failed := service.ReleaseDueScheduled(batchSize, true, pushes, Push([], true));
      UndisturbedTick(service.cfg, s, batchSize, claimed, pushes, service.world.View());
    }
  }

  lemma UndisturbedTick(cfg: Config, s: State, batchSize: int, claimed: seq<ClaimedCampaign>, pushes: seq<Push>,
                        t: State)
    requires Reachable(cfg, s) && CanClaimDue(s, batchSize, ClaimsOf(claimed)) && Undisturbed(pushes)
             && |claimed| <= |pushes|
    requires Released(cfg, DoClaimDue(s, batchSize, ClaimsOf(claimed)), pushes, |claimed|, false, Push([], true), t)
    ensures Reachable(cfg, t) && t.clock == s.clock && t.messages == s.messages
    ensures |DueCampaigns(t.campaigns, t.clock)|
            == Max(0, |DueCampaigns(s.campaigns, s.clock)| - Effective(batchSize, 25))
  {
    hide Step;
    var claims := ClaimsOf(claimed);
    var claimedState := DoClaimDue(s, batchSize, claims);
    assert ReleaseEvents(pushes, |claimed|, false, Push([], true)) == Pushes(pushes[..|claimed|], Publish);
    ClaimReachable(cfg, s, batchSize, claims);
    StillReachable(cfg, claimedState, Pushes(pushes[..|claimed|], Publish));
    QuietPublishes(cfg, claimedState, claims, pushes, |claims|);
    ReleasedAreGone(s.campaigns, s.clock, Campaigns(claims));
    OneTick(DueCampaigns(s.campaigns, s.clock), Effective(batchSize, 25), Campaigns(claims));
  }
}
