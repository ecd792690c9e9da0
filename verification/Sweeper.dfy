/** The retry goroutines: timers, and the ticks of `runRetrySweeper`. */
module Sweeper {
  import opened Basics
  import opened Protocol
  import opened Invariants
  import opened Interleaving
  import opened Platform
  import B = Batches
  import O = Origins

  /** The others may do anything but sweep or die. */
  predicate LeavesSwept(env: seq<Event>) {
    forall i :: 0 <= i < |env| ==> !env[i].ClaimRetries? && !env[i].RequeueSwept? && !env[i].Crash?
  }

  function Requeue(ok: bool): Event {
    RequeueSwept(ok)
  }

  lemma {:induction false} OthersLeaveSwept(cfg: Config, s: State, env: seq<Event>)
    requires LeavesSwept(env)
    ensures Run(cfg, s, env).swept == s.swept
  {
    if env != [] {
      OthersLeaveSwept(cfg, s, env[..|env| - 1]);
      OtherLeavesSwept(cfg, Run(cfg, s, env[..|env| - 1]), env[|env| - 1]);
    }
  }

  lemma OtherLeavesSwept(cfg: Config, s: State, e: Event)
    requires !e.ClaimRetries? && !e.RequeueSwept? && !e.Crash?
    ensures Step(cfg, s, e).swept == s.swept
  {
  }

  lemma OneMoreRequeue(cfg: Config, s: State, pushes: seq<Push>, n: nat)
    requires n < |pushes| && LeavesSwept(pushes[n].env)
    ensures var mid := Run(cfg, Run(cfg, s, Pushes(pushes[..n], Requeue)), pushes[n].env);
            && Run(cfg, s, Pushes(pushes[..n + 1], Requeue)) == DoRequeueSwept(mid, pushes[n].ok)
            && mid.swept == Run(cfg, s, Pushes(pushes[..n], Requeue)).swept
  {
    OneMorePush(cfg, s, pushes, Requeue, n);
    OthersLeaveSwept(cfg, Run(cfg, s, Pushes(pushes[..n], Requeue)), pushes[n].env);
  }

  /** The goroutine of one armed timer: it pushes its job once and is gone. */
  method FireTimer(world: World, index: nat, ok: bool)
    requires index < |world.timers|
    modifies world`timers, world.redis
    ensures world.View() == DoFireTimer(old(world.View()), index, ok)
    ensures world.redis.items == if ok then old(world.redis.items) + [old(world.timers)[index]]
            else old(world.redis.items)
    ensures world.timers == old(world.timers)[..index] + old(world.timers)[index + 1..]
  {
    var failed := world.redis.RequeueCampaignMessage(world.timers[index], ok);
    world.timers := world.timers[..index] + world.timers[index + 1..];
  }

  /** One tick of `runRetrySweeper`: claim up to 200 due retries in one statement, then push the jobs one
      by one; a failed push loses its job, a failed claim ends the tick. */
  method Tick(world: World, cfg: Config, claim: Push, pushes: seq<Push>) returns (picked: seq<MessageId>, failed: bool)
    requires Reachable(cfg, world.View()) && world.View().swept == []
    requires LeavesSwept(claim.env) && |pushes| == 200 && forall i :: 0 <= i < |pushes| ==> LeavesSwept(pushes[i].env)
    modifies world, world.repository, world.redis
    ensures failed == !claim.ok && |picked| <= 200 && world.View().swept == []
    ensures failed ==> picked == [] && world.View() == Run(cfg, old(world.View()), claim.env)
    ensures !failed ==>
              var met := Run(cfg, old(world.View()), claim.env);
              && CanClaimRetries(met, 200, picked)
              && Pushed(cfg, DoClaimRetries(met, 200, picked), pushes, Requeue, |picked|, world.View())
              && forall i :: 0 <= i < |picked| ==> O.DueRow(met, picked[i])
  {
    hide Step, CanClaimRetries, DoClaimRetries, Reachable;
    var jobs;
    jobs, failed := Claim(world, cfg, claim);
    picked := MessagesOf(jobs);
    if failed {
      return;
    }
    forall i | 0 <= i < |picked| ensures O.DueRow(Run(cfg, old(world.View()), claim.env), picked[i]) {
      O.DueIsPicked(Run(cfg, old(world.View()), claim.env), 200, picked, picked[i]);
    }
    ghost var claimed := world.View();
    NoPushYet(cfg, claimed, pushes, Requeue);
    for i := 0 to |jobs|
      invariant Pushed(cfg, claimed, pushes, Requeue, i, world.View()) && world.View().swept == jobs[i..]
    {
      PushOne(world, cfg, claimed, pushes, i, jobs[i]);
    }
  }

  method PushOne(world: World, cfg: Config, ghost claimed: State, pushes: seq<Push>, i: nat, job: Job)
    requires i < |pushes| && LeavesSwept(pushes[i].env)
    requires Pushed(cfg, claimed, pushes, Requeue, i, world.View()) && world.View().swept != []
             && world.View().swept[0] == job
    modifies world, world.repository, world.redis
    ensures Pushed(cfg, claimed, pushes, Requeue, i + 1, world.View())
            && world.View().swept == old(world.View().swept)[1..]
  {
    OneMoreRequeue(cfg, claimed, pushes, i);
    world.Others(cfg, pushes[i].env);
    var before := world.View();
    var failed := world.redis.RequeueCampaignMessage(job, pushes[i].ok);
    world.Note(DoRequeueSwept(before, pushes[i].ok));
  }

  method Claim(world: World, cfg: Config, claim: Push) returns (jobs: seq<Job>, failed: bool)
    requires Reachable(cfg, world.View()) && world.View().swept == [] && LeavesSwept(claim.env)
    modifies world, world.repository, world.redis
    ensures failed == !claim.ok && |jobs| <= 200
    ensures failed ==> jobs == [] && world.View() == Run(cfg, old(world.View()), claim.env)
    ensures !failed ==>
              var met := Run(cfg, old(world.View()), claim.env);
              CanClaimRetries(met, 200, MessagesOf(jobs)) && world.View() == DoClaimRetries(met, 200, MessagesOf(jobs))
    ensures world.View().swept == jobs
  {
    OwnersExist(cfg, world.View(), claim.env);
    OthersLeaveSwept(cfg, world.View(), claim.env);
    world.Others(cfg, claim.env);
    jobs, failed := ClaimNow(world, claim.ok);
  }

  method ClaimNow(world: World, ok: bool) returns (jobs: seq<Job>, failed: bool)
    requires world.View().swept == [] && OwnersOk(world.View())
    modifies world, world.repository
    ensures failed == !ok && |jobs| <= 200 && world.View().swept == jobs
    ensures failed ==> jobs == [] && world.View() == old(world.View())
    ensures ok ==>
              && CanClaimRetries(old(world.View()), 200, MessagesOf(jobs))
              && world.View() == DoClaimRetries(old(world.View()), 200, MessagesOf(jobs))
  {
    var before := world.View();
    jobs, failed := world.repository.ClaimDueRetryJobs(200, ok);
    if failed {
      return;
    }
    assert SweptJobs(before, MessagesOf(jobs)) == jobs;
    world.Note(DoClaimRetries(before, 200, MessagesOf(jobs)));
  }

  predicate OwnersOk(s: State) {
    forall m :: 0 <= m < |s.messages| ==> s.messages[m].campaign < |s.campaigns|
  }

  lemma OwnersExist(cfg: Config, s: State, env: seq<Event>)
    requires Reachable(cfg, s)
    ensures OwnersOk(Run(cfg, s, env))
  {
    StillReachable(cfg, s, env);
    ReachableIsCore(cfg, Run(cfg, s, env));
    var t := Run(cfg, s, env);
    forall m | 0 <= m < |t.messages| ensures t.messages[m].campaign < |t.campaigns| {
      assert Dir(t).owner[m] == t.messages[m].campaign;
    }
  }

  // -------------------------------------------------------- undisturbed ticks

  /** How many retries are due. */
  function DueCount(s: State): nat {
    |DueRetries(s.messages, s.campaigns, s.clock)|
  }

  /** The state after the first `n` swept jobs were pushed. */
  ghost predicate RequeuedSoFar(s: State, n: nat, t: State)
    requires n <= |s.swept|
  {
    && t.swept == s.swept[n..] && t.queue == s.queue + s.swept[..n]
    && t.messages == s.messages && t.campaigns == s.campaigns && t.clock == s.clock
  }

  lemma {:induction false} QuietRequeues(cfg: Config, s: State, pushes: seq<Push>, n: nat)
    requires Undisturbed(pushes) && n <= |pushes| && n <= |s.swept|
    ensures RequeuedSoFar(s, n, Run(cfg, s, Pushes(pushes[..n], Requeue)))
  {
    hide Step, DoRequeueSwept;
    if n > 0 {
      hide RequeuedSoFar;
      var before := Run(cfg, s, Pushes(pushes[..n - 1], Requeue));
      QuietRequeues(cfg, s, pushes, n - 1);
      OneMoreRequeue(cfg, s, pushes, n - 1);
      assert Run(cfg, before, []) == before;
      RequeueStep(s, n - 1, before);
    }
  }

  lemma RequeueStep(s: State, n: nat, t: State)
    requires n < |s.swept| && RequeuedSoFar(s, n, t)
    ensures RequeuedSoFar(s, n + 1, DoRequeueSwept(t, true))
  {
    assert s.swept[n..][1..] == s.swept[n + 1..] && s.swept[..n + 1] == s.swept[..n] + [s.swept[n]];
  }

  /** A tick that nothing disturbs moves its batch of due retries into the list, in the order of the claim. */
  lemma UndisturbedSweep(cfg: Config, s: State, picked: seq<MessageId>, pushes: seq<Push>)
    requires OwnersOk(s) && CanClaimRetries(s, 200, picked) && Undisturbed(pushes) && |picked| <= |pushes|
    ensures forall i :: 0 <= i < |picked| ==> picked[i] < |s.messages|
    ensures var t := Run(cfg, DoClaimRetries(s, 200, picked), Pushes(pushes[..|picked|], Requeue));
            && t.swept == [] && t.queue == s.queue + SweptJobs(s, picked)
            && t.messages == Sweep(s.messages, picked) && t.campaigns == s.campaigns && t.clock == s.clock
            && DueCount(t) == Max(0, DueCount(s) - 200)
            && |picked| == DueCount(s) - DueCount(t)
  {
    hide Step, CanClaimRetries, DoClaimRetries, DueRetries, Sweep, Pushes;
    SweepHolds(s, picked);
    var claimed := DoClaimRetries(s, 200, picked);
    QuietRequeues(cfg, claimed, pushes, |picked|);
    assert claimed.swept[..|picked|] == claimed.swept && claimed.swept[|picked|..] == [];
    SweepCount(s, picked);
  }

  lemma SweepHolds(s: State, picked: seq<MessageId>)
    requires OwnersOk(s) && CanClaimRetries(s, 200, picked)
    ensures forall i :: 0 <= i < |picked| ==> picked[i] < |s.messages|
    ensures var t := DoClaimRetries(s, 200, picked);
            && t.swept == SweptJobs(s, picked) && t.messages == Sweep(s.messages, picked)
            && t.queue == s.queue && t.campaigns == s.campaigns && t.clock == s.clock
  {
    forall i | 0 <= i < |picked| ensures picked[i] < |s.messages| {
      assert picked[i] in DueRetries(s.messages, s.campaigns, s.clock);
    }
  }

  lemma SweepCount(s: State, picked: seq<MessageId>)
    requires CanClaimRetries(s, 200, picked)
    ensures var due, left := DueRetries(s.messages, s.campaigns, s.clock),
                             DueRetries(Sweep(s.messages, picked), s.campaigns, s.clock);
            |left| == Max(0, |due| - 200) && |picked| == |due| - |left|
  {
    B.SweptAreGone(s.messages, s.campaigns, s.clock, picked);
    B.OneTick(DueRetries(s.messages, s.campaigns, s.clock), 200, picked);
  }

  /** `runRetrySweeper` for the given number of ticks that nothing disturbs: each moves one batch into the list. */
  method RunTicks(world: World, cfg: Config, ticks: nat)
    requires Reachable(cfg, world.View()) && world.View().swept == []
    modifies world, world.repository, world.redis
    ensures var before := old(DueCount(world.View()));
            var after := DueCount(world.View());
            after == Max(0, before - ticks * 200)
              && |world.View().queue| == |old(world.View().queue)| + (before - after)
    ensures old(world.View().queue) <= world.View().queue && world.View().swept == []
    ensures world.View().campaigns == old(world.View().campaigns) && world.View().clock == old(world.View().clock)
  {
    hide DueCount, Reachable;
    ghost var n := DueCount(world.View());
    for tick := 0 to ticks
      invariant Reachable(cfg, world.View()) && world.View().swept == []
      invariant world.View().campaigns == old(world.View().campaigns) && world.View().clock == old(world.View().clock)
      invariant old(world.View().queue) <= world.View().queue
      invariant var left := DueCount(world.View());
                left == Max(0, n - tick * 200) && |world.View().queue| == |old(world.View().queue)| + (n - left)
    {
      QuietTick(world, cfg);
      B.LessPerTick(n, 200, tick);
    }
  }

  method QuietTick(world: World, cfg: Config)
    requires Reachable(cfg, world.View()) && world.View().swept == []
    modifies world, world.repository, world.redis
    ensures Reachable(cfg, world.View()) && world.View().swept == []
    ensures world.View().campaigns == old(world.View().campaigns) && world.View().clock == old(world.View().clock)
    ensures old(world.View().queue) <= world.View().queue
    ensures var before := old(DueCount(world.View()));
            var after := DueCount(world.View());
            after == Max(0, before - 200) && |world.View().queue| == |old(world.View().queue)| + (before - after)
  {
    hide Step;
    var pushes := seq(200, _ => Push([], true));
    ghost var s := world.View();
    var picked, failed := Tick(world, cfg, Push([], true), pushes);
    OwnersExist(cfg, s, []);
    UndisturbedSweep(cfg, s, picked, pushes);
    TickReaches(cfg, s, picked, pushes);
  }

  lemma TickReaches(cfg: Config, s: State, picked: seq<MessageId>, pushes: seq<Push>)
    requires Reachable(cfg, s) && |picked| <= |pushes|
    ensures Reachable(cfg, Run(cfg, DoClaimRetries(s, 200, picked), Pushes(pushes[..|picked|], Requeue)))
  {
    hide Step;
    OneClaim(cfg, s, picked);
    StillReachable(cfg, s, [ClaimRetries(200, picked)]);
    StillReachable(cfg, DoClaimRetries(s, 200, picked), Pushes(pushes[..|picked|], Requeue));
  }

  lemma OneClaim(cfg: Config, s: State, picked: seq<MessageId>)
    ensures Run(cfg, s, [ClaimRetries(200, picked)]) == DoClaimRetries(s, 200, picked)
  {
    assert [ClaimRetries(200, picked)][..0] == [];
  }
}
