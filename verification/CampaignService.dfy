/** `CampaignService` and the scheduler loop over it. */
module CampaignService {
  import opened Basics
  import M = Messages
  import C = Campaigns
  import opened Protocol
  import opened Invariants
  import opened Interleaving
  import opened Platform
  import opened Selections
  import opened CreateInputs

  datatype Failure = InvalidInput | NotFound | InvalidState | Unavailable

  /** What the lookup of an external reference found, if the request carries one. */
  datatype External = NoReference | Unknown | Foreign | LookupFailed | Known(id: CampaignId)

  /** What a statement without a result means: the row is missing, or the database refused. */
  function Refusal(ok: bool): Failure {
    if ok then NotFound else Unavailable
  }

  // ------------------------------------------------------- requests on a row

  /** No step deletes a campaign. */
  lemma RowStays(cfg: Config, s: State, e: Event)
    ensures |s.campaigns| <= |Step(cfg, s, e).campaigns|
  {
    hide CanClaimDue, CanClaimRetries, ReceiveAll, Sweep, CountSweep;
    if e.Work? {
      RowStaysAtWork(cfg, s, e.ok, e.answer);
    }
  }

  lemma RowStaysAtWork(cfg: Config, s: State, ok: bool, answer: Answer)
    ensures |s.campaigns| == |DoWork(cfg, s, ok, answer).campaigns|
  {
    hide ShouldRetry, C.Recalculate;
  }

  lemma {:induction false} RowsStay(cfg: Config, s: State, es: seq<Event>)
    ensures |s.campaigns| <= |Run(cfg, s, es).campaigns|
  {
    hide Step;
    if es != [] {
      RowsStay(cfg, s, es[..|es| - 1]);
      RowStays(cfg, Run(cfg, s, es[..|es| - 1]), es[|es| - 1]);
    }
  }

  // ----------------------------------------------------------- create, then publish

  /** The others neither publish the new campaign nor die. */
  predicate LeavesCreation(env: seq<Event>, c: CampaignId) {
    forall i :: 0 <= i < |env| ==> !(env[i].PublishCreated? && env[i].campaign == c) && !env[i].Crash?
  }

  /** `c` is inserted and waits for its `Create` call to publish it. */
  predicate AwaitsPublish(s: State, c: CampaignId, instance: InstanceId, first: MessageId, contacts: nat) {
    && |s.log| == |s.campaigns| && c < |s.campaigns| && c in s.creating
    && s.campaigns[c].instance == instance && s.campaigns[c].total == contacts && s.log[c].first == first
  }

  lemma AwaitsPublishStep(cfg: Config, s: State, e: Event, c: CampaignId, instance: InstanceId, first: MessageId,
                          contacts: nat)
    requires AwaitsPublish(s, c, instance, first, contacts)
    requires !(e.PublishCreated? && e.campaign == c) && !e.Crash?
    ensures AwaitsPublish(Step(cfg, s, e), c, instance, first, contacts)
  {
    if e.Work? {
      AwaitsPublishWork(cfg, s, e.ok, e.answer, c, instance, first, contacts);
    }
  }

  lemma AwaitsPublishWork(cfg: Config, s: State, ok: bool, answer: Answer, c: CampaignId, instance: InstanceId,
                          first: MessageId, contacts: nat)
    requires AwaitsPublish(s, c, instance, first, contacts)
    ensures AwaitsPublish(DoWork(cfg, s, ok, answer), c, instance, first, contacts)
  {
    match s.worker
    case Marked(job, item) => AwaitsPublishRecalculate(s, item.campaign, ok, Waiting(job, item), c, instance, first,
                                                       contacts);
    case Settled(job, item, retry) =>
      AwaitsPublishRecalculate(s, item.campaign, ok, if retry then Rearm(job, item) else Idle, c, instance, first,
                               contacts);
    case Sending(job, item) => AwaitsPublishSend(s, job, item, answer, c, instance, first, contacts);
    case _ =>
  }

  lemma AwaitsPublishRecalculate(s: State, d: CampaignId, ok: bool, w: Worker, c: CampaignId, instance: InstanceId,
                                 first: MessageId, contacts: nat)
    requires AwaitsPublish(s, c, instance, first, contacts)
    ensures AwaitsPublish(DoRecalculateThen(s, d, ok, w), c, instance, first, contacts)
  {
  }

  lemma AwaitsPublishSend(s: State, job: Job, item: M.Message, answer: Answer, c: CampaignId, instance: InstanceId,
                          first: MessageId, contacts: nat)
    requires AwaitsPublish(s, c, instance, first, contacts)
    ensures AwaitsPublish(DoSend(s, job, item, answer), c, instance, first, contacts)
  {
  }

  lemma {:induction false} AwaitsPublishStays(cfg: Config, s: State, env: seq<Event>, c: CampaignId,
                                              instance: InstanceId, first: MessageId, contacts: nat)
    requires AwaitsPublish(s, c, instance, first, contacts) && LeavesCreation(env, c)
    ensures AwaitsPublish(Run(cfg, s, env), c, instance, first, contacts)
  {
    hide Step;
    if env != [] {
      var before := env[..|env| - 1];
      AwaitsPublishStays(cfg, s, before, c, instance, first, contacts);
      AwaitsPublishStep(cfg, Run(cfg, s, before), env[|env| - 1], c, instance, first, contacts);
    }
  }

  /** From `s` to `t` a campaign was inserted for `order`, with one untouched message for each of the `n` contacts. */
  ghost predicate InsertedFor(s: State, order: Order, n: nat, t: State) {
    && t.campaigns == s.campaigns
       + [C.Campaign(order.instance, if order.at.Some? then C.Scheduled else C.Pending,
                     if order.at.Some? then C.Later else C.Now, order.at, None, None, false, n,
                     C.Counts(n, 0, 0, 0, 0, 0))]
    && |t.messages| == |s.messages| + n && t.messages[..|s.messages|] == s.messages
    && (forall k :: |s.messages| <= k < |t.messages| ==>
          t.messages[k] == M.Message(|s.campaigns|, M.Pending, None, 0, None, None, None, None, None, None))
    && t.queue == s.queue && t.clock == s.clock
  }

  /** One job for each of the `n` contacts, in contact order. */
  function JobsFor(id: CampaignId, order: Order, first: MessageId, n: nat): seq<Job> {
    seq(n, (k: nat) => Job(first + k, id, order.instance, 0))
  }

  lemma CreateInserts(cfg: Config, s: State, order: Order)
    requires order.contacts != []
    ensures InsertedFor(s, order, |order.contacts|,
                        Step(cfg, s, Event.Create(order.instance, order.at, |order.contacts|)))
  {
  }

  lemma PublishAppends(cfg: Config, s: State, c: CampaignId, order: Order, first: MessageId)
    requires AwaitsPublish(s, c, order.instance, first, |order.contacts|)
    ensures Step(cfg, s, PublishCreated(c, true)).queue == s.queue + JobsFor(c, order, first, |order.contacts|)
  {
  }

  // ------------------------------------------------------------------ release

  function Publish(ok: bool): Event {
    PublishClaimed(ok)
  }

  /** The others may do anything but release, or die. */
  predicate LeavesScheduler(env: seq<Event>) {
    forall i :: 0 <= i < |env| ==>
      !env[i].ClaimDue? && !env[i].PublishClaimed? && !env[i].RevertRelease? && !env[i].Crash?
  }

  /** After its claim, `ReleaseDueScheduled` makes `n` publishes and, when the last one failed, a revert. */
  function ReleaseEvents(pushes: seq<Push>, n: nat, failed: bool, revert: Push): seq<Event>
    requires n <= |pushes|
  {
    Pushes(pushes[..n], Publish) + (if failed then revert.env + [RevertRelease(revert.ok)] else [])
  }

  ghost predicate Released(cfg: Config, s: State, pushes: seq<Push>, n: nat, failed: bool, revert: Push, t: State)
    requires n <= |pushes|
  {
    forall es :: es == ReleaseEvents(pushes, n, failed, revert) ==> t == Run(cfg, s, es)
  }

  lemma {:induction false} OthersLeaveScheduler(cfg: Config, s: State, env: seq<Event>)
    requires LeavesScheduler(env)
    ensures Run(cfg, s, env).scheduler == s.scheduler
  {
    hide Step;
    if env != [] {
      OthersLeaveScheduler(cfg, s, env[..|env| - 1]);
      OtherLeavesScheduler(cfg, Run(cfg, s, env[..|env| - 1]), env[|env| - 1]);
    }
  }

  lemma OtherLeavesScheduler(cfg: Config, s: State, e: Event)
    requires !e.ClaimDue? && !e.PublishClaimed? && !e.RevertRelease? && !e.Crash?
    ensures Step(cfg, s, e).scheduler == s.scheduler
  {
  }

  /** The next claim of the scheduler has jobs, for a campaign that exists. */
  lemma ClaimHasJobs(cfg: Config, s: State)
    requires Reachable(cfg, s) && s.scheduler.Publishing?
    ensures s.scheduler.claims != [] && s.scheduler.claims[0].campaign < |s.log| && s.scheduler.claims[0].jobs != []
  {
    ReachableIsCore(cfg, s);
    var d, h := Dir(s), s.scheduler.claims[0];
    assert d.owner[d.first[h.campaign]] == h.campaign;
    assert d.first[h.campaign] in MessagesOf(h.jobs);
  }

  lemma ClaimReachable(cfg: Config, s: State, batchSize: int, claims: seq<Claimed>)
    requires Reachable(cfg, s)
    ensures Reachable(cfg, DoClaimDue(s, batchSize, claims))
  {
    OneStepReachable(cfg, s, ClaimDue(batchSize, claims));
  }

  lemma OneMorePublish(cfg: Config, s: State, pushes: seq<Push>, n: nat)
    requires Reachable(cfg, s) && n < |pushes| && LeavesScheduler(pushes[n].env)
    ensures var mid := Run(cfg, Run(cfg, s, Pushes(pushes[..n], Publish)), pushes[n].env);
            && Run(cfg, s, Pushes(pushes[..n + 1], Publish)) == DoPublishClaimed(mid, pushes[n].ok)
            && mid.scheduler == Run(cfg, s, Pushes(pushes[..n], Publish)).scheduler
            && (mid.scheduler.Publishing? && mid.scheduler.claims != [] ==>
                  mid.scheduler.claims[0].campaign < |mid.log| && mid.scheduler.claims[0].jobs != [])
  {
    var t := Run(cfg, s, Pushes(pushes[..n], Publish));
    OneMorePush(cfg, s, pushes, Publish, n);
    OthersLeaveScheduler(cfg, t, pushes[n].env);
    StillReachable(cfg, s, Pushes(pushes[..n], Publish));
    StillReachable(cfg, t, pushes[n].env);
    if t.scheduler.Publishing? {
      ClaimHasJobs(cfg, Run(cfg, t, pushes[n].env));
    }
  }

  lemma NextClaim(claimed: seq<ClaimedCampaign>, i: nat)
    requires i < |claimed|
    ensures var rest := ClaimsOf(claimed)[i..];
            rest != [] && rest[0] == Claimed(claimed[i].id, JobsOf(claimed[i]))
              && rest[1..] == ClaimsOf(claimed)[i + 1..]
  {
  }

  lemma NothingToRevert(cfg: Config, s: State, pushes: seq<Push>, n: nat, revert: Push, t: State)
    requires n <= |pushes| && Pushed(cfg, s, pushes, Publish, n, t)
    ensures Released(cfg, s, pushes, n, false, revert, t)
  {
    hide Step;
    assert ReleaseEvents(pushes, n, false, revert) == Pushes(pushes[..n], Publish);
  }

  lemma RevertedExists(cfg: Config, s: State, es: seq<Event>, env: seq<Event>)
    requires Reachable(cfg, s)
    ensures var t := Run(cfg, Run(cfg, s, es), env); t.scheduler.Reverting? ==> t.scheduler.campaign < |t.campaigns|
  {
    hide Step;
    StillReachable(cfg, s, es);
    StillReachable(cfg, Run(cfg, s, es), env);
    ReachableIsCore(cfg, Run(cfg, Run(cfg, s, es), env));
  }

  lemma RevertIsStep(cfg: Config, s: State, ok: bool)
    ensures Step(cfg, s, RevertRelease(ok)) == DoRevert(s, ok)
  {
  }

  class CampaignService {
    const world: World
    const cfg: Config

    constructor (world: World, cfg: Config)
      ensures this.world == world && this.cfg == cfg
    {
      this.world, this.cfg := world, cfg;
    }

    /** `Get`: an error, or no row. */
    method Get(id: CampaignId, found: bool) returns (item: Option<C.Campaign>, failure: Option<Failure>)
      ensures failure == if !found then Some(Unavailable)
                         else if id >= |world.View().campaigns| then Some(NotFound)
                         else None
      ensures failure.None? ==> item == Some(world.View().campaigns[id])
    {
      item := world.repository.GetByID(id, found);
      failure := if item.None? then Some(Refusal(found)) else None;
    }

    /** `Pause`: the gate looks at the row as it was before `write.env`, the write does not look again. */
    method Pause(id: CampaignId, found: bool, write: Push) returns (failure: Option<Failure>)
      modifies world, world.repository, world.redis
      ensures var s := old(world.View()); var t := Run(cfg, s, write.env);
              var refused := if !found then Some(Unavailable)
                             else if id >= |s.campaigns| then Some(NotFound)
                             else if C.PauseRefused(s.campaigns[id]) then Some(InvalidState)
                             else None;
              if refused.Some? then failure == refused && world.View() == s
              else if !write.ok then failure == Some(Unavailable) && world.View() == t
              else failure.None? && world.View() == Step(cfg, t, SetPaused(id, true))
    {
      hide Step;
      var item;
      item, failure := Get(id, found);
      if failure.Some? {
        return;
      }
      match item.value.status {
        case Sent => return Some(InvalidState);
        case Delivered => return Some(InvalidState);
        case Read => return Some(InvalidState);
        case Failed => return Some(InvalidState);
        case Partial => return Some(InvalidState);
        case Scheduled => return Some(InvalidState);
        case _ =>
      }
      RowsStay(cfg, world.View(), write.env);
      world.Others(cfg, write.env);
      failure := WritePaused(id, true, write.ok);
    }

    /** `Resume`: clears the flag, then recalculates the status in a second statement. */
    method Resume(id: CampaignId, found: bool, write: Push, recount: Push) returns (failure: Option<Failure>)
      modifies world, world.repository, world.redis
      ensures var s := old(world.View()); var t := Run(cfg, s, write.env);
              var u := Run(cfg, Step(cfg, t, SetPaused(id, false)), recount.env);
              var refused := if !found then Some(Unavailable)
                             else if id >= |s.campaigns| then Some(NotFound)
                             else if !s.campaigns[id].paused then Some(InvalidState)
                             else None;
              if refused.Some? then failure == refused && world.View() == s
              else if !write.ok then failure == Some(Unavailable) && world.View() == t
              else if !recount.ok then failure == Some(Unavailable) && world.View() == u
              else failure.None? && world.View() == Step(cfg, u, Event.Recalculate(id))
    {
      hide Step;
      var item;
      item, failure := Get(id, found);
      if failure.Some? {
        return;
      }
      if !item.value.paused {
        return Some(InvalidState);
      }
      RowsStay(cfg, world.View(), write.env);
      world.Others(cfg, write.env);
      failure := WritePaused(id, false, write.ok);
      if failure.Some? {
        return;
      }
      RowsStay(cfg, world.View(), recount.env);
      world.Others(cfg, recount.env);
      failure := Recount(id, recount.ok);
    }

    method WritePaused(id: CampaignId, paused: bool, ok: bool) returns (failure: Option<Failure>)
      requires id < |world.View().campaigns|
      modifies world.repository
      ensures failure == if ok then None else Some(Unavailable)
      ensures world.View() == if ok then Step(cfg, old(world.View()), SetPaused(id, paused)) else old(world.View())
      ensures |world.View().campaigns| == |old(world.View().campaigns)|
    {
      var failed := world.repository.SetCampaignPaused(id, paused, ok);
      failure := if failed then Some(Refusal(ok)) else None;
    }

    /** `RecalculateCampaign` outside the worker and the tracker. */
    method Recount(id: CampaignId, ok: bool) returns (failure: Option<Failure>)
      requires id < |world.View().campaigns|
      modifies world, world.repository
      ensures failure == if ok then None else Some(Unavailable)
      ensures world.View() == if ok then Step(cfg, old(world.View()), Event.Recalculate(id)) else old(world.View())
    {
      var before := world.View();
      var failed := world.repository.RecalculateCampaign(id, ok);
      if failed {
        return Some(Refusal(ok));
      }
      world.Note(DoRecalculate(before, id, true));
      failure := None;
    }

    /** `Reschedule`; the UPDATE itself matches no released row. `when` is None when the input does not parse. */
    method Reschedule(id: CampaignId, found: bool, when: Option<Time>, write: Push) returns (failure: Option<Failure>)
      modifies world, world.repository, world.redis
      ensures var s := old(world.View()); var t := Run(cfg, s, write.env);
              var refused := if !found then Some(Unavailable)
                             else if id >= |s.campaigns| then Some(NotFound)
                             else if s.campaigns[id].releasedAt.Some? then Some(InvalidState)
                             else if when.None? then Some(InvalidInput)
                             else None;
              if refused.Some? then failure == refused && world.View() == s
              else if !write.ok then failure == Some(Unavailable) && world.View() == t
              else && id < |t.campaigns|
                      && failure == (if t.campaigns[id].releasedAt.Some? then Some(NotFound) else None)
                   && world.View() == Step(cfg, t, Event.Reschedule(id, when.value))
    {
      hide Step;
      var item;
      item, failure := Get(id, found);
      if failure.Some? {
        return;
      }
      if item.value.releasedAt.Some? {
        return Some(InvalidState);
      }
      if when.None? {
        return Some(InvalidInput);
      }
      RowsStay(cfg, world.View(), write.env);
      world.Others(cfg, write.env);
      failure := WriteSchedule(id, when.value, write.ok);
    }

    method WriteSchedule(id: CampaignId, when: Time, ok: bool) returns (failure: Option<Failure>)
      requires id < |world.View().campaigns|
      modifies world.repository
      ensures failure == if !ok then Some(Unavailable)
                         else if old(world.View().campaigns[id]).releasedAt.Some? then Some(NotFound) else None
      ensures world.View() == if ok then Step(cfg, old(world.View()), Event.Reschedule(id, when)) else old(world.View())
    {
      var failed := world.repository.UpdateScheduledCampaign(id, when, ok);
      failure := if failed then Some(Refusal(ok)) else None;
    }

    /** `CancelScheduled`. */
    method CancelScheduled(id: CampaignId, found: bool, write: Push) returns (failure: Option<Failure>)
      modifies world, world.repository, world.redis
      ensures var s := old(world.View()); var t := Run(cfg, s, write.env);
              var refused := if !found then Some(Unavailable)
                             else if id >= |s.campaigns| then Some(NotFound)
                             else if s.campaigns[id].releasedAt.Some? then Some(InvalidState)
                             else if !s.campaigns[id].status.Scheduled? then Some(InvalidState)
                             else None;
              if refused.Some? then failure == refused && world.View() == s
              else if !write.ok then failure == Some(Unavailable) && world.View() == t
              else && id < |t.campaigns|
                      && failure == (if t.campaigns[id].releasedAt.Some? then Some(NotFound) else None)
                   && world.View() == Step(cfg, t, Event.CancelScheduled(id))
    {
      hide Step;
      var item;
      item, failure := Get(id, found);
      if failure.Some? {
        return;
      }
      if item.value.releasedAt.Some? {
        return Some(InvalidState);
      }
      if !item.value.status.Scheduled? {
        return Some(InvalidState);
      }
      RowsStay(cfg, world.View(), write.env);
      world.Others(cfg, write.env);
      failure := WriteCancel(id, write.ok);
    }

    method WriteCancel(id: CampaignId, ok: bool) returns (failure: Option<Failure>)
      requires id < |world.View().campaigns|
      modifies world.repository
      ensures failure == if !ok then Some(Unavailable)
                         else if old(world.View().campaigns[id]).releasedAt.Some? then Some(NotFound) else None
      ensures world.View() == if ok then Step(cfg, old(world.View()), Event.CancelScheduled(id)) else old(world.View())
    {
      var failed := world.repository.CancelScheduledCampaign(id, ok);
      failure := if failed then Some(Refusal(ok)) else None;
    }

    // ---------------------------------------------------------------- create

    /** `Create`: insert the campaign with its messages; a campaign to be sent now is then published. `schedule` is what
        the request's schedule parses to, `external` what the lookup of its external reference found. */
    method Create(input: CreateInput, schedule: Option<Time>, external: External, write: Push, publish: Push)
      returns (id: CampaignId, failure: Option<Failure>)
      requires Reachable(cfg, world.View())
      requires external.Known? ==> external.id < |world.View().campaigns|
      requires LeavesCreation(publish.env, |Run(cfg, world.View(), write.env).campaigns|)
      modifies world, world.repository, world.redis
      ensures var s := old(world.View()); var t := Run(cfg, s, write.env);
              var order := Normalized(input, schedule);
              var refused := if order.None? || external.Foreign? then Some(InvalidInput)
                             else if external.LookupFailed? then Some(Unavailable)
                             else None;
              if refused.Some? then failure == refused && world.View() == s
              else if !write.ok then failure == Some(Unavailable) && world.View() == t
              else if external.Known? && order.value.at.Some? then
                && id == external.id < |t.campaigns|
                && world.View() == Step(cfg, t, Event.Reschedule(id, order.value.at.value))
                && failure == (if t.campaigns[id].releasedAt.Some? then Some(NotFound) else None)
              else
                var o, n := order.value, Visible(input.contacts);
                var created := Step(cfg, t, Event.Create(o.instance, o.at, n));
                && id == |t.campaigns| && Matches(input, schedule, o) && InsertedFor(t, o, n, created)
                && (o.at.None? && publish.ok ==>
                      world.View().queue == Run(cfg, created, publish.env).queue + JobsFor(id, o, |t.messages|, n))
                && if o.at.Some? then failure.None? && world.View() == created
                   else && failure == (if publish.ok then None else Some(Unavailable))
                        && world.View() == Step(cfg, Run(cfg, created, publish.env), PublishCreated(id, publish.ok))
    {
      hide Step, Normalized, Matches, InsertedFor, Acceptable;
      id := 0;
      var order := Normalize(input, schedule);
      if order.None? {
        return id, Some(InvalidInput);
      }
      AcceptedIff(input, schedule);
      var o := order.value;
      match external {
        case NoReference =>
        case Unknown =>
        case Foreign => return id, Some(InvalidInput);
        case LookupFailed => return id, Some(Unavailable);
        case Known(existing) =>
          if o.at.Some? {
            RowsStay(cfg, world.View(), write.env);
            world.Others(cfg, write.env);
            failure := WriteSchedule(existing, o.at.value, write.ok);
            return existing, failure;
          }
      }
      StillReachable(cfg, world.View(), write.env);
      world.Others(cfg, write.env);
      ReachableIsCore(cfg, world.View());
      ghost var before := world.View();
      id, failure := CreateNow(o.instance, o.at, |o.contacts|, write.ok, publish);
      if write.ok {
        CreatedPublishes(before, o, publish);
      }
    }

    lemma CreatedPublishes(s: State, o: Order, publish: Push)
      requires o.contacts != [] && |s.log| == |s.campaigns| && LeavesCreation(publish.env, |s.campaigns|)
      ensures var created := Step(cfg, s, Event.Create(o.instance, o.at, |o.contacts|));
              && InsertedFor(s, o, |o.contacts|, created)
              && (o.at.None? && publish.ok ==>
                    var later := Run(cfg, created, publish.env);
                    Step(cfg, later, PublishCreated(|s.campaigns|, publish.ok)).queue
                    == later.queue + JobsFor(|s.campaigns|, o, |s.messages|, |o.contacts|))
    {
      CreateInserts(cfg, s, o);
      var created := Step(cfg, s, Event.Create(o.instance, o.at, |o.contacts|));
      if o.at.None? && publish.ok {
        assert AwaitsPublish(created, |s.campaigns|, o.instance, |s.messages|, |o.contacts|);
        hide Step;
        AwaitsPublishStays(cfg, created, publish.env, |s.campaigns|, o.instance, |s.messages|, |o.contacts|);
        PublishAppends(cfg, Run(cfg, created, publish.env), |s.campaigns|, o, |s.messages|);
      }
    }

    /** The INSERT, and for a campaign to be sent now the publication. */
    method CreateNow(instance: InstanceId, at: Option<Time>, contacts: nat, ok: bool, publish: Push)
      returns (id: CampaignId, failure: Option<Failure>)
      requires contacts > 0 && |world.View().log| == |world.View().campaigns|
      requires LeavesCreation(publish.env, |world.View().campaigns|)
      modifies world, world.repository, world.redis
      ensures id == |old(world.View().campaigns)|
      ensures !ok ==> failure == Some(Unavailable) && world.View() == old(world.View())
      ensures var created := Step(cfg, old(world.View()), Event.Create(instance, at, contacts));
              ok ==> if at.Some? then failure.None? && world.View() == created
                     else && failure == (if publish.ok then None else Some(Unavailable))
                          && world.View() == Step(cfg, Run(cfg, created, publish.env), PublishCreated(id, publish.ok))
    {
      var first, failed;
      id, first, failed := Insert(instance, at, contacts, ok);
      if failed {
        return id, Some(Unavailable);
      }
      if at.Some? {
        return id, None;
      }
      AwaitsPublishStays(cfg, world.View(), publish.env, id, instance, first, contacts);
      world.Others(cfg, publish.env);
      failed := PublishNew(id, instance, first, contacts, publish.ok);
      failure := if failed then Some(Unavailable) else None;
    }

    method Insert(instance: InstanceId, at: Option<Time>, contacts: nat, ok: bool)
      returns (id: CampaignId, first: MessageId, failed: bool)
      requires contacts > 0 && |world.View().log| == |world.View().campaigns|
      modifies world, world.repository
      ensures id == |old(world.View().campaigns)| && failed == !ok
      ensures world.View() == if ok then DoCreate(old(world.View()), instance, at, contacts) else old(world.View())
      ensures ok && at.None? ==> AwaitsPublish(world.View(), id, instance, first, contacts)
    {
      var before := world.View();
      first := |world.repository.messages|;
      id, failed := world.repository.Create(instance, at, contacts, ok);
      if !failed {
        world.Note(DoCreate(before, instance, at, contacts));
      }
    }

    /** The jobs of the contacts, in contact order, and their publication. */
    method PublishNew(id: CampaignId, instance: InstanceId, first: MessageId, contacts: nat,
                      ok: bool) returns (failed: bool)
      requires contacts > 0 && AwaitsPublish(world.View(), id, instance, first, contacts)
      modifies world, world.redis
      ensures failed == !ok
      ensures world.View() == DoPublishCreated(old(world.View()), id, ok)
    {
      var before := world.View();
      var jobs: seq<Job> := [];
      for i := 0 to contacts
        invariant jobs == CreatedJobs(before, id)[..i] && world.View() == before
      {
        jobs := jobs + [Job(first + i, id, instance, 0)];
      }
      failed := world.redis.PublishCampaignMessages(jobs, ok);
      world.Note(DoPublishCreated(before, id, ok));
    }

    // --------------------------------------------------------------- release

    /** `ReleaseDueScheduled`: claim a batch in one statement, then publish campaign by campaign; the first
        publish that fails is reverted and ends the call. */
    method ReleaseDueScheduled(batchSize: int, claim: bool, pushes: seq<Push>, revert: Push)
      returns (claimed: seq<ClaimedCampaign>, published: nat, failed: bool)
      requires Reachable(cfg, world.View()) && world.View().scheduler.Resting?
      requires |pushes| == Effective(batchSize, 25) && LeavesScheduler(revert.env)
      requires forall i :: 0 <= i < |pushes| ==> LeavesScheduler(pushes[i].env)
      modifies world, world.repository, world.redis
      ensures !claim ==> failed && claimed == [] && published == 0 && world.View() == old(world.View())
      ensures claim ==>
                && CanClaimDue(old(world.View()), batchSize, ClaimsOf(claimed)) && |claimed| <= |pushes|
                && published <= |claimed| && (failed <==> published < |claimed|)
                && (forall i :: 0 <= i < published ==> pushes[i].ok) && (failed ==> !pushes[published].ok)
                && Released(cfg, DoClaimDue(old(world.View()), batchSize, ClaimsOf(claimed)), pushes,
                            published + (if failed then 1 else 0), failed, revert, world.View())
      ensures world.View().scheduler.Resting?
    {
      hide Step;
      published := 0;
      claimed, failed := ClaimDueNow(batchSize, claim);
      if failed {
        return;
      }
      published, failed := PublishAll(claimed, pushes, revert);
    }

    /** The publish loop, from the state right after the claim. */
    method PublishAll(claimed: seq<ClaimedCampaign>, pushes: seq<Push>, revert: Push) returns (published: nat,
                      failed: bool)
      requires Reachable(cfg, world.View()) && world.View().scheduler == NextClaims(ClaimsOf(claimed))
      requires |claimed| <= |pushes| && LeavesScheduler(revert.env)
      requires forall i :: 0 <= i < |pushes| ==> LeavesScheduler(pushes[i].env)
      modifies world, world.repository, world.redis
      ensures published <= |claimed| && (failed <==> published < |claimed|)
      ensures forall i :: 0 <= i < published ==> pushes[i].ok
      ensures failed ==> !pushes[published].ok
      ensures Released(cfg, old(world.View()), pushes, published + (if failed then 1 else 0), failed, revert,
                       world.View())
      ensures world.View().scheduler.Resting?
    {
      hide Step;
      ghost var s := world.View();
      NoPushYet(cfg, s, pushes, Publish);
      published, failed := 0, false;
      while published < |claimed|
        invariant published <= |claimed| && !failed
        invariant forall i :: 0 <= i < published ==> pushes[i].ok
        invariant Pushed(cfg, s, pushes, Publish, published, world.View())
        invariant world.View().scheduler == NextClaims(ClaimsOf(claimed)[published..])
      {
        NextClaim(claimed, published);
        failed := PublishOne(s, pushes, published, claimed[published]);
        if failed {
          RevertNow(s, pushes, published + 1, claimed[published].id, revert);
          return;
        }
        published := published + 1;
      }
      NothingToRevert(cfg, s, pushes, published, revert, world.View());
    }

    method ClaimDueNow(batchSize: int, ok: bool) returns (claimed: seq<ClaimedCampaign>, failed: bool)
      requires Reachable(cfg, world.View()) && world.View().scheduler.Resting?
      modifies world, world.repository
      ensures failed == !ok
      ensures failed ==> claimed == [] && world.View() == old(world.View())
      ensures ok ==>
                && CanClaimDue(old(world.View()), batchSize, ClaimsOf(claimed)) && |claimed| <= Effective(batchSize, 25)
                && world.View() == DoClaimDue(old(world.View()), batchSize, ClaimsOf(claimed))
                && Reachable(cfg, world.View()) && world.View().scheduler == NextClaims(ClaimsOf(claimed))
    {
      var before := world.View();
      claimed, failed := world.repository.ClaimDueScheduledCampaigns(batchSize, ok);
      if failed {
        return;
      }
      assert |Campaigns(ClaimsOf(claimed))| == |claimed|;
      assert CanClaimDue(before, batchSize, ClaimsOf(claimed));
      ClaimReachable(cfg, before, batchSize, ClaimsOf(claimed));
      world.Note(DoClaimDue(before, batchSize, ClaimsOf(claimed)));
    }

    /** One iteration of the publish loop. */
    method PublishOne(ghost s: State, pushes: seq<Push>, i: nat, item: ClaimedCampaign) returns (failed: bool)
      requires Reachable(cfg, s) && i < |pushes| && LeavesScheduler(pushes[i].env)
      requires Pushed(cfg, s, pushes, Publish, i, world.View())
      requires world.View().scheduler.Publishing? && world.View().scheduler.claims != []
      requires world.View().scheduler.claims[0] == Claimed(item.id, JobsOf(item))
      modifies world, world.repository, world.redis
      ensures Pushed(cfg, s, pushes, Publish, i + 1, world.View()) && failed == !pushes[i].ok
      ensures world.View().scheduler
              == (if failed then Reverting(item.id) else NextClaims(old(world.View().scheduler.claims)[1..]))
    {
      hide Step;
      OneMorePublish(cfg, s, pushes, i);
      world.Others(cfg, pushes[i].env);
      failed := PublishJobs(item, pushes[i].ok);
    }

    method PublishJobs(item: ClaimedCampaign, ok: bool) returns (failed: bool)
      requires world.View().scheduler.Publishing? && world.View().scheduler.claims != []
      requires world.View().scheduler.claims[0] == Claimed(item.id, JobsOf(item))
      requires item.id < |world.View().log| && JobsOf(item) != []
      modifies world, world.redis
      ensures world.View() == DoPublishClaimed(old(world.View()), ok) && failed == !ok
    {
      var before := world.View();
      var jobs: seq<Job> := [];
      for k := 0 to |item.ids|
        invariant jobs == JobsOf(item)[..k] && world.View() == before
      {
        var attempt := if k < |item.rows| then item.rows[k].attempts else 0;
        jobs := jobs + [Job(item.ids[k], item.id, item.row.instance, attempt)];
      }
      failed := world.redis.PublishCampaignMessages(jobs, ok);
      world.Note(DoPublishClaimed(before, ok));
    }

    method RevertNow(ghost s: State, pushes: seq<Push>, n: nat, id: CampaignId, revert: Push)
      requires Reachable(cfg, s) && n <= |pushes| && Pushed(cfg, s, pushes, Publish, n, world.View())
      requires LeavesScheduler(revert.env) && world.View().scheduler == Reverting(id)
      modifies world, world.repository, world.redis
      ensures Released(cfg, s, pushes, n, true, revert, world.View()) && world.View().scheduler.Resting?
    {
      hide Step, Run, Reachable, Pushes;
      RunThen(cfg, s, Pushes(pushes[..n], Publish), revert.env, RevertRelease(revert.ok));
      RevertIsStep(cfg, Run(cfg, world.View(), revert.env), revert.ok);
      assert ReleaseEvents(pushes, n, true, revert)
             == Pushes(pushes[..n], Publish) + revert.env + [RevertRelease(revert.ok)];
      OthersLeaveScheduler(cfg, world.View(), revert.env);
      RevertedExists(cfg, s, Pushes(pushes[..n], Publish), revert.env);
      world.Others(cfg, revert.env);
      WriteRevert(id, revert.ok);
    }

    method WriteRevert(id: CampaignId, ok: bool)
      requires world.View().scheduler == Reverting(id) && id < |world.View().campaigns|
      modifies world, world.repository
      ensures world.View() == DoRevert(old(world.View()), ok)
    {
      var before := world.View();
      world.repository.RevertScheduledCampaignRelease(id, ok);
      world.Note(DoRevert(before, ok));
    }
  }
}
