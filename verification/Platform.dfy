/**
 What the goroutines share: the two tables behind `CampaignRepository`, the
 Redis list, and the process memory. A statement's `ok` argument says whether
 the database or Redis carried it out.
 */
module Platform {
  import opened Basics
  import M = Messages
  import C = Campaigns
  import opened Protocol
  import opened Batches

  /** `ClaimedScheduledCampaign`: the campaign row after the claim, and its message rows. */
  datatype ClaimedCampaign = ClaimedCampaign(id: CampaignId, row: C.Campaign, ids: seq<MessageId>, rows: seq<M.Message>)

  /** The jobs `ReleaseDueScheduled` builds for one claimed campaign. */
  function JobsOf(item: ClaimedCampaign): seq<Job> {
    seq(|item.ids|, i requires 0 <= i < |item.ids| =>
      Job(item.ids[i], item.id, item.row.instance, if i < |item.rows| then item.rows[i].attempts else 0))
  }

  function ClaimsOf(items: seq<ClaimedCampaign>): seq<Claimed> {
    seq(|items|, i requires 0 <= i < |items| => Claimed(items[i].id, JobsOf(items[i])))
  }

  /** `rows` are the rows with the distinct ids `ids`, all of campaign `c`. */
  predicate RowsOfCampaign(ms: seq<M.Message>, c: CampaignId, ids: seq<MessageId>, rows: seq<M.Message>) {
    && Distinct(ids) && |rows| == |ids|
    && forall k :: 0 <= k < |ids| ==> ids[k] < |ms| && ms[ids[k]].campaign == c && rows[k] == ms[ids[k]]
  }

  predicate AllListed(ms: seq<M.Message>, cs: seq<C.Campaign>, claimed: seq<ClaimedCampaign>) {
    forall i :: 0 <= i < |claimed| ==> Lists(ms, cs, claimed[i].id, JobsOf(claimed[i]))
  }

  /** The jobs built from a claimed campaign's rows are one job per row. */
  lemma ClaimIsListed(ms: seq<M.Message>, cs: seq<C.Campaign>, item: ClaimedCampaign)
    requires item.id < |cs| && item.row.instance == cs[item.id].instance
    requires RowsOfCampaign(ms, item.id, item.ids, item.rows)
    requires forall m :: 0 <= m < |ms| && ms[m].campaign == item.id ==> m in item.ids
    ensures Lists(ms, cs, item.id, JobsOf(item))
  {
    assert MessagesOf(JobsOf(item)) == item.ids;
  }

  class CampaignRepository {
    var clock: Time
    var messages: seq<M.Message>
    var campaigns: seq<C.Campaign>

    constructor (clock: Time)
      ensures this.clock == clock && messages == [] && campaigns == []
    {
      this.clock, messages, campaigns := clock, [], [];
    }

    method GetMessageByID(id: MessageId, ok: bool) returns (item: Option<M.Message>)
      ensures item == if ok && id < |messages| then Some(messages[id]) else None
    {
      item := if ok && id < |messages| then Some(messages[id]) else None;
    }

    method GetByID(id: CampaignId, ok: bool) returns (item: Option<C.Campaign>)
      ensures item == if ok && id < |campaigns| then Some(campaigns[id]) else None
    {
      item := if ok && id < |campaigns| then Some(campaigns[id]) else None;
    }

    /** One UPDATE of one message row; `failed` on an error or when no row matched. */
    method MarkMessageProcessing(id: MessageId, ok: bool) returns (failed: bool)
      modifies this`messages
      ensures failed == (!ok || id >= |old(messages)|)
      ensures messages == if failed then old(messages) else old(messages)[id := M.MarkProcessing(old(messages)[id])]
    {
      failed := !ok || id >= |messages|;
      if !failed {
        messages := messages[id := M.MarkProcessing(messages[id])];
      }
    }

    method MarkMessageSent(id: MessageId, providerId: ProviderId, ok: bool) returns (failed: bool)
      modifies this`messages
      ensures failed == (!ok || id >= |old(messages)|)
      ensures messages == if failed then old(messages)
              else old(messages)[id := M.MarkSent(old(messages)[id], providerId, clock)]
    {
      failed := !ok || id >= |messages|;
      if !failed {
        messages := messages[id := M.MarkSent(messages[id], providerId, clock)];
      }
    }

    method MarkMessageFailed(id: MessageId, failure: string, ok: bool) returns (failed: bool)
      modifies this`messages
      ensures failed == (!ok || id >= |old(messages)|)
      ensures messages == if failed then old(messages)
              else old(messages)[id := M.MarkFailed(old(messages)[id], failure, clock)]
    {
      failed := !ok || id >= |messages|;
      if !failed {
        messages := messages[id := M.MarkFailed(messages[id], failure, clock)];
      }
    }

    method MarkMessagePendingRetry(id: MessageId, failure: string, nextRetryAt: Time, ok: bool) returns (failed: bool)
      modifies this`messages
      ensures failed == (!ok || id >= |old(messages)|)
      ensures messages == if failed then old(messages)
                          else old(messages)[id := M.MarkPendingRetry(old(messages)[id], failure, nextRetryAt)]
    {
      failed := !ok || id >= |messages|;
      if !failed {
        messages := messages[id := M.MarkPendingRetry(messages[id], failure, nextRetryAt)];
      }
    }

    method RecalculateCampaign(id: CampaignId, ok: bool) returns (failed: bool)
      modifies this`campaigns
      ensures failed == (!ok || id >= |old(campaigns)|)
      ensures campaigns == if failed then old(campaigns)
                           else old(campaigns)[id := C.Recalculate(old(campaigns)[id], messages, id)]
    {
      failed := !ok || id >= |campaigns|;
      if !failed {
        campaigns := campaigns[id := C.Recalculate(campaigns[id], messages, id)];
      }
    }

    method SetCampaignPaused(id: CampaignId, paused: bool, ok: bool) returns (failed: bool)
      modifies this`campaigns
      ensures failed == (!ok || id >= |old(campaigns)|)
      ensures campaigns == if failed then old(campaigns)
              else old(campaigns)[id := C.SetPaused(old(campaigns)[id], paused)]
    {
      failed := !ok || id >= |campaigns|;
      if !failed {
        campaigns := campaigns[id := C.SetPaused(campaigns[id], paused)];
      }
    }

    /** No row is returned when the campaign is already released. */
    method UpdateScheduledCampaign(id: CampaignId, at: Time, ok: bool) returns (failed: bool)
      modifies this`campaigns
      ensures failed == (!ok || id >= |old(campaigns)| || old(campaigns)[id].releasedAt.Some?)
      ensures campaigns == if failed then old(campaigns) else old(campaigns)[id := C.Reschedule(old(campaigns)[id], at)]
    {
      failed := !ok || id >= |campaigns| || campaigns[id].releasedAt.Some?;
      if !failed {
        campaigns := campaigns[id := C.Reschedule(campaigns[id], at)];
      }
    }

    method CancelScheduledCampaign(id: CampaignId, ok: bool) returns (failed: bool)
      modifies this`campaigns
      ensures failed == (!ok || id >= |old(campaigns)| || old(campaigns)[id].releasedAt.Some?)
      ensures campaigns == if failed then old(campaigns) else old(campaigns)[id := C.Cancel(old(campaigns)[id], clock)]
    {
      failed := !ok || id >= |campaigns| || campaigns[id].releasedAt.Some?;
      if !failed {
        campaigns := campaigns[id := C.Cancel(campaigns[id], clock)];
      }
    }

    method RevertScheduledCampaignRelease(id: CampaignId, ok: bool)
      modifies this`campaigns
      ensures campaigns == if ok && id < |old(campaigns)| then old(campaigns)[id := C.Revert(old(campaigns)[id])]
              else old(campaigns)
    {
      if ok && id < |campaigns| {
        campaigns := campaigns[id := C.Revert(campaigns[id])];
      }
    }

    /** `Create`: one transaction, rolled back on an error, inserts the campaign and, in a loop, its message rows. */
    method Create(instance: InstanceId, at: Option<Time>, contacts: nat, ok: bool)
      returns (id: CampaignId, failed: bool)
      modifies this`messages, this`campaigns
      ensures id == |old(campaigns)| && failed == !ok
      ensures campaigns == old(campaigns) + if ok then [C.New(instance, at, contacts)] else []
      ensures messages == old(messages) + if ok then C.FreshRows(id, contacts) else []
    {
      id, failed := |campaigns|, !ok;
      if failed {
        return;
      }
      campaigns := campaigns + [C.New(instance, at, contacts)];
      for i := 0 to contacts
        invariant messages == old(messages) + C.FreshRows(id, i)
        invariant campaigns == old(campaigns) + [C.New(instance, at, contacts)]
      {
        messages := messages + [M.New(id)];
        assert C.FreshRows(id, i + 1) == C.FreshRows(id, i) + [M.New(id)];
      }
    }

    method MarkMessageDeliveredByProviderID(id: ProviderId, ok: bool) returns (campaign: Option<CampaignId>,
                                            failed: bool)
      modifies this`messages
      ensures failed == !ok
      ensures ok ==> campaign == Matched(old(messages), id)
      ensures messages == if ok then ReceiveAll(old(messages), DeliveredReceipt, id, clock) else old(messages)
    {
      campaign, failed := None, !ok;
      if ok {
        campaign := Matched(messages, id);
        messages := ReceiveAll(messages, DeliveredReceipt, id, clock);
      }
    }

    method MarkMessageReadByProviderID(id: ProviderId, ok: bool) returns (campaign: Option<CampaignId>, failed: bool)
      modifies this`messages
      ensures failed == !ok
      ensures ok ==> campaign == Matched(old(messages), id)
      ensures messages == if ok then ReceiveAll(old(messages), ReadReceipt, id, clock) else old(messages)
    {
      campaign, failed := None, !ok;
      if ok {
        campaign := Matched(messages, id);
        messages := ReceiveAll(messages, ReadReceipt, id, clock);
      }
    }

    /** `ClaimDueRetryJobs`: one statement that claims the rows and returns their jobs, or fails. */
    method ClaimDueRetryJobs(batchSize: int, ok: bool) returns (jobs: seq<Job>, failed: bool)
      requires forall m :: 0 <= m < |messages| ==> messages[m].campaign < |campaigns|
      modifies this`messages
      ensures failed == !ok
      ensures failed ==> jobs == [] && messages == old(messages)
      ensures ok ==>
                && EarliestBatch(MessagesOf(jobs), DueRetries(old(messages), campaigns, clock),
                                 Effective(batchSize, 100))
                && messages == Sweep(old(messages), MessagesOf(jobs))
                && forall i :: 0 <= i < |jobs| ==>
                     && jobs[i].message < |old(messages)|
                     && jobs[i] == SweptJob(old(messages), campaigns, jobs[i].message)
                     && var row := old(messages)[jobs[i].message];
                        && row.status.Pending? && row.nextRetryAt.Some? && row.nextRetryAt.value <= clock
                        && !campaigns[row.campaign].paused && campaigns[row.campaign].cancelledAt.None?
    {
      hide EarliestBatch, Lists;
      failed := !ok;
      if failed {
        return [], failed;
      }
      var limit := if batchSize <= 0 then 100 else batchSize;
      var picked := SelectEarliest(DueRetries(messages, campaigns, clock), limit);
      jobs := [];
      for i := 0 to |picked|
        invariant MessagesOf(jobs) == picked[..i] && messages == old(messages)
        invariant forall k :: 0 <= k < |jobs| ==>
                    && jobs[k].message < |messages| && jobs[k] == SweptJob(messages, campaigns, jobs[k].message)
                    && RetryDue(messages, campaigns, clock, jobs[k].message)
      {
        assert picked[i] in DueRetries(messages, campaigns, clock);
        jobs := jobs + [SweptJob(messages, campaigns, picked[i])];
      }
      assert MessagesOf(jobs) == picked;
      messages := Sweep(messages, picked);
    }

    /** The rows of a campaign, as `SELECT ... WHERE campaign_id` returns them. */
    method MessagesOfCampaign(id: CampaignId) returns (ids: seq<MessageId>, rows: seq<M.Message>)
      ensures RowsOfCampaign(messages, id, ids, rows)
      ensures forall m :: 0 <= m < |messages| && messages[m].campaign == id ==> m in ids
    {
      ids, rows := [], [];
      for m := 0 to |messages|
        invariant RowsOfCampaign(messages, id, ids, rows)
        invariant forall k :: 0 <= k < |ids| ==> ids[k] < m
        invariant forall x :: 0 <= x < m && messages[x].campaign == id ==> x in ids
      {
        if messages[m].campaign == id {
          ids, rows := ids + [m], rows + [messages[m]];
        }
      }
    }

    /** `ClaimDueScheduledCampaigns`: one transaction, rolled back on an error, claims the campaigns in one UPDATE and
        collects the rows of each. */
    method ClaimDueScheduledCampaigns(batchSize: int, ok: bool) returns (claimed: seq<ClaimedCampaign>, failed: bool)
      modifies this`campaigns
      ensures failed == !ok
      ensures failed ==> claimed == [] && campaigns == old(campaigns)
      ensures ok ==>
                && EarliestBatch(Campaigns(ClaimsOf(claimed)), DueCampaigns(old(campaigns), clock),
                                 Effective(batchSize, 25))
                && campaigns == ReleaseAll(old(campaigns), Campaigns(ClaimsOf(claimed)), clock)
                && AllListed(messages, old(campaigns), claimed)
    {
      hide EarliestBatch, Lists;
      failed := !ok;
      if failed {
        return [], failed;
      }
      var limit := if batchSize <= 0 then 25 else batchSize;
      var picked := SelectEarliest(DueCampaigns(campaigns, clock), limit);
      campaigns := ReleaseAll(campaigns, picked, clock);
      assert forall i :: 0 <= i < |picked| ==> picked[i] in DueCampaigns(old(campaigns), clock);
      claimed := [];
      for i := 0 to |picked|
        invariant campaigns == ReleaseAll(old(campaigns), picked, clock)
        invariant Campaigns(ClaimsOf(claimed)) == picked[..i]
        invariant AllListed(messages, old(campaigns), claimed)
      {
        var ids, rows := MessagesOfCampaign(picked[i]);
        claimed := claimed + [ClaimedCampaign(picked[i], campaigns[picked[i]], ids, rows)];
        ClaimIsListed(messages, old(campaigns), claimed[i]);
        assert picked[..i + 1] == picked[..i] + [picked[i]];
      }
      assert picked[..|picked|] == picked;
    }
  }

  class RedisQueue {
    var items: seq<Job>

    constructor ()
      ensures items == []
    {
      items := [];
    }

    /** BLPOP: the head, or nothing after the timeout or an error. */
    method PopCampaignMessage(ok: bool) returns (job: Option<Job>)
      modifies this
      ensures job == (if ok && old(items) != [] then Some(old(items)[0]) else None)
      ensures items == (if job.Some? then old(items)[1..] else old(items))
    {
      job := None;
      if ok && items != [] {
        job := Some(items[0]);
        items := items[1..];
      }
    }

    /** RPUSH of one payload. */
    method RequeueCampaignMessage(job: Job, ok: bool) returns (failed: bool)
      modifies this
      ensures failed == !ok
      ensures items == if ok then old(items) + [job] else old(items)
    {
      failed := !ok;
      if ok {
        items := items + [job];
      }
    }

    /** `PublishCampaignMessages`: collect the payloads, then one RPUSH that is all or nothing. */
    method PublishCampaignMessages(jobs: seq<Job>, ok: bool) returns (failed: bool)
      modifies this
      ensures failed == (jobs != [] && !ok)
      ensures items == if failed then old(items) else old(items) + jobs
    {
      if |jobs| == 0 {
        return false;
      }
      var payloads: seq<Job> := [];
      for i := 0 to |jobs|
        invariant payloads == jobs[..i]
      {
        payloads := payloads + [jobs[i]];
      }
      if !ok {
        return true;
      }
      items := items + payloads;
      return false;
    }
  }

  /** One running process: its connections, its retry timers, and the goroutine-local variables and history
      recorded in `memory` (whose table, queue and timer fields are unused). */
  class World {
    const repository: CampaignRepository
    const redis: RedisQueue
    var timers: seq<Job>
    var memory: State

    constructor (clock: Time)
      ensures fresh(repository) && fresh(redis) && View() == Init(clock)
    {
      repository := new CampaignRepository(clock);
      redis := new RedisQueue();
      timers := [];
      memory := Init(clock);
    }

    /** `s` with the tables, the list and the timers of this process. */
    function Over(s: State): State
      reads this`timers, repository, redis
    {
      s.(clock := repository.clock, messages := repository.messages, campaigns := repository.campaigns,
         queue := redis.items, timers := timers)
    }

    function View(): State
      reads this, repository, redis
    {
      Over(memory)
    }

    /** Everything else that happens before the next statement of the caller. */
    method Others(cfg: Config, env: seq<Event>)
      modifies this, repository, redis
      ensures View() == Run(cfg, old(View()), env)
    {
      var t := Run(cfg, View(), env);
      repository.clock, repository.messages, repository.campaigns := t.clock, t.messages, t.campaigns;
      redis.items := t.queue;
      timers := t.timers;
      memory := t;
    }

    /** A goroutine that will push `job` when its timer fires. */
    method StartTimer(job: Job)
      modifies this`timers
      ensures timers == old(timers) + [job]
    {
      timers := timers + [job];
    }

    /** Moves the caller's program counter and the history as step `next` of the machine does; tables,
        list and timers are whatever the caller's own statements made of them. */
    method Note(next: State)
      modifies this`memory
      ensures View() == Over(next)
    {
      memory := next;
    }
  }
}
