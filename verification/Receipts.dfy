/** Webhooks commute: only which receipts arrived matters, not their order or repetition. */
module Receipts {
  import opened Basics
  import M = Messages
  import C = Campaigns
  import opened Protocol
  import opened Invariants

  /** One id of one Track call, handled at time `at`. */
  datatype Hook = Hook(receipt: Receipt, id: ProviderId, at: Time)

  function Apply(ms: seq<M.Message>, hooks: seq<Hook>): seq<M.Message> {
    if hooks == [] then ms
    else
      var h := hooks[|hooks| - 1];
      ReceiveAll(Apply(ms, hooks[..|hooks| - 1]), h.receipt, h.id, h.at)
  }

  ghost predicate Seen(hooks: seq<Hook>, receipt: Receipt, id: ProviderId) {
    exists i :: 0 <= i < |hooks| && hooks[i].receipt == receipt && hooks[i].id == id
  }

  /** The join of what the row says and what has been seen. */
  ghost function Joined(st: M.Status, hooks: seq<Hook>, id: ProviderId): M.Status {
    if Seen(hooks, ReadReceipt, id) || st.Read? then M.Read
    else if Seen(hooks, DeliveredReceipt, id) || st.Delivered? then M.Delivered
    else st
  }

  /** The status of every row after any sequence of receipts is that join. */
  lemma {:induction false} StatusIsJoin(ms: seq<M.Message>, hooks: seq<Hook>, m: MessageId)
    requires m < |ms|
    ensures |Apply(ms, hooks)| == |ms|
    ensures var row := Apply(ms, hooks)[m];
            && row.campaign == ms[m].campaign && row.providerId == ms[m].providerId
            && row.status
               == (if ms[m].providerId.Some? then Joined(ms[m].status, hooks, ms[m].providerId.value) else ms[m].status)
  {
    if hooks != [] {
      var n := |hooks| - 1;
      var before := hooks[..n];
      StatusIsJoin(ms, before, m);
      if ms[m].providerId.Some? {
        var id := ms[m].providerId.value;
        forall receipt
          ensures Seen(hooks, receipt, id)
                  <==> Seen(before, receipt, id) || (hooks[n].receipt == receipt && hooks[n].id == id)
        {
          if Seen(before, receipt, id) {
            var i :| 0 <= i < n && before[i].receipt == receipt && before[i].id == id;
            assert hooks[i] == before[i];
          }
          if Seen(hooks, receipt, id) {
            var i :| 0 <= i < |hooks| && hooks[i].receipt == receipt && hooks[i].id == id;
            if i < n {
              assert before[i] == hooks[i];
            }
          }
        }
      }
    }
  }

  /** The same receipts, whatever their order, times and number of repetitions. */
  ghost predicate SameReceipts(xs: seq<Hook>, ys: seq<Hook>) {
    forall receipt, id :: Seen(xs, receipt, id) <==> Seen(ys, receipt, id)
  }

  /** Confluence: any permutation or repetition of the same receipts leaves the same message statuses and
      the same recalculated counters in every campaign. */
  lemma Confluence(ms: seq<M.Message>, xs: seq<Hook>, ys: seq<Hook>, c: CampaignId)
    requires SameReceipts(xs, ys)
    ensures |Apply(ms, xs)| == |Apply(ms, ys)| == |ms|
    ensures forall m :: 0 <= m < |ms| ==> Apply(ms, xs)[m].status == Apply(ms, ys)[m].status
    ensures C.TrueCounts(Apply(ms, xs), c) == C.TrueCounts(Apply(ms, ys), c)
  {
    Lengths(ms, xs);
    Lengths(ms, ys);
    forall m | 0 <= m < |ms|
      ensures Apply(ms, xs)[m].status == Apply(ms, ys)[m].status
      ensures Apply(ms, xs)[m].campaign == Apply(ms, ys)[m].campaign
    {
      StatusIsJoin(ms, xs, m);
      StatusIsJoin(ms, ys, m);
    }
    C.CountsDependOnStatuses(Apply(ms, xs), Apply(ms, ys), c);
  }

  lemma {:induction false} Lengths(ms: seq<M.Message>, hooks: seq<Hook>)
    ensures |Apply(ms, hooks)| == |ms|
  {
    if hooks != [] {
      Lengths(ms, hooks[..|hooks| - 1]);
    }
  }

  /** Ids that no row carries change nothing, in particular webhooks that arrive before MarkMessageSent. */
  lemma UnknownIdsChangeNothing(ms: seq<M.Message>, receipt: Receipt, id: ProviderId, now: Time)
    ensures Unused(ms, id) <==> Matched(ms, id).None?
    ensures Unused(ms, id) ==> ReceiveAll(ms, receipt, id, now) == ms
  {
    MatchedNone(ms, id);
  }

  lemma {:induction false} MatchedNone(ms: seq<M.Message>, id: ProviderId)
    ensures Unused(ms, id) <==> Matched(ms, id).None?
  {
    if ms != [] {
      MatchedNone(ms[1..], id);
      if Unused(ms[1..], id) && ms[0].providerId != Some(id) {
        forall m | 0 <= m < |ms| ensures ms[m].providerId != Some(id) {
          if m > 0 {
            assert ms[m] == ms[1..][m - 1];
          }
        }
      }
      if Unused(ms, id) {
        forall m | 0 <= m < |ms[1..]| ensures ms[1..][m].providerId != Some(id) {
          assert ms[1..][m] == ms[m + 1];
        }
      }
    }
  }
}
