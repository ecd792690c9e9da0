/** Rows of `campaigns`, their UPDATE statements, and `RecalculateCampaign`. */
module Campaigns {
  import opened Basics
  import M = Messages

  datatype Status =
    Draft | Scheduled | Pending | Paused | Processing | Sent | Delivered | Read | Failed | Partial

  datatype SendMode = Now | Later

  /** The six stored counters. */
  datatype Counts = Counts(pending: nat, processing: nat, sent: nat, delivered: nat, read: nat, failed: nat)

  datatype Campaign = Campaign(
    instance: InstanceId,
    status: Status,
    mode: SendMode,
    scheduledAt: Option<Time>,
    releasedAt: Option<Time>,
    cancelledAt: Option<Time>,
    paused: bool,
    total: nat,
    counts: Counts)

  function New(instance: InstanceId, at: Option<Time>, total: nat): Campaign {
    Campaign(instance, if at.Some? then Scheduled else Pending, if at.Some? then Later else Now,
             at, None, None, false, total, Counts(total, 0, 0, 0, 0, 0))
  }

  function SetPaused(c: Campaign, paused: bool): Campaign {
    c.(paused := paused,
       status := if paused then Paused
                 else if c.mode.Later? && c.releasedAt.None? then Scheduled
                 else c.status)
  }

  /** `Pause` refuses these. */
  predicate PauseRefused(c: Campaign) {
    c.status.Sent? || c.status.Delivered? || c.status.Read? || c.status.Failed? || c.status.Partial?
      || c.status.Scheduled?
  }

  /** `UpdateScheduledCampaign`; rows with released_at set are not matched. */
  function Reschedule(c: Campaign, at: Time): Campaign {
    if c.releasedAt.Some? then c
    else c.(mode := Later, scheduledAt := Some(at), status := Scheduled, cancelledAt := None)
  }

  /** `CancelScheduledCampaign`; rows with released_at set are not matched. */
  function Cancel(c: Campaign, now: Time): Campaign {
    if c.releasedAt.Some? then c
    else c.(status := Failed, cancelledAt := Some(now))
  }

  predicate Due(c: Campaign, now: Time) {
    c.status.Scheduled? && c.scheduledAt.Some? && c.scheduledAt.value <= now
    && c.releasedAt.None? && c.cancelledAt.None?
  }

  function Release(c: Campaign, now: Time): Campaign {
    c.(status := Pending, releasedAt := Some(now))
  }

  /** `RevertScheduledCampaignRelease`. */
  function Revert(c: Campaign): Campaign {
    if c.mode.Later? then c.(status := Scheduled, releasedAt := None) else c
  }

  /** The message rows `Create` inserts with campaign `c`. */
  function FreshRows(c: CampaignId, n: nat): seq<M.Message> {
    seq(n, _ => M.New(c))
  }

  // ---------------------------------------------------------------- counting

  /** COUNT(cm.id) FILTER (WHERE cm.status = st) over the rows joined to `c`. */
  function CountOf(ms: seq<M.Message>, c: CampaignId, st: M.Status): nat {
    if ms == [] then 0
    else CountOf(ms[..|ms| - 1], c, st)
         + (if ms[|ms| - 1].campaign == c && ms[|ms| - 1].status == st then 1 else 0)
  }

  /** The number of rows joined to `c`. */
  function RowsOf(ms: seq<M.Message>, c: CampaignId): nat {
    if ms == [] then 0
    else RowsOf(ms[..|ms| - 1], c) + (if ms[|ms| - 1].campaign == c then 1 else 0)
  }

  function TrueCounts(ms: seq<M.Message>, c: CampaignId): Counts {
    Counts(CountOf(ms, c, M.Pending), CountOf(ms, c, M.Processing), CountOf(ms, c, M.Sent),
           CountOf(ms, c, M.Delivered), CountOf(ms, c, M.Read), CountOf(ms, c, M.Failed))
  }

  function Sum(k: Counts): nat {
    k.pending + k.processing + k.sent + k.delivered + k.read + k.failed
  }

  /** The CASE expression of `RecalculateCampaign`, arm by arm. */
  function Classify(c: Campaign, k: Counts): Status {
    if c.cancelledAt.Some? then Failed
    else if c.paused then Paused
    else if c.mode.Later? && c.releasedAt.None? then Scheduled
    else if c.total == 0 then Draft
    else if k.read == c.total then Read
    else if k.delivered + k.read == c.total then Delivered
    else if k.sent + k.delivered + k.read == c.total then Sent
    else if k.processing > 0 then Processing
    else if k.pending == c.total then Pending
    else if k.failed == c.total then Failed
    else if k.sent + k.delivered + k.read > 0 && k.failed > 0 && k.pending == 0 && k.processing == 0 then Partial
    else if k.pending > 0 then Processing
    else c.status
  }

  /** `RecalculateCampaign` on the row of campaign `id`. */
  function Recalculate(c: Campaign, ms: seq<M.Message>, id: CampaignId): Campaign {
    var k := TrueCounts(ms, id);
    c.(counts := k, status := Classify(c, k))
  }

  // --------------------------------------------------- what recalculation means

  /** Every joined row has exactly one of the six statuses. */
  lemma {:induction false} CountsPartitionRows(ms: seq<M.Message>, c: CampaignId)
    ensures Sum(TrueCounts(ms, c)) == RowsOf(ms, c)
  {
    if ms != [] {
      CountsPartitionRows(ms[..|ms| - 1], c);
    }
  }

  /** A count is positive exactly when a joined row has that status. */
  lemma {:induction false} CountPositive(ms: seq<M.Message>, c: CampaignId, st: M.Status)
    ensures CountOf(ms, c, st) > 0 <==> exists i :: 0 <= i < |ms| && ms[i].campaign == c && ms[i].status == st
  {
    if ms != [] {
      var init := ms[..|ms| - 1];
      CountPositive(init, c, st);
      if CountOf(init, c, st) > 0 {
        var i :| 0 <= i < |init| && init[i].campaign == c && init[i].status == st;
        assert ms[i] == init[i];
      }
      forall i | 0 <= i < |ms| && ms[i].campaign == c && ms[i].status == st
        ensures CountOf(ms, c, st) > 0
      {
        if i < |init| {
          assert init[i] == ms[i];
        }
      }
    }
  }

  /** Counts only look at (campaign, status): rows of other campaigns and all other columns are irrelevant. */
  lemma {:induction false} CountsDependOnStatuses(a: seq<M.Message>, b: seq<M.Message>, c: CampaignId)
    requires |a| == |b|
    requires forall i :: 0 <= i < |a| ==> (a[i].campaign == c <==> b[i].campaign == c)
    requires forall i :: 0 <= i < |a| && a[i].campaign == c ==> a[i].status == b[i].status
    ensures TrueCounts(a, c) == TrueCounts(b, c) && RowsOf(a, c) == RowsOf(b, c)
  {
    if a != [] {
      var n := |a| - 1;
      assert a[..n][..] == a[..n];
      forall i | 0 <= i < n ensures a[..n][i] == a[i] && b[..n][i] == b[i] {}
      CountsDependOnStatuses(a[..n], b[..n], c);
      assert a[n].campaign == c <==> b[n].campaign == c;
    }
  }

  /** Appending a fresh campaign's rows adds nothing to any other campaign. */
  lemma {:induction false} CountsAfterInsert(ms: seq<M.Message>, c: CampaignId, n: nat, other: CampaignId)
    requires forall i :: 0 <= i < |ms| ==> ms[i].campaign != c
    ensures var all := ms + FreshRows(c, n);
            && TrueCounts(all, c) == Counts(n, 0, 0, 0, 0, 0) && RowsOf(all, c) == n
            && (other != c ==>
                 TrueCounts(all, other) == TrueCounts(ms, other) && RowsOf(all, other) == RowsOf(ms, other))
  {
    var all := ms + FreshRows(c, n);
    if n == 0 {
      assert all == ms;
      NoRows(ms, c);
    } else {
      CountsAfterInsert(ms, c, n - 1, other);
      assert all[..|all| - 1] == ms + FreshRows(c, n - 1);
    }
  }

  lemma {:induction false} NoRows(ms: seq<M.Message>, c: CampaignId)
    requires forall i :: 0 <= i < |ms| ==> ms[i].campaign != c
    ensures TrueCounts(ms, c) == Counts(0, 0, 0, 0, 0, 0) && RowsOf(ms, c) == 0
  {
    if ms != [] {
      NoRows(ms[..|ms| - 1], c);
    }
  }
}
