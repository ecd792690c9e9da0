/** What `RecalculateCampaign` computes, independently of how its CASE is written. */
module StatusLaws {
  import opened Basics
  import M = Messages
  import C = Campaigns
  import opened Protocol
  import opened Interleaving
  import opened Guarantees

  /** The statuses of the rows joined to `c`, order forgotten. */
  function Statuses(ms: seq<M.Message>, c: CampaignId): multiset<M.Status> {
    if ms == [] then multiset{}
    else Statuses(ms[..|ms| - 1], c)
         + (if ms[|ms| - 1].campaign == c then multiset{ms[|ms| - 1].status} else multiset{})
  }

  lemma {:induction false} CountIsMultiplicity(ms: seq<M.Message>, c: CampaignId, st: M.Status)
    ensures C.CountOf(ms, c, st) == Statuses(ms, c)[st]
  {
    if ms != [] {
      CountIsMultiplicity(ms[..|ms| - 1], c, st);
    }
  }

  /** The columns the CASE may look at, reduced to what it may learn from them. */
  predicate SameFlags(a: C.Campaign, b: C.Campaign) {
    && (a.cancelledAt.Some? <==> b.cancelledAt.Some?) && a.paused == b.paused
    && a.mode == b.mode && (a.releasedAt.Some? <==> b.releasedAt.Some?) && a.total == b.total
  }

  /** With at least one row and all rows counted, the ELSE arm is never taken: no earlier status shows. */
  lemma ElseUnreachable(c: C.Campaign, k: C.Counts, earlier: C.Status)
    requires C.Sum(k) == c.total && c.total >= 1
    ensures C.Classify(c.(status := earlier), k) == C.Classify(c, k)
  {
  }

  /** History-free: in every reachable state the recalculated status and counters depend only on the flags
      and the multiset of message statuses, whatever statuses and counters were stored before. */
  lemma RecalculatedStatusIsHistoryFree(cfg: Config, s: State, t: State, c: CampaignId, c': CampaignId)
    requires Reachable(cfg, s) && Reachable(cfg, t) && c < |s.campaigns| && c' < |t.campaigns|
    requires SameFlags(s.campaigns[c], t.campaigns[c']) && Statuses(s.messages, c) == Statuses(t.messages, c')
    ensures var a := C.Recalculate(s.campaigns[c], s.messages, c);
            var b := C.Recalculate(t.campaigns[c'], t.messages, c');
            a.status == b.status && a.counts == b.counts
  {
    hide Step;
    CounterCoherence(cfg, s, c);
    C.CountsPartitionRows(s.messages, c);
    SameStatusesSameCounts(s.messages, c, t.messages, c');
    ElseUnreachable(s.campaigns[c], C.TrueCounts(s.messages, c), C.Draft);
    ElseUnreachable(t.campaigns[c'], C.TrueCounts(t.messages, c'), C.Draft);
  }

  lemma SameStatusesSameCounts(a: seq<M.Message>, c: CampaignId, b: seq<M.Message>, c': CampaignId)
    requires Statuses(a, c) == Statuses(b, c')
    ensures C.TrueCounts(a, c) == C.TrueCounts(b, c')
  {
    forall st: M.Status ensures C.CountOf(a, c, st) == C.CountOf(b, c', st) {
      CountIsMultiplicity(a, c, st);
      CountIsMultiplicity(b, c', st);
    }
  }

  /** Recalculating twice is recalculating once. */
  lemma RecalculateIdempotent(c: C.Campaign, ms: seq<M.Message>, id: CampaignId)
    ensures C.Recalculate(C.Recalculate(c, ms, id), ms, id) == C.Recalculate(c, ms, id)
  {
    var once := C.Recalculate(c, ms, id);
    assert C.Classify(once, once.counts) == once.status;
  }

  /** What a pause does, the resume undoes: after SetCampaignPaused(true), SetCampaignPaused(false) and the
      recalculation, the row is the one a recalculation alone would have left. */
  lemma ResumeUndoesPause(cfg: Config, s: State, c: CampaignId)
    requires Reachable(cfg, s) && c < |s.campaigns| && !s.campaigns[c].paused
    ensures C.Recalculate(C.SetPaused(C.SetPaused(s.campaigns[c], true), false), s.messages, c)
            == C.Recalculate(s.campaigns[c], s.messages, c)
  {
    CounterCoherence(cfg, s, c);
    C.CountsPartitionRows(s.messages, c);
    ElseUnreachable(s.campaigns[c], C.TrueCounts(s.messages, c), C.Paused);
  }

  predicate Finalized(s: C.Status) {
    s.Sent? || s.Delivered? || s.Read? || s.Failed? || s.Partial?
  }

  /** Without a cancel, pause or schedule override, the recalculated status is final iff no message is
      pending or processing. */
  lemma FinalIffNothingOpen(cfg: Config, s: State, c: CampaignId)
    requires Reachable(cfg, s) && c < |s.campaigns|
    requires s.campaigns[c].cancelledAt.None? && !s.campaigns[c].paused
    requires !(s.campaigns[c].mode.Later? && s.campaigns[c].releasedAt.None?)
    ensures Finalized(C.Recalculate(s.campaigns[c], s.messages, c).status) <==>
            forall m :: 0 <= m < |s.messages| && s.messages[m].campaign == c ==>
              !s.messages[m].status.Pending? && !s.messages[m].status.Processing?
  {
    CounterCoherence(cfg, s, c);
    C.CountsPartitionRows(s.messages, c);
    C.CountPositive(s.messages, c, M.Pending);
    C.CountPositive(s.messages, c, M.Processing);
    FinalIffCounts(s.campaigns[c], C.TrueCounts(s.messages, c));
  }

  lemma FinalIffCounts(c: C.Campaign, k: C.Counts)
    requires C.Sum(k) == c.total && c.total >= 1
    requires c.cancelledAt.None? && !c.paused && !(c.mode.Later? && c.releasedAt.None?)
    ensures Finalized(C.Classify(c, k)) <==> k.pending == 0 && k.processing == 0
  {
  }

  // ------------------------------------------------------- in terms of the rows

  /** The rows joined to `c` that have one of the statuses `wanted`. */
  ghost function Having(ms: seq<M.Message>, c: CampaignId, wanted: set<M.Status>): set<MessageId> {
    set m | 0 <= m < |ms| && ms[m].campaign == c && ms[m].status in wanted
  }

  ghost predicate All(ms: seq<M.Message>, c: CampaignId, wanted: set<M.Status>) {
    forall m :: 0 <= m < |ms| && ms[m].campaign == c ==> ms[m].status in wanted
  }

  ghost predicate Any(ms: seq<M.Message>, c: CampaignId, wanted: set<M.Status>) {
    exists m :: 0 <= m < |ms| && ms[m].campaign == c && ms[m].status in wanted
  }

  const DISPATCHED: set<M.Status> := {M.Sent, M.Delivered, M.Read}

  /** A filtered COUNT is the number of rows it is meant to count. */
  lemma {:induction false} CountIsNumber(ms: seq<M.Message>, c: CampaignId, st: M.Status)
    ensures C.CountOf(ms, c, st) == |Having(ms, c, {st})|
  {
    if ms != [] {
      var n := |ms| - 1;
      CountIsNumber(ms[..n], c, st);
      var more := if ms[n].campaign == c && ms[n].status == st then {n} else {};
      assert Having(ms, c, {st}) == Having(ms[..n], c, {st}) + more;
    }
  }

  /** What the flags decide alone, and what the rows decide without them. */
  ghost predicate Verdict(row: C.Campaign, ms: seq<M.Message>, c: CampaignId, st: C.Status) {
    if row.cancelledAt.Some? then st == C.Failed
    else if row.paused then st == C.Paused
    else if row.mode.Later? && row.releasedAt.None? then st == C.Scheduled
    else
      && (st == C.Read <==> All(ms, c, {M.Read}))
      && (st == C.Delivered <==> All(ms, c, {M.Delivered, M.Read}) && Any(ms, c, {M.Delivered}))
      && (st == C.Sent <==> All(ms, c, DISPATCHED) && Any(ms, c, {M.Sent}))
      && (st == C.Failed <==> All(ms, c, {M.Failed}))
      && (st == C.Partial <==>
            All(ms, c, DISPATCHED + {M.Failed}) && Any(ms, c, DISPATCHED) && Any(ms, c, {M.Failed}))
      && (st == C.Pending <==> All(ms, c, {M.Pending}))
      && st in {C.Read, C.Delivered, C.Sent, C.Failed, C.Partial, C.Pending, C.Processing}
  }

  /** What a recalculation stores, told by the rows: six numbers of rows, and the status. It is `processing` exactly in
      the cases that are none of the others. */
  lemma RecalculatedMeans(cfg: Config, s: State, c: CampaignId)
    requires Reachable(cfg, s) && c < |s.campaigns|
    ensures var row, ms := C.Recalculate(s.campaigns[c], s.messages, c), s.messages;
            && row == s.campaigns[c].(status := row.status, counts := row.counts)
            && row.counts.pending == |Having(ms, c, {M.Pending})|
            && row.counts.processing == |Having(ms, c, {M.Processing})|
            && row.counts.sent == |Having(ms, c, {M.Sent})| && row.counts.delivered == |Having(ms, c, {M.Delivered})|
            && row.counts.read == |Having(ms, c, {M.Read})| && row.counts.failed == |Having(ms, c, {M.Failed})|
            && Verdict(s.campaigns[c], ms, c, row.status)
  {
    CounterCoherence(cfg, s, c);
    C.CountsPartitionRows(s.messages, c);
    forall st: M.Status ensures C.CountOf(s.messages, c, st) == |Having(s.messages, c, {st})| {
      CountIsNumber(s.messages, c, st);
    }
    hide Step, Reachable;
    VerdictFromCounts(s.campaigns[c], s.messages, c);
  }

  lemma VerdictFromCounts(row: C.Campaign, ms: seq<M.Message>, c: CampaignId)
    requires C.Sum(C.TrueCounts(ms, c)) == row.total && row.total >= 1
    ensures Verdict(row, ms, c, C.Classify(row, C.TrueCounts(ms, c)))
  {
    hide All, Any, C.CountOf;
    forall wanted
      ensures All(ms, c, wanted) <==> !AnyCounted(C.TrueCounts(ms, c), ALL - wanted)
      ensures Any(ms, c, wanted) <==> AnyCounted(C.TrueCounts(ms, c), wanted)
    {
      AnyIffCounted(ms, c, wanted);
      AnyIffCounted(ms, c, ALL - wanted);
      AllIffNoOther(ms, c, wanted);
    }
  }

  const ALL: set<M.Status> := {M.Pending, M.Processing, M.Sent, M.Delivered, M.Read, M.Failed}

  predicate AnyCounted(k: C.Counts, wanted: set<M.Status>) {
    || (M.Pending in wanted && k.pending > 0) || (M.Processing in wanted && k.processing > 0)
    || (M.Sent in wanted && k.sent > 0) || (M.Delivered in wanted && k.delivered > 0)
    || (M.Read in wanted && k.read > 0) || (M.Failed in wanted && k.failed > 0)
  }

  lemma AnyIffCounted(ms: seq<M.Message>, c: CampaignId, wanted: set<M.Status>)
    ensures Any(ms, c, wanted) <==> AnyCounted(C.TrueCounts(ms, c), wanted)
  {
    forall st: M.Status
      ensures C.CountOf(ms, c, st) > 0 <==> exists m :: 0 <= m < |ms| && ms[m].campaign == c && ms[m].status == st
    {
      C.CountPositive(ms, c, st);
    }
    hide C.CountOf;
  }

  /** "All rows are" is "no row is one of the others". */
  lemma AllIffNoOther(ms: seq<M.Message>, c: CampaignId, wanted: set<M.Status>)
    ensures All(ms, c, wanted) <==> !Any(ms, c, ALL - wanted)
  {
    forall st: M.Status ensures st in ALL {
      match st case Pending => case Processing => case Sent => case Delivered => case Read => case Failed =>
    }
  }

  /** When the status is up to date, a pause is refused exactly for campaigns that are cancelled, wait for their
      schedule, or have no open message left, unless they are paused already. */
  lemma PauseRefusedIff(cfg: Config, s: State, c: CampaignId)
    requires Reachable(cfg, s) && c < |s.campaigns|
    requires s.campaigns[c].status == C.Recalculate(s.campaigns[c], s.messages, c).status
    ensures var row := s.campaigns[c];
            C.PauseRefused(row) <==>
              || row.cancelledAt.Some?
              || (!row.paused && ((row.mode.Later? && row.releasedAt.None?)
                                  || !Any(s.messages, c, {M.Pending, M.Processing})))
  {
    hide Reachable, Step, Having, C.Recalculate, C.PauseRefused, Verdict, Any;
    RecalculatedMeans(cfg, s, c);
    PauseVerdict(s.campaigns[c], s.messages, c);
  }

  lemma PauseVerdict(row: C.Campaign, ms: seq<M.Message>, c: CampaignId)
    requires Verdict(row, ms, c, row.status)
    ensures C.PauseRefused(row) <==>
              || row.cancelledAt.Some?
              || (!row.paused
                  && ((row.mode.Later? && row.releasedAt.None?) || !Any(ms, c, {M.Pending, M.Processing})))
  {
    AllIffNoOther(ms, c, DISPATCHED + {M.Failed});
    assert ALL - (DISPATCHED + {M.Failed}) == {M.Pending, M.Processing};
  }
}
