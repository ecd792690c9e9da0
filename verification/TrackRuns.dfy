/** What a Track call does to the tables when nothing disturbs it and no statement fails. */
module TrackRuns {
  import opened Basics
  import M = Messages
  import C = Campaigns
  import opened Protocol
  import opened Invariants
  import opened Interleaving
  import opened Receipts
  import opened WebhookService

  // ------------------------------------------------------------------ the batch

  function Hooks(receipt: Receipt, ids: seq<ProviderId>, now: Time): seq<Hook> {
    seq(|ids|, i requires 0 <= i < |ids| => Hook(receipt, ids[i], now))
  }

  /** The campaigns of the messages with one of the ids. */
  function Affected(ms: seq<M.Message>, ids: seq<ProviderId>): set<CampaignId> {
    set i | 0 <= i < |ids| && Matched(ms, ids[i]).Some? :: Matched(ms, ids[i]).value
  }

  /** How many of the ids belong to a message, repetitions included. */
  function Hits(ms: seq<M.Message>, ids: seq<ProviderId>): nat {
    if ids == [] then 0
    else Hits(ms, ids[..|ids| - 1]) + (if Matched(ms, ids[|ids| - 1]).Some? then 1 else 0)
  }

  function RecalculateAll(cs: seq<C.Campaign>, ms: seq<M.Message>, done: set<CampaignId>): seq<C.Campaign> {
    seq(|cs|, c requires 0 <= c < |cs| => if c in done then C.Recalculate(cs[c], ms, c) else cs[c])
  }

  predicate OwnersKnown(ms: seq<M.Message>, cs: seq<C.Campaign>) {
    forall m :: 0 <= m < |ms| ==> ms[m].campaign < |cs|
  }

  lemma {:induction false} MatchedDependsOnIds(a: seq<M.Message>, b: seq<M.Message>, id: ProviderId)
    requires |a| == |b|
    requires forall m :: 0 <= m < |a| ==> a[m].providerId == b[m].providerId && a[m].campaign == b[m].campaign
    ensures Matched(a, id) == Matched(b, id)
  {
    if a != [] {
      forall m | 0 <= m < |a[1..]| ensures a[1..][m] == a[m + 1] && b[1..][m] == b[m + 1] {}
      MatchedDependsOnIds(a[1..], b[1..], id);
    }
  }

  /** Receipts never change which campaign an id belongs to. */
  lemma MatchedAfterReceipts(ms: seq<M.Message>, hooks: seq<Hook>, id: ProviderId)
    ensures Matched(Apply(ms, hooks), id) == Matched(ms, id)
  {
    Lengths(ms, hooks);
    forall m | 0 <= m < |ms|
      ensures Apply(ms, hooks)[m].providerId == ms[m].providerId && Apply(ms, hooks)[m].campaign == ms[m].campaign
    {
      StatusIsJoin(ms, hooks, m);
    }
    MatchedDependsOnIds(Apply(ms, hooks), ms, id);
  }

  /** The affected campaigns are exactly those of the messages that carry one of the ids. */
  lemma AffectedAreMatched(ms: seq<M.Message>, issued: set<ProviderId>, ids: seq<ProviderId>, c: CampaignId)
    requires ProvidersOk(ms, issued)
    ensures c in Affected(ms, ids) <==>
              exists m :: 0 <= m < |ms| && ms[m].campaign == c && ms[m].providerId.Some?
                && ms[m].providerId.value in ids
  {
    if c in Affected(ms, ids) {
      var i :| 0 <= i < |ids| && Matched(ms, ids[i]) == Some(c);
      MatchedIsOwned(ms, ids[i]);
    }
    forall m | 0 <= m < |ms| && ms[m].campaign == c && ms[m].providerId.Some? && ms[m].providerId.value in ids
      ensures c in Affected(ms, ids)
    {
      var i :| 0 <= i < |ids| && ids[i] == ms[m].providerId.value;
      MatchedNone(ms, ids[i]);
      MatchedIsOwned(ms, ids[i]);
    }
  }

  /** After the ids `ids`: the rows, the touched campaigns and the number of updates. */
  ghost predicate MarkedIds(ms: seq<M.Message>, receipt: Receipt, ids: seq<ProviderId>, now: Time,
                          rows: seq<M.Message>, affected: set<CampaignId>, updated: nat) {
    rows == Apply(ms, Hooks(receipt, ids, now)) && affected == Affected(ms, ids) && updated == Hits(ms, ids)
  }

  lemma OneMoreId(ms: seq<M.Message>, receipt: Receipt, ids: seq<ProviderId>, id: ProviderId, now: Time,
                  rows: seq<M.Message>, affected: set<CampaignId>, updated: nat)
    requires MarkedIds(ms, receipt, ids, now, rows, affected, updated)
    ensures var hit := Matched(rows, id);
            MarkedIds(ms, receipt, ids + [id], now, ReceiveAll(rows, receipt, id, now),
                    if hit.Some? then affected + {hit.value} else affected, if hit.Some? then updated + 1 else updated)
  {
    var all := ids + [id];
    assert Hooks(receipt, all, now)[..|ids|] == Hooks(receipt, ids, now);
    assert all[..|ids|] == ids;
    MatchedAfterReceipts(ms, Hooks(receipt, ids, now), id);
    forall c | c in Affected(ms, ids) ensures c in Affected(ms, all) {
      var i :| 0 <= i < |ids| && Matched(ms, ids[i]) == Some(c);
      assert all[i] == ids[i];
    }
    if Matched(ms, id).Some? {
      assert all[|ids|] == id;
    }
  }

  lemma AffectedExist(ms: seq<M.Message>, cs: seq<C.Campaign>, ids: seq<ProviderId>, c: CampaignId)
    requires OwnersKnown(ms, cs) && c in Affected(ms, ids)
    ensures c < |cs|
  {
    var i :| 0 <= i < |ids| && Matched(ms, ids[i]) == Some(c);
    MatchedIsOwned(ms, ids[i]);
  }

  // ------------------------------------------------------- the call as a run

  /** The statements of one Track call: the marks, then one recalculation per campaign in `order`. */
  function Marks(t: nat, n: nat): seq<Event> {
    seq(n, _ => TrackMark(t, true))
  }

  function Recalculations(t: nat, order: seq<CampaignId>): seq<Event> {
    seq(|order|, i requires 0 <= i < |order| => TrackRecalculate(t, order[i], true))
  }

  ghost predicate MarkedTo(s: State, receipt: Receipt, ids: seq<ProviderId>, n: nat, t: State)
    requires n <= |ids|
  {
    && t.messages == Apply(s.messages, Hooks(receipt, ids[..n], s.clock)) && t.campaigns == s.campaigns
       && t.clock == s.clock
    && t.tracks == s.tracks + [Track.Track(receipt, ids[n..], Affected(s.messages, ids[..n]))]
  }

  lemma {:induction false} MarksRun(cfg: Config, s: State, receipt: Receipt, ids: seq<ProviderId>, n: nat)
    requires n <= |ids|
    ensures MarkedTo(s, receipt, ids, n, Run(cfg, Step(cfg, s, TrackStart(receipt, ids)), Marks(|s.tracks|, n)))
  {
    if n == 0 {
      NothingMarked(cfg, s, receipt, ids);
    } else {
      hide MarkedTo;
      var es := Marks(|s.tracks|, n);
      assert es[..n - 1] == Marks(|s.tracks|, n - 1) && es[n - 1] == TrackMark(|s.tracks|, true);
      MarksRun(cfg, s, receipt, ids, n - 1);
      MarkStep(s, receipt, ids, n - 1, Run(cfg, Step(cfg, s, TrackStart(receipt, ids)), es[..n - 1]));
    }
  }

  lemma NothingMarked(cfg: Config, s: State, receipt: Receipt, ids: seq<ProviderId>)
    ensures Marks(|s.tracks|, 0) == [] && MarkedTo(s, receipt, ids, 0, Step(cfg, s, TrackStart(receipt, ids)))
  {
    assert ids[0..] == ids && ids[..0] == [] && Hooks(receipt, [], s.clock) == [];
    assert Affected(s.messages, []) == {};
  }

  lemma MarkStep(s: State, receipt: Receipt, ids: seq<ProviderId>, n: nat, t: State)
    requires n < |ids| && MarkedTo(s, receipt, ids, n, t)
    ensures MarkedTo(s, receipt, ids, n + 1, DoTrackMark(t, |s.tracks|, true))
  {
    assert ids[..n + 1] == ids[..n] + [ids[n]] && ids[n..][1..] == ids[n + 1..];
    OneMoreId(s.messages, receipt, ids[..n], ids[n], s.clock, t.messages, Affected(s.messages, ids[..n]),
              Hits(s.messages, ids[..n]));
    var u := DoTrackMark(t, |s.tracks|, true);
    assert t.tracks[|s.tracks|].ids[0] == ids[n];
    assert u.tracks == s.tracks + [u.tracks[|s.tracks|]];
  }

  ghost predicate RecalculatedTo(s: State, t: nat, order: seq<CampaignId>, u: State) {
    && t < |s.tracks| && u.messages == s.messages && |u.tracks| == |s.tracks|
    && u.campaigns == RecalculateAll(s.campaigns, s.messages, Elements(order))
    && u.tracks[t] == s.tracks[t].(owed := s.tracks[t].owed - Elements(order))
  }

  lemma {:induction false} RecalculationsRun(cfg: Config, s: State, t: nat, order: seq<CampaignId>)
    requires t < |s.tracks| && s.tracks[t].ids == [] && Distinct(order)
    requires forall i :: 0 <= i < |order| ==> order[i] in s.tracks[t].owed && order[i] < |s.campaigns|
    ensures RecalculatedTo(s, t, order, Run(cfg, s, Recalculations(t, order)))
  {
    if order != [] {
      hide RecalculatedTo, Step, DoTrackRecalculate;
      var n := |order| - 1;
      var es := Recalculations(t, order);
      LastRecalculation(t, order);
      RecalculationsRun(cfg, s, t, order[..n]);
      RecalculationStep(s, t, order, Run(cfg, s, es[..n]));
      RecalculateIsStep(cfg, Run(cfg, s, es[..n]), t, order[n]);
    } else {
      assert s.tracks[t].owed - {} == s.tracks[t].owed;
    }
  }

  lemma LastRecalculation(t: nat, order: seq<CampaignId>)
    requires order != []
    ensures var n := |order| - 1; var es := Recalculations(t, order);
            |es| == |order| && es[..n] == Recalculations(t, order[..n]) && es[n] == TrackRecalculate(t, order[n], true)
  {
  }

  lemma RecalculateIsStep(cfg: Config, s: State, t: nat, c: CampaignId)
    ensures Step(cfg, s, TrackRecalculate(t, c, true)) == DoTrackRecalculate(s, t, c, true)
  {
  }

  lemma RecalculationStep(s: State, t: nat, order: seq<CampaignId>, u: State)
    requires order != [] && Distinct(order) && RecalculatedTo(s, t, order[..|order| - 1], u)
    requires s.tracks[t].ids == []
    requires order[|order| - 1] in s.tracks[t].owed && order[|order| - 1] < |s.campaigns|
    ensures RecalculatedTo(s, t, order, DoTrackRecalculate(u, t, order[|order| - 1], true))
  {
    var n := |order| - 1;
    assert Elements(order) == Elements(order[..n]) + {order[n]};
    assert order[n] !in Elements(order[..n]);
  }

  /** A Track call that nothing disturbs is the machine's TrackStart, one TrackMark per id and one
      TrackRecalculate per affected campaign, in any order. */
  lemma TrackIsRun(cfg: Config, s: State, receipt: Receipt, ids: seq<ProviderId>, order: seq<CampaignId>)
    requires OwnersKnown(s.messages, s.campaigns) && Distinct(order) && Elements(order) == Affected(s.messages, ids)
    ensures var t := |s.tracks|;
            var u := Run(cfg, Run(cfg, Step(cfg, s, TrackStart(receipt, ids)), Marks(t, |ids|)),
                         Recalculations(t, order));
            && u.messages == Apply(s.messages, Hooks(receipt, ids, s.clock))
            && u.campaigns == RecalculateAll(s.campaigns, u.messages, Affected(s.messages, ids))
            && t < |u.tracks| && u.tracks[t].ids == [] && u.tracks[t].owed == {}
  {
    MarksRun(cfg, s, receipt, ids, |ids|);
    assert ids[..|ids|] == ids;
    forall i | 0 <= i < |order| ensures order[i] in Affected(s.messages, ids) && order[i] < |s.campaigns| {
      assert order[i] in Elements(order);
      AffectedExist(s.messages, s.campaigns, ids, order[i]);
    }
    var marked := Run(cfg, Step(cfg, s, TrackStart(receipt, ids)), Marks(|s.tracks|, |ids|));
    RecalculationsRun(cfg, marked, |s.tracks|, order);
  }

  lemma {:induction false} QuietMarks(t: nat, marks: seq<Push>)
    requires Undisturbed(marks)
    ensures Pushes(marks, Mark(t)) == Marks(t, |marks|)
  {
    if marks != [] {
      QuietMarks(t, marks[..|marks| - 1]);
    }
  }

  lemma {:induction false} QuietRecounts(t: nat, order: seq<CampaignId>, recounts: seq<Push>)
    requires Undisturbed(recounts) && |order| <= |recounts|
    ensures Recounts(t, order, recounts) == Recalculations(t, order)
  {
    if order != [] {
      QuietRecounts(t, order[..|order| - 1], recounts);
      LastRecalculation(t, order);
    }
  }

  /** What `Track` does when no other goroutine takes a step and no statement fails: the rows are the join with the
      receipts of its ids, and exactly the campaigns of the messages with one of the ids are recalculated. */
  lemma UndisturbedTrack(cfg: Config, s: State, receipt: Receipt, ids: seq<ProviderId>, marks: seq<Push>,
                         order: seq<CampaignId>, recounts: seq<Push>, u: State)
    requires OwnersKnown(s.messages, s.campaigns) && Distinct(order) && Elements(order) == Affected(s.messages, ids)
    requires Undisturbed(marks) && |marks| == |ids| && Undisturbed(recounts) && |order| <= |recounts|
    requires TrackRun(cfg, Step(cfg, s, TrackStart(receipt, ids)), |s.tracks|, marks, order, recounts, u)
    ensures u.messages == Apply(s.messages, Hooks(receipt, ids, s.clock))
    ensures u.campaigns == RecalculateAll(s.campaigns, u.messages, Affected(s.messages, ids))
  {
    hide Step, Apply, RecalculateAll, Affected, Hooks, OwnersKnown;
    QuietMarks(|s.tracks|, marks);
    QuietRecounts(|s.tracks|, order, recounts);
    assert marks[..|marks|] == marks;
    TrackIsRun(cfg, s, receipt, ids, order);
  }
}
