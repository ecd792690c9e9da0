/** The stored counters agree with the message table, up to owed recalculations. */
module Counters {
  import opened Basics
  import M = Messages
  import C = Campaigns
  import opened Protocol
  import opened Invariants

  /** The six counters always add up to the campaign's size. */
  ghost predicate Balanced(row: C.Campaign, ms: seq<M.Message>, c: CampaignId) {
    C.RowsOf(ms, c) == row.total && C.Sum(row.counts) == row.total
  }

  ghost predicate Exact(row: C.Campaign, ms: seq<M.Message>, c: CampaignId) {
    row.counts == C.TrueCounts(ms, c)
  }

  ghost predicate CounterOk(row: C.Campaign, ms: seq<M.Message>, w: Worker, tracks: seq<Track>,
                            stale: set<CampaignId>, c: CampaignId) {
    Balanced(row, ms, c) && (Exact(row, ms, c) || Owed(w, tracks, c) || c in stale)
  }

  ghost predicate CountersOk(cs: seq<C.Campaign>, ms: seq<M.Message>, w: Worker, tracks: seq<Track>,
                             stale: set<CampaignId>) {
    forall c :: 0 <= c < |cs| ==> CounterOk(cs[c], ms, w, tracks, stale, c)
  }

  ghost predicate Given(cfg: Config, s: State) {
    Core(cfg, s) && CountersOk(s.campaigns, s.messages, s.worker, s.tracks, s.stale)
  }

  ghost predicate Good(s: State) {
    CountersOk(s.campaigns, s.messages, s.worker, s.tracks, s.stale)
  }

  lemma CountersCreate(cfg: Config, s: State, instance: InstanceId, at: Option<Time>, n: nat)
    requires Given(cfg, s)
    ensures Good(DoCreate(s, instance, at, n))
  {
    var t := DoCreate(s, instance, at, n);
    var newest := |s.campaigns|;
    if n > 0 {
      forall i | 0 <= i < |s.messages| ensures s.messages[i].campaign != newest {
        assert Dir(s).owner[i] == s.messages[i].campaign;
      }
      forall c | 0 <= c < |t.campaigns|
        ensures CounterOk(t.campaigns[c], t.messages, t.worker, t.tracks, t.stale, c)
      {
        C.CountsAfterInsert(s.messages, newest, n, c);
      }
    }
  }

  /** Rewriting a campaign row's flags leaves its counters alone. */
  lemma CountersCampaignRow(cfg: Config, s: State, c: CampaignId, row: C.Campaign)
    requires Given(cfg, s) && c < |s.campaigns|
    requires row.counts == s.campaigns[c].counts && row.total == s.campaigns[c].total
    ensures Good(SetCampaign(s, c, row))
  {
  }

  /** A row with the true counters no longer needs an excuse. */
  lemma CountersFreshRow(s: State, c: CampaignId, row: C.Campaign, cs: seq<C.Campaign>, stale: set<CampaignId>)
    requires Good(s) && c < |s.campaigns| && cs == s.campaigns[c := row]
    requires forall x :: x in s.stale && x != c ==> x in stale
    requires Exact(row, s.messages, c) && row.total == s.campaigns[c].total
    ensures CountersOk(cs, s.messages, s.worker, s.tracks, stale)
  {
    BalancedIfExact(s, c, row);
    OthersKeep(s, c, row, cs, stale);
  }

  lemma BalancedIfExact(s: State, c: CampaignId, row: C.Campaign)
    requires Good(s) && c < |s.campaigns| && Exact(row, s.messages, c) && row.total == s.campaigns[c].total
    ensures Balanced(row, s.messages, c)
  {
    assert CounterOk(s.campaigns[c], s.messages, s.worker, s.tracks, s.stale, c);
    C.CountsPartitionRows(s.messages, c);
  }

  lemma OthersKeep(s: State, c: CampaignId, row: C.Campaign, cs: seq<C.Campaign>, stale: set<CampaignId>)
    requires Good(s) && c < |s.campaigns| && cs == s.campaigns[c := row]
    requires forall x :: x in s.stale && x != c ==> x in stale
    requires CounterOk(row, s.messages, s.worker, s.tracks, stale, c)
    ensures CountersOk(cs, s.messages, s.worker, s.tracks, stale)
  {
  }

  lemma CountersRecalculate(cfg: Config, s: State, c: CampaignId, ok: bool)
    requires Given(cfg, s)
    ensures Good(DoRecalculate(s, c, ok))
    ensures c < |s.campaigns| && ok ==> DoRecalculate(s, c, ok).campaigns[c].counts == C.TrueCounts(s.messages, c)
  {
    if c < |s.campaigns| && ok {
      var row := C.Recalculate(s.campaigns[c], s.messages, c);
      CountersFreshRow(s, c, row, s.campaigns[c := row], s.stale - {c});
    }
  }

  /** After its recalculation the worker owes nothing. */
  lemma CountersRecalculateThen(cfg: Config, s: State, ok: bool, w: Worker)
    requires Given(cfg, s) && (s.worker.Marked? || s.worker.Settled?) && !w.Marked? && !w.Settled?
    ensures Good(DoRecalculateThen(s, s.worker.item.campaign, ok, w))
  {
    var own := s.worker.item.campaign;
    CountersRecalculate(cfg, s, own, ok);
    var r := DoRecalculate(s, own, ok);
    forall c | 0 <= c < |s.campaigns|
      ensures CounterOk(r.campaigns[c], s.messages, w, s.tracks, r.stale, c)
    {
      assert CounterOk(r.campaigns[c], s.messages, s.worker, s.tracks, r.stale, c);
    }
  }

  /** Statuses may only change in campaigns that somebody owes. */
  lemma CountersStatuses(s: State, t: State)
    requires Good(s) && t.campaigns == s.campaigns && |t.messages| == |s.messages|
    requires forall m :: 0 <= m < |s.messages| ==>
               && t.messages[m].campaign == s.messages[m].campaign
               && (t.messages[m].status == s.messages[m].status || Owed(t.worker, t.tracks, s.messages[m].campaign))
    requires forall c :: Owed(s.worker, s.tracks, c) || c in s.stale ==> Owed(t.worker, t.tracks, c) || c in t.stale
    ensures Good(t)
  {
    forall c | 0 <= c < |t.campaigns|
      ensures CounterOk(t.campaigns[c], t.messages, t.worker, t.tracks, t.stale, c)
    {
      assert CounterOk(s.campaigns[c], s.messages, s.worker, s.tracks, s.stale, c);
      RowsUnchanged(s.messages, t.messages, c);
      if !Owed(t.worker, t.tracks, c) {
        C.CountsDependOnStatuses(s.messages, t.messages, c);
      }
    }
  }

  lemma {:induction false} RowsUnchanged(a: seq<M.Message>, b: seq<M.Message>, c: CampaignId)
    requires |a| == |b| && forall m :: 0 <= m < |a| ==> a[m].campaign == b[m].campaign
    ensures C.RowsOf(a, c) == C.RowsOf(b, c)
  {
    if a != [] {
      var n := |a| - 1;
      RowsUnchanged(a[..n], b[..n], c);
      assert a[n].campaign == b[n].campaign;
    }
  }

  lemma CountersMark(cfg: Config, s: State, job: Job, item: M.Message, ok: bool)
    requires Given(cfg, s) && s.worker == Admitted(job, item)
    ensures Good(DoMark(s, job, item, ok))
  {
    CountersStatuses(s, DoMark(s, job, item, ok));
  }

  lemma CountersSettle(cfg: Config, s: State, job: Job, item: M.Message, a: Answer, ok: bool)
    requires Given(cfg, s) && s.worker == Answered(job, item, a)
    ensures Good(DoSettle(cfg, s, job, item, a, ok))
  {
    CountersStatuses(s, DoSettle(cfg, s, job, item, a, ok));
  }

  lemma CountersClaimRetries(cfg: Config, s: State, limit: int, picked: seq<MessageId>)
    requires Given(cfg, s)
    ensures Good(DoClaimRetries(s, limit, picked))
  {
    CountersStatuses(s, DoClaimRetries(s, limit, picked));
  }

  /** With unique provider ids, RETURNING names the campaign of every updated row. */
  lemma {:induction false} MatchedIsOwner(ms: seq<M.Message>, issued: set<ProviderId>, m: MessageId)
    requires ProvidersOk(ms, issued) && m < |ms| && ms[m].providerId.Some?
    ensures Matched(ms, ms[m].providerId.value) == Some(ms[m].campaign)
  {
    if m > 0 {
      assert ms[0].providerId != ms[m].providerId;
      var rest := ms[1..];
      forall i, j | 0 <= i < j < |rest| && rest[i].providerId.Some? ensures rest[i].providerId != rest[j].providerId {
        assert ms[i + 1].providerId != ms[j + 1].providerId;
      }
      MatchedIsOwner(rest, issued, m - 1);
    }
  }

  lemma CountersTrackMark(cfg: Config, s: State, t: nat, ok: bool)
    requires Given(cfg, s)
    ensures Good(DoTrackMark(s, t, ok))
  {
    var u := DoTrackMark(s, t, ok);
    if t < |s.tracks| && s.tracks[t].ids != [] {
      var track := s.tracks[t];
      var id := track.ids[0];
      forall c | Owed(s.worker, s.tracks, c) || c in s.stale
        ensures Owed(u.worker, u.tracks, c) || c in u.stale
      {
        OwedAfterUpdate(s, u, t, c);
      }
      forall m | 0 <= m < |s.messages|
        ensures u.messages[m].campaign == s.messages[m].campaign
        ensures u.messages[m].status == s.messages[m].status || Owed(u.worker, u.tracks, s.messages[m].campaign)
      {
        if ok && s.messages[m].providerId == Some(id) {
          MatchedIsOwner(s.messages, s.issued, m);
          assert s.messages[m].campaign in u.tracks[t].owed;
        }
      }
      CountersStatuses(s, u);
    }
  }

  /** Replacing one Track keeps every debt that its new set or `stale` still holds. */
  lemma OwedAfterUpdate(s: State, u: State, t: nat, c: CampaignId)
    requires t < |s.tracks| && u.worker == s.worker && |u.tracks| == |s.tracks|
    requires forall k :: 0 <= k < |s.tracks| && k != t ==> u.tracks[k] == s.tracks[k]
    requires forall x :: x in s.tracks[t].owed ==> x in u.tracks[t].owed || x in u.stale
    requires s.stale <= u.stale
    requires Owed(s.worker, s.tracks, c) || c in s.stale
    ensures Owed(u.worker, u.tracks, c) || c in u.stale
  {
    if !WorkerOwes(s.worker, c) && c !in s.stale {
      var k :| 0 <= k < |s.tracks| && c in s.tracks[k].owed;
      if k != t {
        assert c in u.tracks[k].owed;
      }
    }
  }

  lemma CountersTrackRecalculate(cfg: Config, s: State, t: nat, c: CampaignId, ok: bool)
    requires Given(cfg, s)
    ensures Good(DoTrackRecalculate(s, t, c, ok))
  {
    var u := DoTrackRecalculate(s, t, c, ok);
    if t < |s.tracks| && s.tracks[t].ids == [] && c in s.tracks[t].owed {
      if !ok {
        forall x | Owed(s.worker, s.tracks, x) || x in s.stale
          ensures Owed(u.worker, u.tracks, x) || x in u.stale
        {
          OwedAfterUpdate(s, u, t, x);
        }
        CountersStatuses(s, u);
      } else {
        CountersRecalculate(cfg, s, c, true);
        var r := DoRecalculate(s, c, true);
        forall x | 0 <= x < |u.campaigns|
          ensures CounterOk(u.campaigns[x], u.messages, u.worker, u.tracks, u.stale, x)
        {
          assert CounterOk(r.campaigns[x], r.messages, r.worker, r.tracks, r.stale, x);
          if x != c && (Owed(r.worker, r.tracks, x) || x in r.stale) {
            OwedElsewhere(r, u, t, c, x);
          }
        }
      }
    }
  }

  lemma OwedElsewhere(r: State, u: State, t: nat, c: CampaignId, x: CampaignId)
    requires t < |r.tracks| && u.worker == r.worker && |u.tracks| == |r.tracks| && u.stale == r.stale && x != c
    requires forall k :: 0 <= k < |r.tracks| && k != t ==> u.tracks[k] == r.tracks[k]
    requires u.tracks[t].owed == r.tracks[t].owed - {c}
    requires Owed(r.worker, r.tracks, x) || x in r.stale
    ensures Owed(u.worker, u.tracks, x) || x in u.stale
  {
    if !WorkerOwes(r.worker, x) && x !in r.stale {
      var k :| 0 <= k < |r.tracks| && x in r.tracks[k].owed;
      assert x in u.tracks[k].owed;
    }
  }

  lemma CountersTrackStart(cfg: Config, s: State, receipt: Receipt, ids: seq<ProviderId>)
    requires Given(cfg, s)
    ensures Good(s.(tracks := s.tracks + [Track(receipt, ids, {})]))
  {
    var u := s.(tracks := s.tracks + [Track(receipt, ids, {})]);
    forall c | Owed(s.worker, s.tracks, c) ensures Owed(u.worker, u.tracks, c) {
      if !WorkerOwes(s.worker, c) {
        var k :| 0 <= k < |s.tracks| && c in s.tracks[k].owed;
        assert c in u.tracks[k].owed;
      }
    }
    CountersStatuses(s, u);
  }

  lemma CountersCrash(cfg: Config, s: State)
    requires Given(cfg, s)
    ensures Good(DoCrash(s))
  {
    var u := DoCrash(s);
    forall c | 0 <= c < |u.campaigns|
      ensures CounterOk(u.campaigns[c], u.messages, u.worker, u.tracks, u.stale, c)
    {
      assert CounterOk(s.campaigns[c], s.messages, s.worker, s.tracks, s.stale, c);
    }
  }
}
