/** Once the provider has a message, its delivery status only moves forward. */
module Delivery {
  import opened Basics
  import M = Messages
  import C = Campaigns
  import opened Protocol
  import opened Invariants
  import opened CoreSteps

  /** `b` is a later version of the row `a`: nothing the provider has reported is taken back. */
  predicate Advances(a: M.Message, b: M.Message) {
    && b.campaign == a.campaign && b.attempts >= a.attempts
    && M.Rank(b.status) >= M.Rank(a.status)
    && (a.providerId.Some? ==> b.providerId == a.providerId && b.sentAt == a.sentAt)
    && (a.deliveredAt.Some? ==> b.deliveredAt == a.deliveredAt)
    && (a.readAt.Some? ==> b.readAt.Some? && b.readAt.value >= a.readAt.value)
  }

  ghost predicate AllAdvance(a: seq<M.Message>, b: seq<M.Message>) {
    |a| <= |b| && forall m :: 0 <= m < |a| ==> Advances(a[m], b[m])
  }

  lemma AdvanceSame(ms: seq<M.Message>)
    ensures AllAdvance(ms, ms)
  {
  }

  lemma AdvanceWork(cfg: Config, s: State, ok: bool, answer: Answer)
    requires Core(cfg, s)
    ensures AllAdvance(s.messages, DoWork(cfg, s, ok, answer).messages)
  {
    AdvanceSame(s.messages);
    match s.worker
    case Admitted(job, item) => AdvanceMark(cfg, s, job, item, ok);
    case Answered(job, item, a) => AdvanceSettle(cfg, s, job, item, a, ok);
    case _ =>
  }

  lemma AdvanceMark(cfg: Config, s: State, job: Job, item: M.Message, ok: bool)
    requires Core(cfg, s) && s.worker == Admitted(job, item)
    ensures AllAdvance(s.messages, DoMark(s, job, item, ok).messages)
  {
    assert M.RowOk(s.messages[job.message], s.clock);
  }

  lemma AdvanceSettle(cfg: Config, s: State, job: Job, item: M.Message, a: Answer, ok: bool)
    requires Core(cfg, s) && s.worker == Answered(job, item, a)
    ensures AllAdvance(s.messages, DoSettle(cfg, s, job, item, a, ok).messages)
  {
    assert M.RowOk(s.messages[job.message], s.clock);
  }

  lemma AdvanceClaimRetries(cfg: Config, s: State, limit: int, picked: seq<MessageId>)
    requires Core(cfg, s)
    ensures AllAdvance(s.messages, DoClaimRetries(s, limit, picked).messages)
  {
  }

  lemma AdvanceTrackMark(cfg: Config, s: State, t: nat, ok: bool)
    requires Core(cfg, s)
    ensures AllAdvance(s.messages, DoTrackMark(s, t, ok).messages)
  {
    forall m | 0 <= m < |s.messages| ensures Advances(s.messages[m], DoTrackMark(s, t, ok).messages[m]) {
      assert M.RowOk(s.messages[m], s.clock);
    }
  }

  lemma AdvanceStep(cfg: Config, s: State, e: Event)
    requires Core(cfg, s)
    ensures AllAdvance(s.messages, Step(cfg, s, e).messages)
  {
    hide Core, DoWork, DoTrackMark, DoClaimRetries, CanClaimDue, ReleaseAll;
    AdvanceSame(s.messages);
    match e
    case Work(ok, answer) => AdvanceWork(cfg, s, ok, answer);
    case ClaimRetries(limit, picked) => AdvanceClaimRetries(cfg, s, limit, picked);
    case TrackMark(t, ok) => AdvanceTrackMark(cfg, s, t, ok);
    case _ =>
  }

  lemma {:induction false} AdvanceRun(cfg: Config, s: State, es: seq<Event>)
    requires Core(cfg, s)
    ensures AllAdvance(s.messages, Run(cfg, s, es).messages)
  {
    if es != [] {
      var t := Run(cfg, s, es[..|es| - 1]);
      AdvanceRun(cfg, s, es[..|es| - 1]);
      CoreAlways(cfg, s, es[..|es| - 1]);
      AdvanceStep(cfg, t, es[|es| - 1]);
      var u := Run(cfg, s, es);
      forall m | 0 <= m < |s.messages| ensures Advances(s.messages[m], u.messages[m]) {
        assert Advances(s.messages[m], t.messages[m]) && Advances(t.messages[m], u.messages[m]);
      }
    }
  }

  /** Rows and campaigns are only ever added, and new rows belong to new campaigns. */
  ghost predicate Grows(s: State, t: State) {
    && |s.messages| <= |t.messages| && |s.campaigns| <= |t.campaigns|
    && (forall m :: 0 <= m < |s.messages| ==> t.messages[m].campaign == s.messages[m].campaign)
    && (forall m :: |s.messages| <= m < |t.messages| ==> t.messages[m].campaign >= |s.campaigns|)
  }

  lemma GrowsStep(cfg: Config, s: State, e: Event)
    requires Core(cfg, s)
    ensures Grows(s, Step(cfg, s, e))
  {
    AdvanceStep(cfg, s, e);
    forall m | 0 <= m < |s.messages| ensures Step(cfg, s, e).messages[m].campaign == s.messages[m].campaign {
      assert Advances(s.messages[m], Step(cfg, s, e).messages[m]);
    }
    if e.Work? {
      WorkAddsNothing(cfg, s, e.ok, e.answer);
    }
  }

  lemma WorkAddsNothing(cfg: Config, s: State, ok: bool, answer: Answer)
    ensures var t := DoWork(cfg, s, ok, answer); |t.messages| == |s.messages| && |t.campaigns| == |s.campaigns|
  {
  }

  lemma {:induction false} GrowsRun(cfg: Config, s: State, es: seq<Event>)
    requires Core(cfg, s)
    ensures Core(cfg, Run(cfg, s, es)) && Grows(s, Run(cfg, s, es))
  {
    hide Step, Core;
    if es != [] {
      var before := es[..|es| - 1];
      GrowsRun(cfg, s, before);
      GrowsStep(cfg, Run(cfg, s, before), es[|es| - 1]);
      KeepStep(cfg, Run(cfg, s, before), es[|es| - 1]);
    }
  }

  /** provider_message_id is written at most once, exactly with the dispatched statuses, and from
      then on sent < delivered < read never falls, over every further run. */
  lemma NeverRegresses(cfg: Config, clock: Time, es: seq<Event>, more: seq<Event>, m: MessageId)
    requires m < |Run(cfg, Init(clock), es).messages|
    ensures var s := Run(cfg, Init(clock), es); var t := Run(cfg, s, more);
            && m < |t.messages|
            && (s.messages[m].providerId.Some? <==> M.Dispatched(s.messages[m].status))
            && (s.messages[m].providerId.Some? ==> t.messages[m].providerId == s.messages[m].providerId)
            && M.Rank(t.messages[m].status) >= M.Rank(s.messages[m].status)
  {
    CoreInit(cfg, clock);
    CoreAlways(cfg, Init(clock), es);
    var s := Run(cfg, Init(clock), es);
    AdvanceRun(cfg, s, more);
    assert M.RowOk(s.messages[m], s.clock);
    assert Advances(s.messages[m], Run(cfg, s, more).messages[m]);
  }

  // ------------------------------------------------------- recalculated values

  /** Rows of `c` whose rank is at least `k`. */
  function Reached(ms: seq<M.Message>, c: CampaignId, k: nat): nat {
    if ms == [] then 0
    else Reached(ms[..|ms| - 1], c, k)
         + (if ms[|ms| - 1].campaign == c && M.Rank(ms[|ms| - 1].status) >= k then 1 else 0)
  }

  lemma {:induction false} ReachedIsCounted(ms: seq<M.Message>, c: CampaignId)
    ensures var k := C.TrueCounts(ms, c);
            && Reached(ms, c, 1) == k.sent + k.delivered + k.read
            && Reached(ms, c, 2) == k.delivered + k.read
            && Reached(ms, c, 3) == k.read
  {
    if ms != [] {
      ReachedIsCounted(ms[..|ms| - 1], c);
    }
  }

  lemma {:induction false} ReachedGrows(a: seq<M.Message>, b: seq<M.Message>, c: CampaignId, k: nat)
    requires AllAdvance(a, b)
    ensures Reached(a, c, k) <= Reached(b, c, k)
    decreases |b|
  {
    if |a| < |b| {
      assert AllAdvance(a, b[..|b| - 1]);
      ReachedGrows(a, b[..|b| - 1], c, k);
    } else if a != [] {
      var n := |a| - 1;
      assert Advances(a[n], b[n]);
      assert AllAdvance(a[..n], b[..n]) by {
        forall m | 0 <= m < n ensures Advances(a[..n][m], b[..n][m]) {
          assert Advances(a[m], b[m]);
        }
      }
      ReachedGrows(a[..n], b[..n], c, k);
    }
  }

  /** What RecalculateCampaign would store for sent+delivered+read, delivered+read and read never decreases. */
  lemma ProgressNeverDecreases(cfg: Config, clock: Time, es: seq<Event>, more: seq<Event>, c: CampaignId)
    ensures var s := Run(cfg, Init(clock), es); var t := Run(cfg, s, more);
            var a := C.TrueCounts(s.messages, c); var b := C.TrueCounts(t.messages, c);
            && a.sent + a.delivered + a.read <= b.sent + b.delivered + b.read
            && a.delivered + a.read <= b.delivered + b.read
            && a.read <= b.read
  {
    CoreInit(cfg, clock);
    CoreAlways(cfg, Init(clock), es);
    var s := Run(cfg, Init(clock), es);
    var t := Run(cfg, s, more);
    AdvanceRun(cfg, s, more);
    ReachedIsCounted(s.messages, c);
    ReachedIsCounted(t.messages, c);
    ReachedGrows(s.messages, t.messages, c, 1);
    ReachedGrows(s.messages, t.messages, c, 2);
    ReachedGrows(s.messages, t.messages, c, 3);
  }
}
