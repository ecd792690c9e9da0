/** The columns of a campaign hold what was last asked for, and releases keep to them. */
module Requests {
  import opened Basics
  import C = Campaigns
  import opened Protocol
  import opened Invariants
  import opened CoreSteps
  import opened Interleaving
  import opened Guarantees
  import opened StatusLaws
  import B = Batches

  /** What the requests for a campaign and its releases come to. */
  datatype Wish = Wish(at: Option<Time>, paused: bool, cancelled: Option<Time>, released: Option<Time>)

  const NO_WISH := Wish(None, false, None, None)

  /** `c` is among the campaigns that a successful claim takes. */
  ghost predicate ClaimedNow(x: State, e: Event, c: CampaignId) {
    e.ClaimDue? && CanClaimDue(x, e.batchSize, e.claims) && c in Campaigns(e.claims)
  }

  /** What step `e` asks of `c`: create it for an instant or for now, pause or resume it; and, as long as it is not
      released, move it to another instant or cancel it. A claim releases it, a revert takes that back. */
  ghost function Asked(x: State, e: Event, c: CampaignId, w: Wish): Wish {
    match e
    case Create(_, at, n) => if c == |x.campaigns| && n > 0 then NO_WISH.(at := at) else w
    case SetPaused(d, p) => if d == c then w.(paused := p) else w
    case Reschedule(d, when) => if d == c && w.released.None? then w.(at := Some(when), cancelled := None) else w
    case CancelScheduled(d) => if d == c && w.released.None? then w.(cancelled := Some(x.clock)) else w
    case RevertRelease(ok) => if ok && x.scheduler == Reverting(c) then w.(released := None) else w
    case _ => if ClaimedNow(x, e, c) then w.(released := Some(x.clock)) else w
  }

  /** The wish at the end of a run from the empty system; before the campaign exists there is none. */
  ghost function WishOf(cfg: Config, clock: Time, es: seq<Event>, c: CampaignId): Wish {
    if es == [] then NO_WISH
    else
      var before := es[..|es| - 1];
      var x := Run(cfg, Init(clock), before);
      if c > |x.campaigns| then NO_WISH
      else if c == |x.campaigns| && !es[|es| - 1].Create? then NO_WISH
      else Asked(x, es[|es| - 1], c, WishOf(cfg, clock, before, c))
  }

  ghost predicate Granted(row: C.Campaign, w: Wish) {
    && row.scheduledAt == w.at && row.paused == w.paused && row.cancelledAt == w.cancelled
    && row.releasedAt == w.released && (row.mode.Later? <==> w.at.Some?)
  }

  /** `b` is `a` but for what a recalculation stores. */
  predicate Recounted(a: C.Campaign, b: C.Campaign) {
    b == a.(status := b.status, counts := b.counts)
  }

  lemma WorkOnlyRecounts(cfg: Config, x: State, ok: bool, answer: Answer, c: CampaignId)
    requires c < |x.campaigns|
    ensures var y := DoWork(cfg, x, ok, answer);
            |y.campaigns| == |x.campaigns| && Recounted(x.campaigns[c], y.campaigns[c]) && y.clock == x.clock
  {
    hide ShouldRetry, C.Recalculate;
    match x.worker
    case Marked(job, item) => RecalculationRecounts(x, item.campaign, ok, c);
    case Settled(job, item, retry) => RecalculationRecounts(x, item.campaign, ok, c);
    case _ =>
  }

  lemma RecalculationRecounts(x: State, d: CampaignId, ok: bool, c: CampaignId)
    requires c < |x.campaigns|
    ensures var y := DoRecalculate(x, d, ok);
            |y.campaigns| == |x.campaigns| && Recounted(x.campaigns[c], y.campaigns[c]) && y.clock == x.clock
  {
  }

  lemma GrantedByWork(cfg: Config, x: State, ok: bool, answer: Answer, c: CampaignId, w: Wish)
    requires c < |x.campaigns| && Granted(x.campaigns[c], w)
    ensures var y := DoWork(cfg, x, ok, answer);
            |y.campaigns| == |x.campaigns| && Granted(y.campaigns[c], w)
  {
    hide DoWork;
    WorkOnlyRecounts(cfg, x, ok, answer, c);
  }

  lemma GrantedByClaim(x: State, batchSize: int, claims: seq<Claimed>, c: CampaignId, w: Wish)
    requires c < |x.campaigns| && Granted(x.campaigns[c], w)
    ensures var y := DoClaimDue(x, batchSize, claims);
            c < |y.campaigns| && Granted(y.campaigns[c], Asked(x, ClaimDue(batchSize, claims), c, w))
  {
    hide CanClaimDue;
  }

  lemma GrantedByStep(cfg: Config, x: State, e: Event, c: CampaignId, w: Wish)
    requires Core(cfg, x) && c < |x.campaigns| && Granted(x.campaigns[c], w)
    ensures var y := Step(cfg, x, e); c < |y.campaigns| && Granted(y.campaigns[c], Asked(x, e, c, w))
  {
    hide Core, DoWork, DoClaimDue, DoRevert, CanClaimDue, CanClaimRetries, ReceiveAll, Sweep, CountSweep;
    match e
    case Work(ok, answer) => GrantedByWork(cfg, x, ok, answer, c, w);
    case ClaimDue(batchSize, claims) => GrantedByClaim(x, batchSize, claims, c, w);
    case RevertRelease(ok) => GrantedByRevert(cfg, x, ok, c, w);
    case _ =>
  }

  lemma GrantedByRevert(cfg: Config, x: State, ok: bool, c: CampaignId, w: Wish)
    requires Core(cfg, x) && c < |x.campaigns| && Granted(x.campaigns[c], w)
    ensures var y := DoRevert(x, ok); c < |y.campaigns| && Granted(y.campaigns[c], Asked(x, RevertRelease(ok), c, w))
  {
    if x.scheduler == Reverting(c) {
      assert PublishOk(x.campaigns[c], x.log[c], c in x.creating, Claims(x.scheduler, c));
      assert CampaignOk(x.campaigns[c]);
    }
    hide Core;
  }

  lemma NewIsGranted(cfg: Config, x: State, e: Event, c: CampaignId)
    requires |x.campaigns| <= c < |Step(cfg, x, e).campaigns|
    ensures e.Create? && c == |x.campaigns| && Granted(Step(cfg, x, e).campaigns[c], Asked(x, e, c, NO_WISH))
  {
    hide DoWork, CanClaimDue, CanClaimRetries, ReceiveAll, Sweep, CountSweep;
    if e.Work? {
      WorkAddsNoCampaign(cfg, x, e.ok, e.answer);
    }
  }

  lemma WorkAddsNoCampaign(cfg: Config, x: State, ok: bool, answer: Answer)
    ensures |DoWork(cfg, x, ok, answer).campaigns| == |x.campaigns|
  {
    hide ShouldRetry;
  }

  /** After every run, whatever the program did meanwhile: a campaign is scheduled for the instant last asked for, it is
      paused iff the last such request was a pause, cancelled iff it was cancelled after the last reschedule, and
      released iff it was claimed and the claim was not reverted. Requests that came after its release do not count. */
  lemma {:induction false} ColumnsAreRequests(cfg: Config, clock: Time, es: seq<Event>, c: CampaignId)
    ensures var s := Run(cfg, Init(clock), es);
            c < |s.campaigns| ==> Granted(s.campaigns[c], WishOf(cfg, clock, es, c))
  {
    hide Step, Core, Granted, Asked;
    if es != [] {
      var before, e := es[..|es| - 1], es[|es| - 1];
      var x := Run(cfg, Init(clock), before);
      ColumnsAreRequests(cfg, clock, before, c);
      if c < |x.campaigns| {
        CoreInit(cfg, clock);
        CoreAlways(cfg, Init(clock), before);
        GrantedByStep(cfg, x, e, c, WishOf(cfg, clock, before, c));
      } else if c < |Step(cfg, x, e).campaigns| {
        NewIsGranted(cfg, x, e, c);
        NoWishYet(cfg, clock, before, c);
      }
    }
  }

  lemma {:induction false} NoWishYet(cfg: Config, clock: Time, es: seq<Event>, c: CampaignId)
    requires c >= |Run(cfg, Init(clock), es).campaigns|
    ensures WishOf(cfg, clock, es, c) == NO_WISH
  {
    hide Step, Asked;
    if es != [] {
      var before, e := es[..|es| - 1], es[|es| - 1];
      var x := Run(cfg, Init(clock), before);
      NothingIsDeleted(cfg, x, e, c);
      NoWishYet(cfg, clock, before, c);
    }
  }

  lemma NothingIsDeleted(cfg: Config, x: State, e: Event, c: CampaignId)
    requires c >= |Step(cfg, x, e).campaigns|
    ensures c >= |x.campaigns|
    ensures e.Create? && c == |x.campaigns| ==> Asked(x, e, c, NO_WISH) == NO_WISH
  {
    hide DoWork, CanClaimDue, CanClaimRetries, ReceiveAll, Sweep, CountSweep;
    if e.Work? {
      WorkAddsNoCampaign(cfg, x, e.ok, e.answer);
    }
  }

  lemma ClaimedExistsNow(x: State, e: Event, c: CampaignId)
    requires ClaimedNow(x, e, c)
    ensures c in DueCampaigns(x.campaigns, x.clock)
  {
  }

  // ----------------------------------------------------------------- the status

  /** The recalculation of `c` is carried out. */
  predicate RecountedNow(x: State, e: Event, c: CampaignId) {
    || (e.Recalculate? && e.campaign == c)
    || (e.Work? && e.ok && (x.worker.Marked? || x.worker.Settled?) && x.worker.item.campaign == c)
    || (e.TrackRecalculate? && e.ok && e.campaign == c && e.track < |x.tracks|
        && x.tracks[e.track].ids == [] && c in x.tracks[e.track].owed)
  }

  /** What the step leaves in the status column of `c`: what the rows say after a recalculation, otherwise what the
      request stands for, and nothing new when nobody asked. */
  ghost predicate StatusFollows(x: State, e: Event, c: CampaignId, row: C.Campaign, status: C.Status) {
    if RecountedNow(x, e, c) then Verdict(row, x.messages, c, status)
    else if e == SetPaused(c, true) then status == C.Paused
    else if e == SetPaused(c, false) then
      status == if row.mode.Later? && row.releasedAt.None? then C.Scheduled else row.status
    else if e.Reschedule? && e.campaign == c && row.releasedAt.None? then status == C.Scheduled
    else if e == CancelScheduled(c) && row.releasedAt.None? then status == C.Failed
    else if e.ClaimDue? && ClaimedNow(x, e, c) then status == C.Pending
    else if e == RevertRelease(true) && x.scheduler == Reverting(c) then status == C.Scheduled
    else status == row.status
  }

  /** Every step of every run writes the status so, and the counters only in a recalculation. */
  lemma StatusIsWritten(cfg: Config, s: State, e: Event, c: CampaignId)
    requires Reachable(cfg, s) && c < |s.campaigns|
    ensures var t := Step(cfg, s, e);
            && c < |t.campaigns| && StatusFollows(s, e, c, s.campaigns[c], t.campaigns[c].status)
            && (!RecountedNow(s, e, c) ==> t.campaigns[c].counts == s.campaigns[c].counts)
  {
    hide Reachable, Core, Verdict, C.Recalculate, DoWork, DoClaimDue, DoRevert, Having, StatusFollows, RecountedNow;
    RecalculatedMeans(cfg, s, c);
    ReachableIsCore(cfg, s);
    match e
    case Work(ok, answer) => StatusAfterWork(cfg, s, ok, answer, c);
    case ClaimDue(batchSize, claims) => StatusAfterClaim(s, batchSize, claims, c);
    case RevertRelease(ok) => StatusAfterRevert(cfg, s, ok, c);
    case _ => StatusAfterOther(cfg, s, e, c);
  }

  lemma StatusAfterOther(cfg: Config, s: State, e: Event, c: CampaignId)
    requires c < |s.campaigns| && Verdict(s.campaigns[c], s.messages, c,
                                          C.Recalculate(s.campaigns[c], s.messages, c).status)
    requires !e.Work? && !e.ClaimDue? && !e.RevertRelease?
    ensures var t := Step(cfg, s, e);
            && c < |t.campaigns| && StatusFollows(s, e, c, s.campaigns[c], t.campaigns[c].status)
            && (!RecountedNow(s, e, c) ==> t.campaigns[c].counts == s.campaigns[c].counts)
  {
    hide Verdict, C.Recalculate, DoWork, DoClaimDue, DoRevert, DoClaimRetries, DoTrackMark, DoTrackRecalculate, DoCrash,
          DoPublishClaimed, DoPublishCreated, ClaimedNow;
    match e
    case TrackRecalculate(t, d, ok) => StatusAfterTrack(s, t, d, ok, c);
    case ClaimRetries(limit, picked) => SweepKeepsCampaigns(s, limit, picked);
    case PublishCreated(_, _) => OthersKeepCampaigns(cfg, s, e);
    case PublishClaimed(_) => OthersKeepCampaigns(cfg, s, e);
    case TrackMark(_, _) => OthersKeepCampaigns(cfg, s, e);
    case Crash => OthersKeepCampaigns(cfg, s, e);
    case _ =>
  }

  lemma SweepKeepsCampaigns(s: State, limit: int, picked: seq<MessageId>)
    ensures DoClaimRetries(s, limit, picked).campaigns == s.campaigns
  {
  }

  lemma OthersKeepCampaigns(cfg: Config, s: State, e: Event)
    requires e.PublishCreated? || e.PublishClaimed? || e.TrackMark? || e.Crash?
    ensures Step(cfg, s, e).campaigns == s.campaigns
  {
    hide ReceiveAll, Owed;
  }

  lemma StatusAfterTrack(s: State, t: nat, d: CampaignId, ok: bool, c: CampaignId)
    requires c < |s.campaigns| && Verdict(s.campaigns[c], s.messages, c,
                                          C.Recalculate(s.campaigns[c], s.messages, c).status)
    ensures var u := DoTrackRecalculate(s, t, d, ok); var e := TrackRecalculate(t, d, ok);
            && c < |u.campaigns| && StatusFollows(s, e, c, s.campaigns[c], u.campaigns[c].status)
            && (!RecountedNow(s, e, c) ==> u.campaigns[c].counts == s.campaigns[c].counts)
  {
    hide Verdict, C.Recalculate;
  }

  lemma StatusAfterWork(cfg: Config, s: State, ok: bool, answer: Answer, c: CampaignId)
    requires c < |s.campaigns| && Verdict(s.campaigns[c], s.messages, c,
                                          C.Recalculate(s.campaigns[c], s.messages, c).status)
    ensures var t := DoWork(cfg, s, ok, answer);
            && c < |t.campaigns| && StatusFollows(s, Work(ok, answer), c, s.campaigns[c], t.campaigns[c].status)
            && (!RecountedNow(s, Work(ok, answer), c) ==> t.campaigns[c].counts == s.campaigns[c].counts)
  {
    hide Verdict, C.Recalculate, ShouldRetry;
  }

  lemma StatusAfterClaim(s: State, batchSize: int, claims: seq<Claimed>, c: CampaignId)
    requires c < |s.campaigns|
    ensures var t := DoClaimDue(s, batchSize, claims); var e := ClaimDue(batchSize, claims);
            && c < |t.campaigns| && StatusFollows(s, e, c, s.campaigns[c], t.campaigns[c].status)
            && !RecountedNow(s, e, c) && t.campaigns[c].counts == s.campaigns[c].counts
  {
    hide CanClaimDue;
  }

  lemma StatusAfterRevert(cfg: Config, s: State, ok: bool, c: CampaignId)
    requires Core(cfg, s) && c < |s.campaigns|
    ensures var t := DoRevert(s, ok); var e := RevertRelease(ok);
            && c < |t.campaigns| && StatusFollows(s, e, c, s.campaigns[c], t.campaigns[c].status)
            && !RecountedNow(s, e, c) && t.campaigns[c].counts == s.campaigns[c].counts
  {
    if s.scheduler == Reverting(c) {
      assert PublishOk(s.campaigns[c], s.log[c], c in s.creating, Claims(s.scheduler, c));
      assert CampaignOk(s.campaigns[c]);
    }
    hide Core;
  }

  // ------------------------------------------------------------------- releases

  /** What the scheduler claims waits for its schedule, and the instant last asked for has come. The claim makes it
      pending and released, and changes nothing else in the row. */
  lemma ReleaseIsDue(cfg: Config, clock: Time, es: seq<Event>, e: Event, c: CampaignId)
    requires ClaimedNow(Run(cfg, Init(clock), es), e, c)
    ensures var s := Run(cfg, Init(clock), es); var t := Step(cfg, s, e); var w := WishOf(cfg, clock, es, c);
            && c < |s.campaigns| == |t.campaigns|
            && s.campaigns[c].status.Scheduled? && w.at.Some? && w.at.value <= s.clock && w.cancelled.None?
            && w.released.None?
            && t.campaigns[c] == s.campaigns[c].(status := C.Pending, releasedAt := Some(s.clock))
  {
    hide WishOf, EarliestBatch, Lists, Run;
    var s := Run(cfg, Init(clock), es);
    ClaimedExistsNow(s, e, c);
    ColumnsAreRequests(cfg, clock, es, c);
  }

  /** The earliest campaigns go first: a due campaign that the claim leaves behind is planned no earlier than any that
      it takes, and it is left behind only by a full batch. */
  lemma ReleaseInOrder(s: State, batchSize: int, claims: seq<Claimed>, c: CampaignId, d: CampaignId)
    requires ClaimedNow(s, ClaimDue(batchSize, claims), c) && d < |s.campaigns| && d !in Campaigns(claims)
    requires s.campaigns[d].status.Scheduled? && s.campaigns[d].releasedAt.None? && s.campaigns[d].cancelledAt.None?
    requires s.campaigns[d].scheduledAt.Some? && s.campaigns[d].scheduledAt.value <= s.clock
    ensures c < |s.campaigns| && s.campaigns[c].scheduledAt.Some?
    ensures s.campaigns[c].scheduledAt.value <= s.campaigns[d].scheduledAt.value
    ensures |claims| == if batchSize > 0 then batchSize else 25
  {
    ClaimedExistsNow(s, ClaimDue(batchSize, claims), c);
    var i :| 0 <= i < |Campaigns(claims)| && Campaigns(claims)[i] == c;
    B.BatchReaches(Campaigns(claims), DueCampaigns(s.campaigns, s.clock), Effective(batchSize, 25), d);
  }

  /** A released campaign was due when it was released. */
  predicate OnTime(row: C.Campaign, clock: Time) {
    row.releasedAt.Some? ==>
      row.scheduledAt.Some? && row.scheduledAt.value <= row.releasedAt.value <= clock
  }

  lemma OnTimeWork(cfg: Config, x: State, ok: bool, answer: Answer, c: CampaignId)
    requires c < |x.campaigns| && OnTime(x.campaigns[c], x.clock)
    ensures var y := DoWork(cfg, x, ok, answer); c < |y.campaigns| && OnTime(y.campaigns[c], y.clock)
  {
    hide DoWork;
    WorkOnlyRecounts(cfg, x, ok, answer, c);
  }

  lemma OnTimeClaim(x: State, batchSize: int, claims: seq<Claimed>, c: CampaignId)
    requires c < |x.campaigns| && OnTime(x.campaigns[c], x.clock)
    ensures var y := DoClaimDue(x, batchSize, claims); c < |y.campaigns| && OnTime(y.campaigns[c], y.clock)
  {
    if ClaimedNow(x, ClaimDue(batchSize, claims), c) {
      ClaimedExistsNow(x, ClaimDue(batchSize, claims), c);
    }
    hide CanClaimDue;
  }

  lemma OnTimeStep(cfg: Config, x: State, e: Event, c: CampaignId)
    requires c < |x.campaigns| && OnTime(x.campaigns[c], x.clock)
    ensures var y := Step(cfg, x, e); c < |y.campaigns| && OnTime(y.campaigns[c], y.clock)
  {
    hide DoWork, DoClaimDue, CanClaimRetries, ReceiveAll, Sweep, CountSweep;
    match e
    case Work(ok, answer) => OnTimeWork(cfg, x, ok, answer, c);
    case ClaimDue(batchSize, claims) => OnTimeClaim(x, batchSize, claims, c);
    case _ =>
  }

  lemma {:induction false} OnTimeAlways(cfg: Config, clock: Time, es: seq<Event>, c: CampaignId)
    ensures var s := Run(cfg, Init(clock), es); c < |s.campaigns| ==> OnTime(s.campaigns[c], s.clock)
  {
    hide Step, OnTime;
    if es != [] {
      var before, e := es[..|es| - 1], es[|es| - 1];
      var x := Run(cfg, Init(clock), before);
      OnTimeAlways(cfg, clock, before, c);
      if c < |x.campaigns| {
        OnTimeStep(cfg, x, e, c);
      } else if c < |Step(cfg, x, e).campaigns| {
        NewIsGranted(cfg, x, e, c);
        NewIsOnTime(cfg, x, e, c);
      }
    }
  }

  lemma NewIsOnTime(cfg: Config, x: State, e: Event, c: CampaignId)
    requires e.Create? && c == |x.campaigns| < |Step(cfg, x, e).campaigns|
    ensures OnTime(Step(cfg, x, e).campaigns[c], Step(cfg, x, e).clock)
  {
  }

  /** No release is early: over every run, when the scheduler pushes the jobs of a campaign, the instant that was last
      asked for has come. */
  lemma PublishedOnTime(cfg: Config, clock: Time, es: seq<Event>, e: Event, c: CampaignId)
    requires ReleasePublishesNow(Run(cfg, Init(clock), es), e, c)
    ensures var w := WishOf(cfg, clock, es, c);
            w.at.Some? && w.released.Some? && w.at.value <= w.released.value <= Run(cfg, Init(clock), es).clock
  {
    hide Step, WishOf;
    var s := Run(cfg, Init(clock), es);
    Reached(cfg, clock, es);
    PublishedIsReleased(cfg, s, c);
    OnTimeAlways(cfg, clock, es, c);
    ColumnsAreRequests(cfg, clock, es, c);
  }

  lemma PublishedIsReleased(cfg: Config, s: State, c: CampaignId)
    requires Core(cfg, s) && s.scheduler.Publishing? && s.scheduler.claims != [] && s.scheduler.claims[0].campaign == c
    ensures c < |s.campaigns| && s.campaigns[c].releasedAt.Some?
  {
    assert Claims(s.scheduler, c);
    assert PublishOk(s.campaigns[c], s.log[c], c in s.creating, Claims(s.scheduler, c));
  }
}
