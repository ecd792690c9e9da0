/** Small concrete runs from the empty system. */
module Scenarios {
  import opened Basics
  import M = Messages
  import C = Campaigns
  import opened Protocol
  import opened Interleaving
  import opened Gates
  import opened Revival
  import A = Accounting

  /** A campaign of one message, published by `Create`, rescheduled, and published again by the scheduler. */
  function Twice(batch: int): seq<Event> {
    [Event.Create("line", None, 1), PublishCreated(0, true), Event.Reschedule(0, 0),
     ClaimDue(batch, [Claimed(0, [ONLY_JOB])]), PublishClaimed(true)]
  }

  const ONLY_JOB: Job := Job(0, 0, "line", 0)

  /** The list holds two jobs of message 0, which was never attempted. */
  predicate TwoCopies(s: State) {
    && s.worker.Idle? && s.queue == [ONLY_JOB, ONLY_JOB] && s.messages == [M.New(0)] && s.issued == {}
    && s.timers == [] && s.swept == []
    && |s.campaigns| == 1 && |s.log| == 1 && |s.tally| == 1 && s.tally[0].sends == 0 && s.tally[0].sweeps == 0
    && s.log[0].createPublishes == 1 && s.log[0].releasePublishes == 1
    && !s.campaigns[0].paused && s.campaigns[0].cancelledAt.None? && s.campaigns[0].releasedAt.Some?
    && s.campaigns[0].status.Pending? && s.campaigns[0].total == 1
  }

  /** The state after `Create` and its publication. */
  const PUBLISHED: State := State(
    0, [M.New(0)], [C.New("line", None, 1)], [ONLY_JOB], [], [], {}, Resting, Idle, [], {}, {},
    [Tally(0, 0, 0, 0, 0)], [Log(0, false, 1, 0, [0], 0)])

  const CREATED: State := PUBLISHED.(queue := [], creating := {0}, log := [Log(0, false, 0, 0, [], 0)])

  lemma CreatedOnce(cfg: Config, batch: int)
    ensures Step(cfg, Init(0), Twice(batch)[0]) == CREATED
  {
    assert C.FreshRows(0, 1) == [M.New(0)] && Blank(1) == [Tally(0, 0, 0, 0, 0)];
  }

  lemma PublishedOnce(cfg: Config, batch: int)
    ensures Step(cfg, CREATED, Twice(batch)[1]) == PUBLISHED
  {
    assert CreatedJobs(CREATED, 0) == [ONLY_JOB] && MessagesOf([ONLY_JOB]) == [0];
  }

  /** The state after the reschedule, and after the scheduler's claim. */
  const RESCHEDULED: State := PUBLISHED.(campaigns := [C.Reschedule(C.New("line", None, 1), 0)])

  const RECLAIMED: State := RESCHEDULED.(
    campaigns := [C.Release(C.Reschedule(C.New("line", None, 1), 0), 0)],
    scheduler := Publishing([Claimed(0, [ONLY_JOB])]))

  lemma ClaimedAgain(cfg: Config, batch: int)
    ensures Step(cfg, RESCHEDULED, Twice(batch)[3]) == RECLAIMED
  {
    var claims := [Claimed(0, [ONLY_JOB])];
    OnlyClaim(RESCHEDULED, batch, claims);
    assert Campaigns(claims) == [0];
    assert ReleaseAll(RESCHEDULED.campaigns, [0], 0) == RECLAIMED.campaigns;
  }

  lemma FiveSteps(cfg: Config, batch: int, a: State, b: State, c: State, d: State)
    requires Step(cfg, Init(0), Twice(batch)[0]) == a && Step(cfg, a, Twice(batch)[1]) == b
             && Step(cfg, b, Twice(batch)[2]) == c
    requires Step(cfg, c, Twice(batch)[3]) == d
    ensures Run(cfg, Init(0), Twice(batch)) == Step(cfg, d, Twice(batch)[4])
  {
    hide Step;
    Extend(cfg, Init(0), [], Twice(batch)[0]);
    Extend(cfg, Init(0), Twice(batch)[..1], Twice(batch)[1]);
    Extend(cfg, Init(0), Twice(batch)[..2], Twice(batch)[2]);
    Extend(cfg, Init(0), Twice(batch)[..3], Twice(batch)[3]);
    Extend(cfg, Init(0), Twice(batch)[..4], Twice(batch)[4]);
    assert [] + [Twice(batch)[0]] == Twice(batch)[..1] && Twice(batch)[..1] + [Twice(batch)[1]] == Twice(batch)[..2];
    assert Twice(batch)[..2] + [Twice(batch)[2]] == Twice(batch)[..3]
           && Twice(batch)[..3] + [Twice(batch)[3]] == Twice(batch)[..4];
    assert Twice(batch)[..4] + [Twice(batch)[4]] == Twice(batch);
  }

  lemma PublishedTwice(cfg: Config, batch: int)
    ensures TwoCopies(Run(cfg, Init(0), Twice(batch)))
  {
    CreatedOnce(cfg, batch);
    PublishedOnce(cfg, batch);
    ClaimedAgain(cfg, batch);
    FiveSteps(cfg, batch, CREATED, PUBLISHED, RESCHEDULED, RECLAIMED);
  }

  lemma OnlyClaim(s: State, batch: int, claims: seq<Claimed>)
    requires claims == [Claimed(0, [ONLY_JOB])] && s.scheduler.Resting? && s.messages == [M.New(0)]
    requires |s.campaigns| == 1 && C.Due(s.campaigns[0], s.clock) && s.campaigns[0].instance == "line"
    ensures CanClaimDue(s, batch, claims)
  {
    var due := DueCampaigns(s.campaigns, s.clock);
    assert Campaigns(claims) == [0] && due.Keys == {0};
    assert |due| == |due.Keys|;
    assert MessagesOf([ONLY_JOB]) == [0];
    assert Lists(s.messages, s.campaigns, 0, [ONLY_JOB]);
  }

  /** Only a pause, a cancel or a reschedule closes such a campaign. */
  predicate Awake(c: C.Campaign) {
    && !c.paused && c.cancelledAt.None? && (c.mode.Later? ==> c.releasedAt.Some?)
    && !c.status.Scheduled? && !c.status.Paused?
  }

  lemma RecalculateStaysAwake(c: C.Campaign, ms: seq<M.Message>, id: CampaignId)
    requires Awake(c)
    ensures Awake(C.Recalculate(c, ms, id))
  {
  }

  lemma ProviderAccepts(cfg: Config, s: State, a: Answer)
    requires s.worker.Sending? && a.Accepted? && a.id !in s.issued
    requires s.worker.job.message < |s.tally| && s.worker.item.campaign < |s.log|
    ensures var t := DoWork(cfg, s, true, a); var m := s.worker.job.message;
            && A.Window(t.worker, m) && t.issued == s.issued + {a.id} && t.queue == s.queue
            && t.messages == s.messages && t.campaigns == s.campaigns
            && |t.tally| == |s.tally| && t.tally[m].sends == s.tally[m].sends + 1
  {
  }

  /** A campaign of one message created for later, claimed and published by the scheduler. */
  function Later(batch: int): seq<Event> {
    [Event.Create("line", Some(0), 1), ClaimDue(batch, [Claimed(0, [ONLY_JOB])]), PublishClaimed(true)]
  }

  const SCHEDULED: State := State(
    0, [M.New(0)], [C.New("line", Some(0), 1)], [], [], [], {}, Resting, Idle, [], {}, {},
    [Tally(0, 0, 0, 0, 0)], [Log(0, true, 0, 0, [], 0)])

  const CLAIMED: State := SCHEDULED.(
    campaigns := [C.Release(C.New("line", Some(0), 1), 0)], scheduler := Publishing([Claimed(0, [ONLY_JOB])]))

  const RELEASED: State := CLAIMED.(queue := [ONLY_JOB], scheduler := Resting, log := [Log(0, true, 0, 1, [0], 0)])

  lemma ScheduledOnce(cfg: Config, batch: int)
    ensures Step(cfg, Init(0), Later(batch)[0]) == SCHEDULED
  {
    assert C.FreshRows(0, 1) == [M.New(0)] && Blank(1) == [Tally(0, 0, 0, 0, 0)];
  }

  lemma ClaimedOnce(cfg: Config, batch: int)
    ensures Step(cfg, SCHEDULED, Later(batch)[1]) == CLAIMED
  {
    var claims := [Claimed(0, [ONLY_JOB])];
    OnlyClaim(SCHEDULED, batch, claims);
    assert Campaigns(claims) == [0];
    assert ReleaseAll(SCHEDULED.campaigns, [0], 0) == CLAIMED.campaigns;
  }

  lemma ReleasedOnce(cfg: Config, batch: int)
    ensures Run(cfg, Init(0), Later(batch)) == RELEASED
  {
    ScheduledOnce(cfg, batch);
    ClaimedOnce(cfg, batch);
    assert MessagesOf([ONLY_JOB]) == [0];
    assert Step(cfg, CLAIMED, Later(batch)[2]) == RELEASED;
    ThreeSteps(cfg, Init(0), Later(batch)[0], Later(batch)[1], Later(batch)[2]);
    assert Later(batch) == [Later(batch)[0], Later(batch)[1], Later(batch)[2]];
  }

  lemma RescheduledOnce(cfg: Config, batch: int)
    ensures Run(cfg, Init(0), Twice(batch)[..3]) == RESCHEDULED
  {
    CreatedOnce(cfg, batch);
    PublishedOnce(cfg, batch);
    ThreeSteps(cfg, Init(0), Twice(batch)[0], Twice(batch)[1], Twice(batch)[2]);
    assert Twice(batch)[..3] == [Twice(batch)[0], Twice(batch)[1], Twice(batch)[2]];
  }

  // -------------------------------------------------- the gates let these runs pass

  lemma RescheduledIsPermitted(cfg: Config, batch: int)
    ensures Permitted(cfg, batch, Init(0), Twice(batch)[..3])
  {
    hide Step;
    CreatedOnce(cfg, batch);
    PublishedOnce(cfg, batch);
    var a, b := Twice(batch)[..2], [Event.Reschedule(0, 0)];
    TwoSteps(cfg, Init(0), Twice(batch)[0], Twice(batch)[1]);
    assert a == [Twice(batch)[0], Twice(batch)[1]];
    FreeIsPermitted(cfg, batch, Init(0), a);
    OneIsPermitted(cfg, batch, PUBLISHED, b[0]);
    Join(cfg, batch, Init(0), a, b);
    assert a + b == Twice(batch)[..3];
  }

  lemma TwiceIsPermitted(cfg: Config, batch: int)
    ensures Permitted(cfg, batch, Init(0), Twice(batch))
  {
    hide Step, Permitted;
    RescheduledIsPermitted(cfg, batch);
    RescheduledOnce(cfg, batch);
    var a, b, c := Twice(batch)[..3], [Twice(batch)[3]], [Twice(batch)[4]];
    OneIsPermitted(cfg, batch, RESCHEDULED, b[0]);
    Join(cfg, batch, Init(0), a, b);
    FreeIsPermitted(cfg, batch, Run(cfg, Init(0), a + b), c);
    Join(cfg, batch, Init(0), a + b, c);
    assert a + b + c == Twice(batch);
  }

  lemma LaterIsPermitted(cfg: Config, batch: int)
    ensures Permitted(cfg, batch, Init(0), Later(batch))
  {
    hide Step, Permitted;
    var a, b, c := [Later(batch)[0]], [Later(batch)[1]], [Later(batch)[2]];
    FreeIsPermitted(cfg, batch, Init(0), a);
    OneIsPermitted(cfg, batch, Run(cfg, Init(0), a), b[0]);
    Join(cfg, batch, Init(0), a, b);
    FreeIsPermitted(cfg, batch, Run(cfg, Init(0), a + b), c);
    Join(cfg, batch, Init(0), a + b, c);
    assert a + b + c == Later(batch);
  }

  /** A permitted run followed by worker steps. */
  lemma ThenWorks(cfg: Config, batch: int, s: State, first: seq<Event>, more: seq<Event>)
    requires Permitted(cfg, batch, s, first) && forall i :: 0 <= i < |more| ==> more[i].Work?
    ensures Permitted(cfg, batch, s, first + more)
    ensures Run(cfg, s, first + more) == Run(cfg, Run(cfg, s, first), more)
  {
    hide Step, Permitted;
    FreeIsPermitted(cfg, batch, Run(cfg, s, first), more);
    Join(cfg, batch, s, first, more);
  }
}
