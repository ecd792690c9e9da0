/** When a cancelled campaign still sends. */
module LateCancels {
  import opened Basics
  import M = Messages
  import opened Protocol
  import opened Invariants
  import opened CoreSteps
  import opened Interleaving
  import opened Outstanding
  import opened Gates
  import opened Revival
  import opened Scenarios
  import G = Guarantees
  import D = Delivery

  /** Some permitted continuation that does not reschedule `c` makes a successful SendText for `m`. */
  ghost predicate SendsLater(cfg: Config, batch: int, s: State, c: CampaignId, m: MessageId) {
    exists es, e :: Way(cfg, batch, s, es, c) && G.SendsNow(Run(cfg, s, es), e, m)
  }

  /** An undispatched message that some job, or the `Create` call of its campaign, still carries. */
  ghost predicate StillCarried(cfg: Config, s: State, m: MessageId) {
    m < |s.messages| && !M.Dispatched(s.messages[m].status) && BroughtIn(cfg, s, m)
  }

  /** A row of a cancelled campaign that nothing carries, or that is dispatched. */
  ghost predicate Spent(cfg: Config, s: State, c: CampaignId, m: MessageId) {
    && m < |s.messages| && s.messages[m].campaign == c
    && c < |s.campaigns| && s.campaigns[c].cancelledAt.Some?
    && !StillCarried(cfg, s, m)
  }

  lemma CancelledIsClosed(cfg: Config, s: State, m: MessageId)
    requires Core(cfg, s) && m < |s.messages| && s.messages[m].campaign < |s.campaigns|
    requires s.campaigns[s.messages[m].campaign].cancelledAt.Some?
    ensures Closed(s, m)
  {
    var c := s.messages[m].campaign;
    assert CampaignOk(s.campaigns[c]);
    assert PublishOk(s.campaigns[c], s.log[c], c in s.creating, Claims(s.scheduler, c));
  }

  lemma SpentStep(cfg: Config, s: State, e: Event, c: CampaignId, m: MessageId)
    requires Core(cfg, s) && Spent(cfg, s, c, m) && !(e.Reschedule? && e.campaign == c)
    ensures Spent(cfg, Step(cfg, s, e), c, m)
  {
    hide Step, BroughtIn;
    CancelledIsClosed(cfg, s, m);
    D.AdvanceStep(cfg, s, e);
    assert D.Advances(s.messages[m], Step(cfg, s, e).messages[m]);
    G.CancelledStep(cfg, s, e, c);
    if StillCarried(cfg, Step(cfg, s, e), m) {
      NewJobs(cfg, s, e, m);
    }
  }

  lemma {:induction false} SpentForever(cfg: Config, s: State, es: seq<Event>, c: CampaignId, m: MessageId)
    requires Core(cfg, s) && Spent(cfg, s, c, m) && KeepsSchedule(es, c)
    ensures Core(cfg, Run(cfg, s, es)) && Spent(cfg, Run(cfg, s, es), c, m)
  {
    hide Step, Core, Spent;
    if es != [] {
      var before := es[..|es| - 1];
      SpentForever(cfg, s, before, c, m);
      SpentStep(cfg, Run(cfg, s, before), es[|es| - 1], c, m);
      KeepStep(cfg, Run(cfg, s, before), es[|es| - 1]);
    }
  }

  /** A send is only made for a carried, undispatched message. */
  lemma SendIsCarried(cfg: Config, s: State, e: Event, m: MessageId)
    requires Core(cfg, s) && G.SendsNow(s, e, m)
    ensures StillCarried(cfg, s, m)
  {
  }

  /** A message of a cancelled campaign can still be sent, without a reschedule, if and only if it is undispatched and
      a job of it is in the list, in a timer, with the sweeper or in the worker's hands, or its campaign's `Create`
      has not published yet. A resume, a restart or a recalculation makes no difference, and no continuation at all,
      permitted or not, sends it otherwise. */
  lemma CancelledSendsIffCarried(cfg: Config, batch: int, s: State, c: CampaignId, m: MessageId)
    requires Reachable(cfg, s) && m < |s.messages| && s.messages[m].campaign == c
    requires c < |s.campaigns| && s.campaigns[c].cancelledAt.Some?
    ensures SendsLater(cfg, batch, s, c, m) <==> StillCarried(cfg, s, m)
    ensures !StillCarried(cfg, s, m) ==> forall es, e :: KeepsSchedule(es, c) ==> !G.SendsNow(Run(cfg, s, es), e, m)
  {
    hide Step, Permitted;
    if StillCarried(cfg, s, m) {
      var es := ReachesProvider(cfg, batch, s, c, m);
      var id := FreshId(Run(cfg, s, es).issued);
      assert G.SendsNow(Run(cfg, s, es), Work(true, Accepted(id)), m);
    } else {
      ReachableIsCore(cfg, s);
      forall es, e | KeepsSchedule(es, c) ensures !G.SendsNow(Run(cfg, s, es), e, m) {
        SpentForever(cfg, s, es, c, m);
        if G.SendsNow(Run(cfg, s, es), e, m) {
          SendIsCarried(cfg, Run(cfg, s, es), e, m);
        }
      }
    }
  }

  // -------------------------------------------------------- the whole campaign

  /** Some permitted continuation that does not reschedule `c` sends a message of `c`. */
  ghost predicate CampaignSendsLater(cfg: Config, batch: int, s: State, c: CampaignId) {
    exists es, e, m: MessageId :: Way(cfg, batch, s, es, c) && G.SendsNow(Run(cfg, s, es), e, m)
                       && m < |Run(cfg, s, es).messages| && Run(cfg, s, es).messages[m].campaign == c
  }

  /** A cancelled campaign never sends again, without a reschedule, if and only if none of its undispatched messages is
      still carried by a job or by the campaign's own `Create`. */
  lemma CancelledSilentIffNothingCarried(cfg: Config, batch: int, s: State, c: CampaignId)
    requires Reachable(cfg, s) && c < |s.campaigns| && s.campaigns[c].cancelledAt.Some?
    ensures CampaignSendsLater(cfg, batch, s, c) <==>
              exists m: MessageId :: m < |s.messages| && s.messages[m].campaign == c && StillCarried(cfg, s, m)
  {
    hide Step, StillCarried, Permitted, Core;
    ReachableIsCore(cfg, s);
    forall es, e, m: MessageId | Way(cfg, batch, s, es, c) && G.SendsNow(Run(cfg, s, es), e, m)
                      && m < |Run(cfg, s, es).messages| && Run(cfg, s, es).messages[m].campaign == c
      ensures m < |s.messages| && s.messages[m].campaign == c && StillCarried(cfg, s, m)
    {
      D.GrowsRun(cfg, s, es);
      CancelledSendsIffCarried(cfg, batch, s, c, m);
    }
    forall m: MessageId | m < |s.messages| && s.messages[m].campaign == c && StillCarried(cfg, s, m)
      ensures CampaignSendsLater(cfg, batch, s, c)
    {
      CancelledSendsIffCarried(cfg, batch, s, c, m);
      var es, e :| Way(cfg, batch, s, es, c) && G.SendsNow(Run(cfg, s, es), e, m);
      D.GrowsRun(cfg, s, es);
    }
  }

  /** It happens: a campaign created to be sent now is rescheduled and cancelled, and sends all the same. */
  lemma CancelledAndSent(cfg: Config, batch: int) returns (es: seq<Event>)
    ensures Permitted(cfg, batch, Init(0), es)
    ensures var s := Run(cfg, Init(0), es);
            && |s.campaigns| == 1 && s.campaigns[0].cancelledAt.Some? && |s.tally| == 1 && s.tally[0].sends == 1
  {
    hide Permitted;
    RescheduledOnce(cfg, batch);
    RescheduledIsPermitted(cfg, batch);
    var before, cancel := Twice(batch)[..3], [Event.CancelScheduled(0)];
    OneStep(cfg, RESCHEDULED, cancel[0]);
    OneIsPermitted(cfg, batch, RESCHEDULED, cancel[0]);
    Join(cfg, batch, Init(0), before, cancel);
    var cancelled := Step(cfg, RESCHEDULED, cancel[0]);
    var yes := Accepted("a");
    var more := HeadReachesProvider(cfg, cancelled, yes);
    ProviderAccepts(cfg, Run(cfg, cancelled, more), yes);
    ExtendWork(cfg, cancelled, more, yes);
    ThenWorks(cfg, batch, Init(0), before + cancel, more + [Work(true, yes)]);
    es := before + cancel + (more + [Work(true, yes)]);
  }
}
