/**
 `DispatchWorker`: the methods that read and write the shared tables one
 statement at a time, proved to be runs of the protocol's machine whatever the
 other goroutines do between two statements.
 */
module Worker {
  import opened Basics
  import opened Text
  import M = Messages
  import opened Protocol
  import opened Invariants
  import opened CoreSteps
  import opened Interleaving
  import opened Platform
  import Cad = Cadence

  // ------------------------------------------------------------- shouldRetry

  const PERMANENT_MARKERS := ["status 400", "status 401", "status 403", "status 404", "invalid json", "not authorized"]

  /** The provider error is final. */
  predicate Permanent(failure: string) {
    exists k :: 0 <= k < |PERMANENT_MARKERS| && Contains(Lower(failure), PERMANENT_MARKERS[k])
  }

  function ConfigFor(maxAttempts: int, delay: Time): Config {
    Config(maxAttempts, delay, Permanent)
  }

  /** A provider error is final exactly if one of six phrases occurs in it, in any case. */
  lemma PermanentIff(failure: string)
    ensures Permanent(failure) <==>
              || Holds(failure, "status 400") || Holds(failure, "status 401") || Holds(failure, "status 403")
              || Holds(failure, "status 404") || Holds(failure, "invalid json") || Holds(failure, "not authorized")
  {
    hide Contains, Holds, Lower;
    forall k | 0 <= k < |PERMANENT_MARKERS|
      ensures Contains(Lower(failure), PERMANENT_MARKERS[k]) <==> Holds(failure, PERMANENT_MARKERS[k])
    {
      ContainsIffHolds(failure, PERMANENT_MARKERS[k]);
    }
    assert PERMANENT_MARKERS[0] == "status 400" && PERMANENT_MARKERS[1] == "status 401";
    assert PERMANENT_MARKERS[2] == "status 403" && PERMANENT_MARKERS[3] == "status 404";
    assert PERMANENT_MARKERS[4] == "invalid json" && PERMANENT_MARKERS[5] == "not authorized";
  }

  /** Wrapping an error in more text, in any case, never turns a final error into one that is retried. */
  lemma WrappingKeepsPermanent(before: string, failure: string, after: string)
    ensures Permanent(failure) ==> Permanent(before + failure + after)
    ensures Permanent(Lower(failure)) <==> Permanent(failure)
  {
    assert Lower(Lower(failure)) == Lower(failure);
    if Permanent(failure) {
      var k :| 0 <= k < |PERMANENT_MARKERS| && Contains(Lower(failure), PERMANENT_MARKERS[k]);
      ContainsWithin(Lower(before), Lower(failure), Lower(after), PERMANENT_MARKERS[k]);
      assert Lower(before + failure + after) == Lower(before) + Lower(failure) + Lower(after);
    }
  }

  /** An error too short to hold a marker, such as a timeout, is retried. */
  lemma ShortIsTransient(failure: string)
    requires |failure| < 10
    ensures !Permanent(failure)
  {
    assert forall k :: 0 <= k < |PERMANENT_MARKERS| ==> |PERMANENT_MARKERS[k]| >= 10;
  }

  // ------------------------------------------------------------ interleaving

  /** One statement of the worker: what the others do before it, whether it succeeds, what the provider answers. */
  datatype Turn = Turn(env: seq<Event>, ok: bool, answer: Answer)

  predicate Calm(env: seq<Event>) {
    forall i :: 0 <= i < |env| ==> !env[i].Work? && !env[i].Crash?
  }

  /** The turns as events of the machine. */
  function Interleaved(turns: seq<Turn>): seq<Event> {
    if turns == [] then []
    else
      var t := turns[|turns| - 1];
      Interleaved(turns[..|turns| - 1]) + t.env + [Work(t.ok, t.answer)]
  }

  function Turned(cfg: Config, s: State, t: Turn): State {
    Step(cfg, Run(cfg, s, t.env), Work(t.ok, t.answer))
  }

  lemma OneMoreTurn(cfg: Config, s: State, turns: seq<Turn>, t: Turn)
    ensures Run(cfg, s, Interleaved(turns + [t])) == Turned(cfg, Run(cfg, s, Interleaved(turns)), t)
  {
    hide Step;
    assert (turns + [t])[..|turns|] == turns;
    RunThen(cfg, s, Interleaved(turns), t.env, Work(t.ok, t.answer));
  }

  lemma OneMore(before: seq<Turn>, turns: seq<Turn>, n: nat)
    requires n < |turns|
    ensures before + turns[..n] + [turns[n]] == before + turns[..n + 1]
    ensures n == 0 ==> before + [turns[n]] == before + turns[..n + 1]
  {
  }

  /** The turns with the outcome of the cadence wait, which ends at time `until`. */
  function Adjusted(turns: seq<Turn>, waited: bool, until: Time): seq<Turn>
    requires |turns| > 5
  {
    turns[4 := turns[4].(ok := waited)][5 := turns[5].(env := [Tick(until)] + turns[5].env)]
  }

  lemma JoinTurns(turns: seq<Turn>, waited: bool, until: Time, n: nat)
    requires |turns| == 9 && n <= 4
    ensures turns[..4] + [turns[4].(ok := waited)] == Adjusted(turns, waited, until)[..5]
    ensures Adjusted(turns, waited, until)[..5] + Adjusted(turns, waited, until)[5..][..n]
            == Adjusted(turns, waited, until)[..5 + n]
  {
  }

  lemma AdjustedCalm(turns: seq<Turn>, waited: bool, until: Time)
    requires |turns| == 9 && AllCalm(turns)
    ensures AllCalm(Adjusted(turns, waited, until)[5..])
  {
    assert Calm([Tick(until)] + turns[5].env);
  }

  /** When turn `k` is made: after what the others do before it. */
  function ClockAt(cfg: Config, s: State, turns: seq<Turn>, k: nat): Time
    requires k < |turns|
  {
    Run(cfg, Run(cfg, s, Interleaved(turns[..k])), turns[k].env).clock
  }

  const WAIT_TURN: nat := 4

  const SEND_TURN: nat := 5

  lemma TakeOneMore(turns: seq<Turn>, n: nat)
    requires n < |turns|
    ensures turns[..n] + [turns[n]] == turns[..n + 1]
  {
  }

  /** The other goroutines neither move the worker nor obtain provider ids. */
  lemma {:induction false} OthersLeaveWorker(cfg: Config, s: State, env: seq<Event>)
    requires Calm(env)
    ensures Run(cfg, s, env).worker == s.worker && Run(cfg, s, env).issued == s.issued
  {
    hide Step;
    if env != [] {
      OthersLeaveWorker(cfg, s, env[..|env| - 1]);
      OtherLeavesWorker(cfg, Run(cfg, s, env[..|env| - 1]), env[|env| - 1]);
    }
  }

  lemma OtherLeavesWorker(cfg: Config, s: State, e: Event)
    requires !e.Work? && !e.Crash?
    ensures Step(cfg, s, e).worker == s.worker && Step(cfg, s, e).issued == s.issued
  {
  }

  /** The job and the row in the worker's hands are in the tables. */
  predicate Anchored(s: State) {
    && |s.tally| == |s.messages| && |s.log| == |s.campaigns|
    && (!s.worker.Idle? ==> s.worker.job.message < |s.messages|)
    && (HasItem(s.worker) ==> s.worker.item.campaign < |s.campaigns|)
  }

  /** When the statement of turn `t` starts, the worker is where it was and its row exists. */
  ghost predicate Ready(cfg: Config, s: State, t: Turn) {
    var mid := Run(cfg, s, t.env);
    Anchored(mid) && mid.worker == s.worker && mid.issued == s.issued
  }

  ghost predicate AllCalm(turns: seq<Turn>) {
    forall i :: 0 <= i < |turns| ==> Calm(turns[i].env)
  }

  /** The worker had a job in hand before each of the turns. */
  ghost predicate Busy(cfg: Config, s: State, turns: seq<Turn>) {
    forall k :: 0 <= k < |turns| ==> !Run(cfg, s, Interleaved(turns[..k])).worker.Idle?
  }

  lemma TurnedIsReachable(cfg: Config, s: State, t: Turn)
    requires Reachable(cfg, s)
    ensures Reachable(cfg, Turned(cfg, s, t))
  {
    hide Step;
    StillReachable(cfg, s, [] + t.env + [Work(t.ok, t.answer)]);
    RunThen(cfg, s, [], t.env, Work(t.ok, t.answer));
  }

  lemma BeforeTurn(cfg: Config, s: State, played: seq<Turn>, t: Turn)
    requires Reachable(cfg, s) && Calm(t.env)
    ensures Ready(cfg, Run(cfg, s, Interleaved(played)), t)
  {
    hide Step;
    var now := Run(cfg, s, Interleaved(played));
    ReachableIsCore(cfg, s);
    CoreAlways(cfg, s, Interleaved(played));
    CoreAlways(cfg, now, t.env);
    CoreIsAnchored(cfg, Run(cfg, now, t.env));
    OthersLeaveWorker(cfg, now, t.env);
  }

  lemma WorkIsStep(cfg: Config, s: State, t: Turn)
    ensures Step(cfg, s, Work(t.ok, t.answer)) == DoWork(cfg, s, t.ok, t.answer)
  {
  }

  lemma NextTurn(cfg: Config, s: State, played: seq<Turn>, t: Turn)
    requires Reachable(cfg, s) && Calm(t.env)
    ensures Ready(cfg, Run(cfg, s, Interleaved(played)), t)
    ensures Run(cfg, s, Interleaved(played + [t]))
            == DoWork(cfg, Run(cfg, Run(cfg, s, Interleaved(played)), t.env), t.ok, t.answer)
    ensures Busy(cfg, s, played) && !Run(cfg, s, Interleaved(played)).worker.Idle? ==> Busy(cfg, s, played + [t])
  {
    hide Step, Reachable;
    BeforeTurn(cfg, s, played, t);
    OneMoreTurn(cfg, s, played, t);
    WorkIsStep(cfg, Run(cfg, Run(cfg, s, Interleaved(played)), t.env), t);
    forall k | 0 <= k <= |played| ensures (played + [t])[..k] == played[..k] {}
    assert played[..|played|] == played;
  }

  lemma CoreIsAnchored(cfg: Config, s: State)
    requires Core(cfg, s)
    ensures Anchored(s)
  {
  }

  // -------------------------------------------------------------- the worker

  /** What a call of `waitForHumanCadence` at time `now` does to its lane. */
  predicate LaneMoved(h: Cad.Humanizer, l: Cad.Lane, l': Cad.Lane, now: Time, draws: Cad.Draws, cancelled: bool,
                      ok: bool) {
    if !h.enabled then ok && l' == l
    else
      && ok == !(cancelled && Cad.WaitFor(h, l, now, draws) > 0)
      && l' == (if ok then Cad.Dispatched(h, l, now, draws) else Cad.Armed(h, l, draws))
  }

  /** When a wait that starts at `now` is over. */
  function Until(h: Cad.Humanizer, l: Cad.Lane, now: Time, draws: Cad.Draws): Time {
    if h.enabled then now + Cad.WaitFor(h, l, now, draws) else now
  }

  datatype Passage = Dropped | Bounced | Passed

  datatype Outcome = SendLost | Finished(retry: bool)

  class DispatchWorker {
    const world: World
    const lanes: Cad.Lanes
    const maxAttempts: int
    const delay: Time

    constructor (world: World, lanes: Cad.Lanes, maxAttempts: int, delay: Time)
      ensures this.world == world && this.lanes == lanes && this.maxAttempts == maxAttempts && this.delay == delay
    {
      this.world, this.lanes, this.maxAttempts, this.delay := world, lanes, maxAttempts, delay;
    }

    function Cfg(): Config {
      ConfigFor(maxAttempts, delay)
    }

    /** `shouldRetry`: the attempt limit, then the switch over the error text. */
    method RetryAgain(failure: string, attempt: int) returns (retry: bool)
      ensures retry == ShouldRetry(Cfg(), failure, attempt)
      ensures retry <==>
        && attempt < maxAttempts && !Holds(failure, "status 400") && !Holds(failure, "status 401")
        && !Holds(failure, "status 403") && !Holds(failure, "status 404") && !Holds(failure, "invalid json")
        && !Holds(failure, "not authorized")
    {
      PermanentIff(failure);
      if attempt >= maxAttempts {
        return false;
      }
      var message := Lower(failure);
      for k := 0 to |PERMANENT_MARKERS|
        invariant forall i :: 0 <= i < k ==> !Contains(message, PERMANENT_MARKERS[i])
      {
        if Contains(message, PERMANENT_MARKERS[k]) {
          return false;
        }
      }
      return true;
    }

    /** Since state `s` the worker has made the turns `played`, busy before each of them. */
    ghost predicate Underway(s: State, played: seq<Turn>)
      reads world, world.repository, world.redis
    {
      && Reachable(Cfg(), s) && Busy(Cfg(), s, played)
      && forall es :: es == Interleaved(played) ==> world.View() == Run(Cfg(), s, es)
    }

    /** GetMessageByID, and the gate that skips messages the provider already accepted. */
    method Lookup(ghost s: State, played: seq<Turn>, job: Job, t: Turn) returns (item: Option<M.Message>)
      requires Underway(s, played) && Calm(t.env) && world.View().worker == Popped(job)
      modifies world, world.repository, world.redis
      ensures Underway(s, played + [t])
      ensures world.View().worker == (if item.Some? then Read(job, item.value) else Idle)
      ensures world.View().issued == old(world.View().issued)
    {
      hide Step, Run, Reachable, Busy, Interleaved;
      NextTurn(Cfg(), s, played, t);
      world.Others(Cfg(), t.env);
      var before := world.View();
      item := world.repository.GetMessageByID(job.message, t.ok);
      world.Note(DoLookup(before, job, t.ok));
      if item.Some? && (item.value.status.Sent? || item.value.status.Delivered? || item.value.status.Read?) {
        item := None;
      }
    }

    /** GetByID on the campaign and its two gates. */
    method Gate(ghost s: State, played: seq<Turn>, job: Job, item: M.Message, t: Turn) returns (passage: Passage)
      requires Underway(s, played) && Calm(t.env) && world.View().worker == Read(job, item)
      modifies world, world.repository, world.redis
      ensures Underway(s, played + [t])
      ensures world.View().worker
              == (match passage case Dropped => Idle case Bounced => Requeue(job) case Passed => Admitted(job, item))
      ensures world.View().issued == old(world.View().issued)
    {
      hide Step, Run, Reachable, Busy, Interleaved;
      NextTurn(Cfg(), s, played, t);
      world.Others(Cfg(), t.env);
      var before := world.View();
      var campaign := world.repository.GetByID(item.campaign, t.ok);
      world.Note(DoGate(before, job, item, t.ok));
      if campaign.None? || campaign.value.status.Scheduled? {
        return Dropped;
      }
      if campaign.value.paused || campaign.value.status.Paused? {
        return Bounced;
      }
      return Passed;
    }

    /** A paused campaign's job goes back to the tail. */
    method Bounce(ghost s: State, played: seq<Turn>, job: Job, t: Turn)
      requires Underway(s, played) && Calm(t.env) && world.View().worker == Requeue(job)
      modifies world, world.repository, world.redis
      ensures Underway(s, played + [t])
      ensures world.View().worker.Idle?
    {
      hide Step, Run, Reachable, Busy, Interleaved;
      NextTurn(Cfg(), s, played, t);
      world.Others(Cfg(), t.env);
      var before := world.View();
      var failed := world.redis.RequeueCampaignMessage(job, t.ok);
      world.Note(DoRequeue(before, job, t.ok));
    }

    /** MarkMessageProcessing. */
    method Mark(ghost s: State, played: seq<Turn>, job: Job, item: M.Message, t: Turn) returns (failed: bool)
      requires Underway(s, played) && Calm(t.env) && world.View().worker == Admitted(job, item)
      modifies world, world.repository, world.redis
      ensures Underway(s, played + [t])
      ensures world.View().worker == (if failed then Idle else Marked(job, item))
      ensures world.View().issued == old(world.View().issued)
    {
      hide Step, Run, Reachable, Busy, Interleaved;
      NextTurn(Cfg(), s, played, t);
      world.Others(Cfg(), t.env);
      var before := world.View();
      failed := world.repository.MarkMessageProcessing(job.message, t.ok);
      world.Note(DoMark(before, job, item, t.ok));
    }

    /** RecalculateCampaign after MarkMessageProcessing; an error is only logged. */
    method RecalculateMarked(ghost s: State, played: seq<Turn>, job: Job, item: M.Message, t: Turn)
      requires Underway(s, played) && Calm(t.env) && world.View().worker == Marked(job, item)
      modifies world, world.repository, world.redis
      ensures Underway(s, played + [t]) && world.View().worker == Waiting(job, item)
      ensures world.View().issued == old(world.View().issued)
    {
      hide Step, Run, Reachable, Busy, Interleaved;
      NextTurn(Cfg(), s, played, t);
      world.Others(Cfg(), t.env);
      Recalculate(item, t.ok, Waiting(job, item));
    }

    /** RecalculateCampaign after the answer was written. */
    method RecalculateSettled(ghost s: State, played: seq<Turn>, job: Job, item: M.Message, retry: bool, t: Turn)
      requires Underway(s, played) && Calm(t.env) && world.View().worker == Settled(job, item, retry)
      modifies world, world.repository, world.redis
      ensures Underway(s, played + [t]) && world.View().worker == (if retry then Rearm(job, item) else Idle)
    {
      hide Step, Run, Reachable, Busy, Interleaved;
      NextTurn(Cfg(), s, played, t);
      world.Others(Cfg(), t.env);
      Recalculate(item, t.ok, if retry then Rearm(job, item) else Idle);
    }

    method Recalculate(item: M.Message, ok: bool, next: Worker)
      requires item.campaign < |world.View().campaigns|
      modifies world, world.repository
      ensures world.View() == DoRecalculateThen(old(world.View()), item.campaign, ok, next)
    {
      var before := world.View();
      var failed := world.repository.RecalculateCampaign(item.campaign, ok);
      world.Note(DoRecalculateThen(before, item.campaign, ok, next));
    }

    /** The write that follows the provider's answer. */
    method Settle(ghost s: State, played: seq<Turn>, job: Job, item: M.Message, answer: Answer,
                  t: Turn) returns (outcome: Outcome)
      requires Underway(s, played) && Calm(t.env) && world.View().worker == Answered(job, item, answer)
      modifies world, world.repository, world.redis
      ensures Underway(s, played + [t])
      ensures world.View().worker == (if outcome.SendLost? then Idle else Settled(job, item, outcome.retry))
    {
      hide Step, Run, Reachable, Busy, Interleaved;
      NextTurn(Cfg(), s, played, t);
      world.Others(Cfg(), t.env);
      outcome := WriteAnswer(job, item, answer, t.ok);
    }

    method WriteAnswer(job: Job, item: M.Message, answer: Answer, ok: bool) returns (outcome: Outcome)
      requires Anchored(world.View()) && world.View().worker == Answered(job, item, answer)
      modifies world, world.repository
      ensures world.View() == DoSettle(Cfg(), old(world.View()), job, item, answer, ok)
      ensures world.View().worker == (if outcome.SendLost? then Idle else Settled(job, item, outcome.retry))
    {
      var before := world.View();
      var failed;
      match answer {
      case Accepted(id) =>
        failed := world.repository.MarkMessageSent(job.message, id, ok);
        outcome := if failed then SendLost else Finished(false);
      case Rejected(failure) =>
        var retry := RetryAgain(failure, item.attempts + 1);
        if retry {
          var nextRetryAt := world.repository.clock + delay;
          failed := world.repository.MarkMessagePendingRetry(job.message, failure, nextRetryAt, ok);
        } else {
          failed := world.repository.MarkMessageFailed(job.message, failure, ok);
        }
        outcome := Finished(retry);
      }
      world.Note(DoSettle(Cfg(), before, job, item, answer, ok));
    }

    /** `scheduleRetry`: a timer that will push the job with one more attempt. */
    method ScheduleRetry(ghost s: State, played: seq<Turn>, job: Job, item: M.Message, t: Turn)
      requires Underway(s, played) && Calm(t.env) && world.View().worker == Rearm(job, item)
      modifies world, world.repository, world.redis
      ensures Underway(s, played + [t]) && world.View().worker.Idle?
    {
      hide Step, Run, Reachable, Busy, Interleaved;
      NextTurn(Cfg(), s, played, t);
      world.Others(Cfg(), t.env);
      ArmTimer(job, item);
    }

    method ArmTimer(job: Job, item: M.Message)
      requires Anchored(world.View()) && world.View().worker == Rearm(job, item)
      modifies world
      ensures world.View() == DoRearm(old(world.View()), job)
    {
      var before := world.View();
      world.StartTimer(job.(attempt := job.attempt + 1));
      world.Note(DoRearm(before, job));
    }

    /** SendText. */
    method Send(ghost s: State, played: seq<Turn>, job: Job, item: M.Message, t: Turn) returns (answer: Answer)
      requires Underway(s, played) && Calm(t.env) && world.View().worker == Sending(job, item)
      requires t.answer.Accepted? ==> t.answer.id !in world.View().issued
      modifies world, world.repository, world.redis
      ensures Underway(s, played + [t])
      ensures answer == t.answer && world.View().worker == Answered(job, item, answer)
    {
      hide Step, Run, Reachable, Busy, Interleaved;
      NextTurn(Cfg(), s, played, t);
      world.Others(Cfg(), t.env);
      var before := world.View();
      answer := t.answer;
      world.Note(DoSend(before, job, item, t.answer));
    }

    /** `waitForHumanCadence` on the lane of the job's instance; `cancelled` when the context ends meanwhile. */
    method Wait(ghost s: State, played: seq<Turn>, job: Job, item: M.Message, t: Turn,
                h: Cad.Humanizer, draws: Cad.Draws, cancelled: bool)
      returns (ok: bool, until: Time)
      requires Underway(s, played) && Calm(t.env) && world.View().worker == Waiting(job, item) && lanes.Valid()
      modifies world, world.repository, world.redis, lanes, lanes.lanes.Values
      ensures Underway(s, played + [t.(ok := ok)])
      ensures world.View().worker == (if ok then Sending(job, item) else Idle) && (cancelled || ok)
      ensures lanes.Valid() && LaneMoved(h, old(lanes.LaneOf(job.instance)), lanes.LaneOf(job.instance),
                                         Run(Cfg(), old(world.View()), t.env).clock, draws, cancelled, ok)
      ensures ok ==>
                until == Until(h, old(lanes.LaneOf(job.instance)), Run(Cfg(), old(world.View()), t.env).clock, draws)
      ensures forall other :: other != job.instance ==> lanes.LaneOf(other) == old(lanes.LaneOf(other))
      ensures fresh(lanes.lanes.Values - old(lanes.lanes.Values))
      ensures world.View().issued == old(world.View().issued)
    {
      hide Step, Run, Reachable, Busy, Interleaved;
      BeforeTurn(Cfg(), s, played, t);
      world.Others(Cfg(), t.env);
      ok, until := WaitInLane(job, item, h, draws, cancelled);
      NextTurn(Cfg(), s, played, t.(ok := ok));
    }

    method WaitInLane(job: Job, item: M.Message, h: Cad.Humanizer, draws: Cad.Draws, cancelled: bool)
      returns (ok: bool, until: Time)
      requires world.View().worker == Waiting(job, item) && lanes.Valid()
      modifies world, lanes, lanes.lanes.Values
      ensures world.View() == DoWait(old(world.View()), job, item, ok)
      ensures lanes.Valid() && LaneMoved(h, old(lanes.LaneOf(job.instance)), lanes.LaneOf(job.instance),
                                         old(world.View()).clock, draws, cancelled, ok)
      ensures ok ==> until == Until(h, old(lanes.LaneOf(job.instance)), old(world.View()).clock, draws)
      ensures forall other :: other != job.instance ==> lanes.LaneOf(other) == old(lanes.LaneOf(other))
      ensures fresh(lanes.lanes.Values - old(lanes.lanes.Values))
    {
      var before := world.View();
      var providerDelay, waitFor;
      var now := world.repository.clock;
      providerDelay, waitFor, ok := lanes.WaitForHumanCadence(h, job.instance, now, draws, cancelled);
      until := now + waitFor;
      world.Note(DoWait(before, job, item, ok));
    }

    lemma Starting()
      requires Reachable(Cfg(), world.View())
      ensures Underway(world.View(), [])
    {
      hide Step;
    }

    /** The first half of `handleJob`, up to the cadence wait: the row when the job was admitted. */
    method Admit(ghost s: State, job: Job, turns: seq<Turn>) returns (played: seq<Turn>, item: Option<M.Message>)
      requires Underway(s, []) && world.View().worker == Popped(job)
      requires |turns| == 9 && AllCalm(turns)
      modifies world, world.repository, world.redis
      ensures Underway(s, played)
      ensures 1 <= |played| <= 4 && played == turns[..|played|]
      ensures world.View().worker == (if item.Some? then Waiting(job, item.value) else Idle)
      ensures item.Some? ==> |played| == 4 && world.View().issued == old(world.View().issued)
    {
      hide Step, Run, Reachable, Busy, Interleaved;
      item := Lookup(s, [], job, turns[0]);
      TakeOneMore(turns, 0);
      if item.None? {
        return turns[..1], None;
      }
      var passage := Gate(s, turns[..1], job, item.value, turns[1]);
      TakeOneMore(turns, 1);
      if passage.Dropped? {
        return turns[..2], None;
      }
      TakeOneMore(turns, 2);
      if passage.Bounced? {
        Bounce(s, turns[..2], job, turns[2]);
        return turns[..3], None;
      }
      var failed := Mark(s, turns[..2], job, item.value, turns[2]);
      if failed {
        return turns[..3], None;
      }
      RecalculateMarked(s, turns[..3], job, item.value, turns[3]);
      TakeOneMore(turns, 3);
      played := turns[..4];
    }

    /** The second half of `handleJob`, after the wait. */
    method Deliver(ghost s: State, before: seq<Turn>, job: Job, item: M.Message,
                   turns: seq<Turn>) returns (played: seq<Turn>)
      requires Underway(s, before) && world.View().worker == Sending(job, item)
      requires |turns| == 4 && AllCalm(turns)
      requires turns[0].answer.Accepted? ==> turns[0].answer.id !in world.View().issued
      modifies world, world.repository, world.redis
      ensures Underway(s, played) && world.View().worker.Idle?
      ensures |before| + 2 <= |played| <= |before| + 4 && played == before + turns[..|played| - |before|]
    {
      hide Step, Run, Reachable, Busy, Interleaved;
      var answer := Send(s, before, job, item, turns[0]);
      OneMore(before, turns, 0);
      played := before + turns[..1];
      var outcome := Settle(s, played, job, item, answer, turns[1]);
      OneMore(before, turns, 1);
      played := before + turns[..2];
      if outcome.SendLost? {
        return;
      }
      RecalculateSettled(s, played, job, item, outcome.retry, turns[2]);
      OneMore(before, turns, 2);
      played := before + turns[..3];
      if outcome.retry {
        ScheduleRetry(s, played, job, item, turns[3]);
        OneMore(before, turns, 3);
        played := before + turns[..4];
      }
    }

    /** `handleJob`, with the other goroutines running before each statement: a run of the machine in which the worker
        makes the given turns, up to the one after which it is idle. Only the outcome of the cadence wait and its length
        are not inputs: the clock stands at `until` at the earliest when SendText is called. */
    method HandleJob(job: Job, turns: seq<Turn>, h: Cad.Humanizer, draws: Cad.Draws, cancelled: bool)
      returns (played: seq<Turn>, waited: bool, until: Time)
      requires Reachable(Cfg(), world.View()) && world.View().worker == Popped(job) && lanes.Valid()
      requires |turns| == 9 && AllCalm(turns)
      requires turns[5].answer.Accepted? ==> turns[5].answer.id !in world.View().issued
      modifies world, world.repository, world.redis, lanes, lanes.lanes.Values
      ensures Underway(old(world.View()), played) && world.View().worker.Idle?
      ensures 1 <= |played| <= 9 && played == Adjusted(turns, waited, until)[..|played|]
      ensures lanes.Valid() && (cancelled || waited) && (|played| > WAIT_TURN ==> (waited <==> |played| > SEND_TURN))
      ensures LaneAfter(h, old(lanes.LaneOf(job.instance)), lanes.LaneOf(job.instance), old(world.View()), played,
                        draws, cancelled, waited, until)
      ensures forall other :: other != job.instance ==> lanes.LaneOf(other) == old(lanes.LaneOf(other))
      ensures fresh(lanes.lanes.Values - old(lanes.lanes.Values))
    {
      hide Step, Run, Reachable, Busy, Interleaved, LaneMoved, ClockAt, Until;
      ghost var s := world.View();
      waited, until := true, 0;
      Starting();
      var item;
      played, item := Admit(s, job, turns);
      if item.None? {
        assert played == Adjusted(turns, waited, until)[..|played|];
        return;
      }
      hide LaneAfter;
      played, waited, until := WaitAndDeliver(s, job, item.value, turns, h, draws, cancelled);
    }

    /** `handleJob` from the cadence wait on. */
    method WaitAndDeliver(ghost s: State, job: Job, item: M.Message, turns: seq<Turn>, h: Cad.Humanizer,
                          draws: Cad.Draws, cancelled: bool)
      returns (played: seq<Turn>, waited: bool, until: Time)
      requires |turns| == 9 && AllCalm(turns) && Underway(s, turns[..4])
      requires world.View().worker == Waiting(job, item) && lanes.Valid()
      requires turns[5].answer.Accepted? ==> turns[5].answer.id !in world.View().issued
      modifies world, world.repository, world.redis, lanes, lanes.lanes.Values
      ensures Underway(s, played) && world.View().worker.Idle?
      ensures 5 <= |played| <= 9 && played == Adjusted(turns, waited, until)[..|played|]
      ensures lanes.Valid() && (cancelled || waited) && (waited <==> |played| > SEND_TURN)
      ensures LaneAfter(h, old(lanes.LaneOf(job.instance)), lanes.LaneOf(job.instance), s, played,
                        draws, cancelled, waited, until)
      ensures forall other :: other != job.instance ==> lanes.LaneOf(other) == old(lanes.LaneOf(other))
      ensures fresh(lanes.lanes.Values - old(lanes.lanes.Values))
    {
      hide Step, Run, Reachable, Busy, Interleaved, LaneMoved, Until, ClockAt;
      ghost var reached := world.View();
      waited, until := Wait(s, turns[..4], job, item, turns[4], h, draws, cancelled);
      played := Adjusted(turns, waited, until)[..5];
      JoinTurns(turns, waited, until, 0);
      WaitClock(s, played, reached, turns[4].env);
      if !waited {
        return;
      }
      AdjustedCalm(turns, waited, until);
      played := Deliver(s, played, job, item, Adjusted(turns, waited, until)[5..]);
      JoinTurns(turns, waited, until, |played| - 5);
      SameStart(s, Adjusted(turns, waited, until), |played|);
    }

    /** What the call did to the lane of its instance: nothing unless the wait was reached. */
    ghost predicate LaneAfter(h: Cad.Humanizer, l: Cad.Lane, l': Cad.Lane, s: State, played: seq<Turn>,
                              draws: Cad.Draws,
                              cancelled: bool, waited: bool, until: Time) {
      if |played| <= WAIT_TURN then l' == l
      else
        var now := ClockAt(Cfg(), s, played, WAIT_TURN);
        && LaneMoved(h, l, l', now, draws, cancelled, waited) && (waited ==> until == Until(h, l, now, draws))
    }

    lemma WaitClock(s: State, played: seq<Turn>, reached: State, env: seq<Event>)
      requires |played| == 5 && reached == Run(Cfg(), s, Interleaved(played[..4])) && played[4].env == env
      ensures ClockAt(Cfg(), s, played, WAIT_TURN) == Run(Cfg(), reached, env).clock
    {
    }

    lemma SameStart(s: State, turns: seq<Turn>, n: nat)
      requires 5 <= n <= |turns|
      ensures ClockAt(Cfg(), s, turns[..n], WAIT_TURN) == ClockAt(Cfg(), s, turns[..5], WAIT_TURN)
    {
      assert turns[..n][..4] == turns[..5][..4];
    }

    /** One iteration of `run`: pop the head of the list and handle it. */
    method RunOnce(pop: Turn, turns: seq<Turn>, h: Cad.Humanizer, draws: Cad.Draws, cancelled: bool)
      returns (job: Option<Job>, played: seq<Turn>, waited: bool, until: Time)
      requires Reachable(Cfg(), world.View()) && world.View().worker.Idle? && lanes.Valid()
      requires Calm(pop.env) && |turns| == 9 && AllCalm(turns)
      requires turns[5].answer.Accepted? ==> turns[5].answer.id !in world.View().issued
      modifies world, world.repository, world.redis, lanes, lanes.lanes.Values
      ensures var queue := Run(Cfg(), old(world.View()), pop.env).queue;
              job == (if pop.ok && queue != [] then Some(queue[0]) else None)
      ensures world.View().worker.Idle? && lanes.Valid() && Underway(Turned(Cfg(), old(world.View()), pop), played)
      ensures |played| <= 9 && played == Adjusted(turns, waited, until)[..|played|] && (job.None? <==> played == [])
      ensures (cancelled || waited) && (|played| > WAIT_TURN ==> (waited <==> |played| > SEND_TURN))
      ensures job.Some? ==>
                LaneAfter(h, old(lanes.LaneOf(job.value.instance)), lanes.LaneOf(job.value.instance),
                          Turned(Cfg(), old(world.View()), pop), played, draws, cancelled, waited, until)
      ensures forall other :: job.None? || other != job.value.instance ==>
                lanes.LaneOf(other) == old(lanes.LaneOf(other))
      ensures fresh(lanes.lanes.Values - old(lanes.lanes.Values))
    {
      hide Step, Reachable, DoWork, Busy, Adjusted;
      ghost var s := world.View();
      job := Pop(pop);
      played, waited, until := [], true, 0;
      if job.None? {
        Starting();
        return;
      }
      played, waited, until := HandleJob(job.value, turns, h, draws, cancelled);
    }

    method Pop(pop: Turn) returns (job: Option<Job>)
      requires Reachable(Cfg(), world.View()) && world.View().worker.Idle? && Calm(pop.env)
      modifies world, world.repository, world.redis
      ensures var queue := Run(Cfg(), old(world.View()), pop.env).queue;
              job == (if pop.ok && queue != [] then Some(queue[0]) else None)
      ensures world.View() == Turned(Cfg(), old(world.View()), pop) && Reachable(Cfg(), world.View())
      ensures world.View().issued == old(world.View().issued)
      ensures world.View().worker == (if job.Some? then Popped(job.value) else Idle)
    {
      hide Step;
      TurnedIsReachable(Cfg(), world.View(), pop);
      OthersLeaveWorker(Cfg(), world.View(), pop.env);
      WorkIsStep(Cfg(), Run(Cfg(), world.View(), pop.env), pop);
      world.Others(Cfg(), pop.env);
      var before := world.View();
      job := world.redis.PopCampaignMessage(pop.ok);
      world.Note(DoPop(before, pop.ok));
    }
  }
}
