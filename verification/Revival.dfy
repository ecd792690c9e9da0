/** How a message that some job still carries reaches the provider. */
module Revival {
  import opened Basics
  import M = Messages
  import C = Campaigns
  import opened Protocol
  import opened Invariants
  import opened CoreSteps
  import opened NoLostWork
  import opened Interleaving
  import opened Outstanding
  import opened Gates
  import G = Guarantees
  import L = StatusLaws

  // -------------------------------------------- from the head of the list to the provider

  /** Nothing stops the worker from sending `row` again. */
  predicate Open(s: State, row: M.Message) {
    && !M.Dispatched(row.status) && row.campaign < |s.campaigns|
    && !s.campaigns[row.campaign].status.Scheduled? && !s.campaigns[row.campaign].status.Paused?
    && !s.campaigns[row.campaign].paused
  }

  /** The worker pops the head of the list and brings it to the provider. */
  lemma HeadReachesProvider(cfg: Config, s: State, a: Answer) returns (es: seq<Event>)
    requires s.worker.Idle? && s.queue != [] && |s.log| == |s.campaigns| && |s.tally| == |s.messages|
    requires s.queue[0].message < |s.messages| && Open(s, s.messages[s.queue[0].message])
    ensures AtProvider(s.(queue := s.queue[1..]), s.queue[0], s.messages[s.queue[0].message], Run(cfg, s, es))
    ensures forall i :: 0 <= i < |es| ==> es[i].Work?
  {
    hide Step, DoWork, AtProvider;
    var job, w := s.queue[0], Work(true, a);
    var row := s.messages[job.message];
    HeadIsAdmitted(cfg, s, a);
    var admitted := Run(cfg, s, [w, w, w]);
    AdmittedReachesProvider(cfg, admitted, job, row, a);
    RunConcat(cfg, s, [w, w, w], [w, w, w]);
    SameStart(s.(queue := s.queue[1..]), admitted, job, row, Run(cfg, admitted, [w, w, w]));
    es := [w, w, w] + [w, w, w];
  }

  lemma HeadIsAdmitted(cfg: Config, s: State, a: Answer)
    requires s.worker.Idle? && s.queue != [] && s.queue[0].message < |s.messages|
             && Open(s, s.messages[s.queue[0].message])
    ensures var w, job := Work(true, a), s.queue[0];
            Run(cfg, s, [w, w, w]) == s.(worker := Admitted(job, s.messages[job.message]), queue := s.queue[1..])
  {
    hide Step;
    var w := Work(true, a);
    ExtendWork(cfg, s, [], a);
    ExtendWork(cfg, s, [w], a);
    ExtendWork(cfg, s, [w, w], a);
    assert [] + [w] == [w] && [w] + [w] == [w, w] && [w, w] + [w] == [w, w, w];
  }

  lemma SameStart(s: State, s': State, job: Job, row: M.Message, t: State)
    requires s' == s.(worker := s'.worker) && AtProvider(s', job, row, t)
    ensures AtProvider(s, job, row, t)
  {
  }

  lemma WorkAfterGate(cfg: Config, s: State, a: Answer)
    ensures var w := s.worker; var t := DoWork(cfg, s, true, a);
            && (w.Admitted? ==> t == DoMark(s, w.job, w.item, true))
            && (w.Marked? ==> t == DoRecalculateThen(s, w.item.campaign, true, Waiting(w.job, w.item)))
            && (w.Waiting? ==> t == DoWait(s, w.job, w.item, true))
  {
  }

  /** `t` is `s` with the job marked, its campaign recalculated, and the worker about to call the provider. */
  predicate AtProvider(s: State, job: Job, row: M.Message, t: State) {
    && job.message < |s.messages|
    && var ms := s.messages[job.message := M.MarkProcessing(s.messages[job.message])];
       t == s.(worker := Sending(job, row), messages := ms, stale := t.stale,
               campaigns := if row.campaign >= |s.campaigns| then s.campaigns
                            else s.campaigns[row.campaign :=
                                   C.Recalculate(s.campaigns[row.campaign], ms, row.campaign)])
  }

  lemma FromGateToProvider(s: State, job: Job, row: M.Message)
    requires s.worker == Admitted(job, row) && job.message < |s.messages|
    ensures var marked := DoMark(s, job, row, true);
            var waiting := DoRecalculateThen(marked, row.campaign, true, Waiting(job, row));
            var sending := DoWait(waiting, job, row, true);
            && marked.worker == Marked(job, row) && waiting.worker == Waiting(job, row)
               && sending.worker == Sending(job, row)
            && AtProvider(s, job, row, sending)
  {
  }

  lemma AdmittedReachesProvider(cfg: Config, s: State, job: Job, row: M.Message, a: Answer)
    requires s.worker == Admitted(job, row) && job.message < |s.messages|
    ensures var w := Work(true, a); AtProvider(s, job, row, Run(cfg, s, [w, w, w]))
  {
    hide Step, DoWork, DoMark, DoRecalculateThen, DoWait;
    var w := Work(true, a);
    var marked := DoMark(s, job, row, true);
    var waiting := DoRecalculateThen(marked, row.campaign, true, Waiting(job, row));
    FromGateToProvider(s, job, row);
    WorkAfterGate(cfg, s, a);
    WorkAfterGate(cfg, marked, a);
    WorkAfterGate(cfg, waiting, a);
    ExtendWork(cfg, s, [], a);
    ExtendWork(cfg, s, [w], a);
    ExtendWork(cfg, s, [w, w], a);
    assert [] + [w] == [w] && [w] + [w] == [w, w] && [w, w] + [w] == [w, w, w];
  }

  // ------------------------------------------------------------- opening a campaign

  predicate KeepsSchedule(es: seq<Event>, c: CampaignId) {
    forall i :: 0 <= i < |es| ==> !(es[i].Reschedule? && es[i].campaign == c)
  }

  /** `m` is an undispatched message of `c`. */
  ghost predicate Unsent(cfg: Config, s: State, c: CampaignId, m: MessageId) {
    Reachable(cfg, s) && m < |s.messages| && s.messages[m].campaign == c && !M.Dispatched(s.messages[m].status)
  }

  /** `es` is permitted from `s` and does not reschedule `c`. */
  ghost predicate Way(cfg: Config, batch: int, s: State, es: seq<Event>, c: CampaignId) {
    KeepsSchedule(es, c) && Permitted(cfg, batch, s, es)
  }

  lemma JoinWays(cfg: Config, batch: int, s: State, a: seq<Event>, b: seq<Event>, c: CampaignId)
    requires Way(cfg, batch, s, a, c) && Way(cfg, batch, Run(cfg, s, a), b, c)
    ensures Way(cfg, batch, s, a + b, c) && Run(cfg, s, a + b) == Run(cfg, Run(cfg, s, a), b)
  {
    hide Step;
    Join(cfg, batch, s, a, b);
  }

  lemma FreeWay(cfg: Config, batch: int, s: State, es: seq<Event>, c: CampaignId)
    requires forall i :: 0 <= i < |es| ==> Free(es[i])
    ensures Way(cfg, batch, s, es, c)
  {
    hide Step;
    FreeIsPermitted(cfg, batch, s, es);
  }

  lemma OneStep(cfg: Config, s: State, e: Event)
    ensures Run(cfg, s, [e]) == Step(cfg, s, e)
    ensures Reachable(cfg, s) ==> Reachable(cfg, Step(cfg, s, e))
  {
    hide Step;
    Extend(cfg, s, [], e);
    assert [] + [e] == [e];
    if Reachable(cfg, s) {
      StillReachable(cfg, s, [e]);
    }
  }

  lemma TwoSteps(cfg: Config, s: State, a: Event, b: Event)
    ensures Run(cfg, s, [a, b]) == Step(cfg, Step(cfg, s, a), b)
  {
    hide Step;
    Extend(cfg, s, [], a);
    Extend(cfg, s, [a], b);
    assert [] + [a] == [a] && [a] + [b] == [a, b];
  }

  lemma ThreeSteps(cfg: Config, s: State, a: Event, b: Event, c: Event)
    ensures Run(cfg, s, [a, b, c]) == Step(cfg, Step(cfg, Step(cfg, s, a), b), c)
  {
    hide Step;
    Extend(cfg, s, [], a);
    Extend(cfg, s, [a], b);
    Extend(cfg, s, [a, b], c);
    assert [] + [a] == [a] && [a] + [b] == [a, b] && [a, b] + [c] == [a, b, c];
  }

  /** The requests changed nothing but the campaign's own columns. */
  predicate OnlyCampaigns(s: State, t: State) {
    t == s.(campaigns := t.campaigns, stale := t.stale) && |t.campaigns| == |s.campaigns|
  }

  /** After a resume and its recalculation nothing of the pause is left. */
  lemma ResumedRow(c: C.Campaign, ms: seq<M.Message>, id: CampaignId)
    requires C.Sum(C.TrueCounts(ms, id)) == c.total && c.total >= 1
    ensures var row := C.Recalculate(C.SetPaused(c, false), ms, id); !row.paused && !row.status.Paused?
  {
    L.ElseUnreachable(C.SetPaused(c, false), C.TrueCounts(ms, id), C.Draft);
  }

  lemma CountsAreWhole(cfg: Config, s: State, c: CampaignId, m: MessageId)
    requires Unsent(cfg, s, c, m)
    ensures c < |s.campaigns| && C.Sum(C.TrueCounts(s.messages, c)) == s.campaigns[c].total >= 1
    ensures CampaignOk(s.campaigns[c])
  {
    ReachableIsCore(cfg, s);
    assert Dir(s).owner[m] == c;
    G.CounterCoherence(cfg, s, c);
    C.CountsPartitionRows(s.messages, c);
  }

  lemma Resumes(cfg: Config, batch: int, s: State, c: CampaignId, m: MessageId)
    requires Unsent(cfg, s, c, m) && c < |s.campaigns| && s.campaigns[c].paused
    ensures var es := [SetPaused(c, false), Recalculate(c)]; var t := Run(cfg, s, es);
            && Way(cfg, batch, s, es, c) && OnlyCampaigns(s, t) && Unsent(cfg, t, c, m)
            && !t.campaigns[c].paused && !t.campaigns[c].status.Paused?
  {
    hide Reachable, C.Recalculate, C.TrueCounts, Core;
    var es := [SetPaused(c, false), Recalculate(c)];
    CountsAreWhole(cfg, s, c, m);
    ResumedRow(s.campaigns[c], s.messages, c);
    StillReachable(cfg, s, es);
    PairIsPermitted(cfg, batch, s, es[0], es[1]);
    TwoSteps(cfg, s, es[0], es[1]);
  }

  lemma Pauses(cfg: Config, batch: int, s: State, c: CampaignId, m: MessageId)
    requires Unsent(cfg, s, c, m) && c < |s.campaigns| && !C.PauseRefused(s.campaigns[c])
    ensures var es := [SetPaused(c, true)]; var t := Run(cfg, s, es);
            && Way(cfg, batch, s, es, c) && OnlyCampaigns(s, t) && Unsent(cfg, t, c, m) && t.campaigns[c].paused
  {
    hide Reachable;
    OneIsPermitted(cfg, batch, s, SetPaused(c, true));
    OneStep(cfg, s, SetPaused(c, true));
  }

  /** The pause of a campaign, or what a half-finished resume left of it, can be undone. */
  lemma Unpauses(cfg: Config, batch: int, s: State, c: CampaignId, m: MessageId) returns (es: seq<Event>)
    requires Unsent(cfg, s, c, m)
    ensures var t := Run(cfg, s, es);
            && Way(cfg, batch, s, es, c) && OnlyCampaigns(s, t) && Unsent(cfg, t, c, m)
            && c < |t.campaigns| && !t.campaigns[c].paused && !t.campaigns[c].status.Paused?
  {
    hide Step, Reachable, Permitted;
    CountsAreWhole(cfg, s, c, m);
    es := [];
    FreeWay(cfg, batch, s, es, c);
    if s.campaigns[c].paused {
      es := [SetPaused(c, false), Recalculate(c)];
      Resumes(cfg, batch, s, c, m);
    } else if s.campaigns[c].status.Paused? {
      var pause := [SetPaused(c, true)];
      Pauses(cfg, batch, s, c, m);
      es := [SetPaused(c, false), Recalculate(c)];
      Resumes(cfg, batch, Run(cfg, s, pause), c, m);
      JoinWays(cfg, batch, s, pause, es, c);
      es := pause + es;
    }
  }

  lemma Cancels(cfg: Config, batch: int, s: State, c: CampaignId, m: MessageId)
    requires Unsent(cfg, s, c, m) && c < |s.campaigns| && s.campaigns[c].status.Scheduled? && !s.campaigns[c].paused
    ensures var es := [CancelScheduled(c)]; var t := Run(cfg, s, es);
            Way(cfg, batch, s, es, c) && OnlyCampaigns(s, t) && Unsent(cfg, t, c, m) && Open(t, t.messages[m])
  {
    hide Reachable, Core;
    CountsAreWhole(cfg, s, c, m);
    OneIsPermitted(cfg, batch, s, CancelScheduled(c));
    OneStep(cfg, s, CancelScheduled(c));
  }

  /** Requests that open the gate for `c`, whatever state it is in: the pause is undone, and a schedule that is still
      ahead is cancelled. */
  lemma OpensGate(cfg: Config, batch: int, s: State, c: CampaignId, m: MessageId) returns (es: seq<Event>)
    requires Unsent(cfg, s, c, m)
    ensures var t := Run(cfg, s, es);
            Way(cfg, batch, s, es, c) && OnlyCampaigns(s, t) && Unsent(cfg, t, c, m) && Open(t, t.messages[m])
  {
    hide Step, Reachable, Permitted;
    es := Unpauses(cfg, batch, s, c, m);
    var t := Run(cfg, s, es);
    if t.campaigns[c].status.Scheduled? {
      Cancels(cfg, batch, t, c, m);
      JoinWays(cfg, batch, s, es, [CancelScheduled(c)], c);
      es := es + [CancelScheduled(c)];
    }
  }

  // ----------------------------------------------------------- jobs in the list

  /** Jobs in front can be popped and dropped by a failing look-up. */
  lemma {:induction false} DropHeads(cfg: Config, s: State, i: nat) returns (es: seq<Event>)
    requires s.worker.Idle? && i <= |s.queue|
    ensures Run(cfg, s, es) == s.(queue := s.queue[i..]) && forall k :: 0 <= k < |es| ==> es[k].Work?
    decreases i
  {
    if i == 0 {
      es := [];
    } else {
      es := DropHeads(cfg, s, i - 1);
      var t := Run(cfg, s, es);
      DropHead(cfg, t, s.queue[i - 1]);
      RunConcat(cfg, s, es, [Work(true, Rejected("")), Work(false, Rejected(""))]);
      es := es + [Work(true, Rejected("")), Work(false, Rejected(""))];
    }
  }

  lemma DropHead(cfg: Config, s: State, job: Job)
    requires s.worker.Idle? && s.queue != [] && s.queue[0] == job
    ensures Run(cfg, s, [Work(true, Rejected("")), Work(false, Rejected(""))]) == s.(queue := s.queue[1..])
  {
    var pop, drop := Work(true, Rejected("")), Work(false, Rejected(""));
    ExtendWork(cfg, s, [], Rejected(""));
    Extend(cfg, s, [pop], drop);
    assert [] + [pop] == [pop] && [pop] + [drop] == [pop, drop];
  }

  /** The worker is about to call the provider for `m`. */
  ghost predicate Sendable(cfg: Config, s: State, c: CampaignId, m: MessageId) {
    Unsent(cfg, s, c, m) && s.worker.Sending? && s.worker.job.message == m && s.worker.item.campaign == c
  }

  lemma QueuedReachesProvider(cfg: Config, batch: int, s: State, c: CampaignId, m: MessageId) returns (es: seq<Event>)
    requires Unsent(cfg, s, c, m) && Carries(s.queue, m)
    ensures Way(cfg, batch, s, es, c) && Sendable(cfg, Run(cfg, s, es), c, m)
  {
    hide Step, Reachable, Permitted;
    var i :| 0 <= i < |s.queue| && s.queue[i].message == m;
    CrashKeepsList(cfg, s, c, m);
    var idle := Run(cfg, s, [Crash]);
    FreeWay(cfg, batch, s, [Crash], c);
    var opening := OpensGate(cfg, batch, idle, c, m);
    var unlocked := Run(cfg, idle, opening);
    JoinWays(cfg, batch, s, [Crash], opening, c);
    var drops := DropHeads(cfg, unlocked, i);
    var ready := Run(cfg, unlocked, drops);
    FreeWay(cfg, batch, unlocked, drops, c);
    JoinWays(cfg, batch, s, [Crash] + opening, drops, c);
    StillReachable(cfg, unlocked, drops);
    Tables(cfg, ready);
    var last := HeadReachesProvider(cfg, ready, Rejected(""));
    StillReachable(cfg, ready, last);
    FreeWay(cfg, batch, ready, last, c);
    JoinWays(cfg, batch, s, [Crash] + opening + drops, last, c);
    es := [Crash] + opening + drops + last;
  }

  lemma Tables(cfg: Config, s: State)
    requires Reachable(cfg, s)
    ensures |s.tally| == |s.messages| && |s.log| == |s.campaigns|
  {
    ReachableIsCore(cfg, s);
  }

  lemma CrashKeepsList(cfg: Config, s: State, c: CampaignId, m: MessageId)
    requires Unsent(cfg, s, c, m)
    ensures var t := Run(cfg, s, [Crash]);
            Unsent(cfg, t, c, m) && t.worker.Idle? && t.queue == s.queue && t.campaigns == s.campaigns
              && t.clock == s.clock
            && t.scheduler.Resting?
  {
    StillReachable(cfg, s, [Crash]);
    Extend(cfg, s, [], Crash);
    assert [] + [Crash] == [Crash];
  }

  // ----------------------------------------------- jobs that are not in the list yet

  /** After `es` a job of `m` is in the list. */
  ghost predicate Queues(cfg: Config, batch: int, s: State, es: seq<Event>, c: CampaignId, m: MessageId) {
    Way(cfg, batch, s, es, c) && Unsent(cfg, Run(cfg, s, es), c, m) && Carries(Run(cfg, s, es).queue, m)
  }

  lemma TailCarries(queue: seq<Job>, jobs: seq<Job>, i: nat, m: MessageId)
    requires i < |jobs| && jobs[i].message == m
    ensures Carries(queue + jobs, m)
  {
    assert (queue + jobs)[|queue| + i].message == m;
  }

  /** A timer fires when its delay is over. */
  lemma TimerQueues(cfg: Config, batch: int, s: State, c: CampaignId, m: MessageId) returns (es: seq<Event>)
    requires Unsent(cfg, s, c, m) && Carries(s.timers, m)
    ensures Queues(cfg, batch, s, es, c, m)
  {
    var i :| 0 <= i < |s.timers| && s.timers[i].message == m;
    es := [Tick(s.clock + cfg.retryDelay), FireTimer(i, true)];
    PairIsPermitted(cfg, batch, s, es[0], es[1]);
    StillReachable(cfg, s, es);
    TwoSteps(cfg, s, es[0], es[1]);
    TailCarries(s.queue, [s.timers[i]], 0, m);
  }

  lemma {:induction false} SweptQueues(cfg: Config, batch: int, s: State, i: nat, c: CampaignId, m: MessageId)
    returns (es: seq<Event>)
    requires Unsent(cfg, s, c, m) && i < |s.swept| && s.swept[i].message == m
    ensures Queues(cfg, batch, s, es, c, m)
    decreases i
  {
    hide Permitted;
    OneStep(cfg, s, RequeueSwept(true));
    es := [RequeueSwept(true)];
    FreeWay(cfg, batch, s, es, c);
    if i == 0 {
      TailCarries(s.queue, [s.swept[0]], 0, m);
    } else {
      var t := DoRequeueSwept(s, true);
      var more := SweptQueues(cfg, batch, t, i - 1, c, m);
      JoinWays(cfg, batch, s, es, more, c);
      es := es + more;
    }
  }

  lemma CreatingQueues(cfg: Config, batch: int, s: State, c: CampaignId, m: MessageId) returns (es: seq<Event>)
    requires Unsent(cfg, s, c, m) && c in s.creating
    ensures Queues(cfg, batch, s, es, c, m)
  {
    es := [PublishCreated(c, true)];
    FreeWay(cfg, batch, s, es, c);
    OneStep(cfg, s, PublishCreated(c, true));
    ReachableIsCore(cfg, s);
    CreatedJobsRefer(s, c);
    assert Dir(s).owner[m] == c;
    CoveredIsCarried(Dir(s), c, CreatedJobs(s, c), m);
    CarriesAppend(s.queue, CreatedJobs(s, c), m);
  }

  /** Steps until the worker calls the provider, arms a timer, or gives the job back. */
  function Phase(w: Worker): nat {
    match w
    case Sending(_, _) => 0
    case Rearm(_, _) => 1
    case Settled(_, _, _) => 2
    case Answered(_, _, _) => 3
    case Waiting(_, _) => 4
    case Marked(_, _) => 5
    case Admitted(_, _) => 6
    case Requeue(_) => 7
    case Read(_, _) => 8
    case Popped(_) => 9
    case Idle => 10
  }

  const NO: Answer := Rejected("")

  const WORK: seq<Event> := [Work(true, NO)]

  lemma HandStep(cfg: Config, s: State, c: CampaignId, m: MessageId)
    requires Unsent(cfg, s, c, m) && InHand(cfg, s.worker, m)
    requires !s.worker.Read? && !s.worker.Requeue? && !s.worker.Sending? && !s.worker.Rearm?
    ensures var t := Run(cfg, s, WORK);
            Unsent(cfg, t, c, m) && InHand(cfg, t.worker, m) && Phase(t.worker) < Phase(s.worker)
  {
    OneStep(cfg, s, Work(true, NO));
    Tables(cfg, s);
  }

  /** A worker that looks at an open campaign lets the job through. */
  lemma GatePasses(cfg: Config, s: State, c: CampaignId, m: MessageId)
    requires Unsent(cfg, s, c, m) && s.worker.Read? && s.worker.job.message == m && Open(s, s.messages[m])
    ensures var t := Run(cfg, s, WORK);
            Unsent(cfg, t, c, m) && InHand(cfg, t.worker, m) && t.worker.Admitted?
  {
    ReachableIsCore(cfg, s);
    assert Dir(s).owner[m] == c && s.worker.item.campaign == c;
    OneStep(cfg, s, Work(true, NO));
  }

  lemma RequeueQueues(cfg: Config, batch: int, s: State, c: CampaignId, m: MessageId)
    requires Unsent(cfg, s, c, m) && s.worker.Requeue? && s.worker.job.message == m
    ensures Queues(cfg, batch, s, WORK, c, m)
  {
    FreeWay(cfg, batch, s, WORK, c);
    OneStep(cfg, s, Work(true, NO));
    TailCarries(s.queue, [s.worker.job], 0, m);
  }

  lemma RearmQueues(cfg: Config, batch: int, s: State, c: CampaignId, m: MessageId) returns (es: seq<Event>)
    requires Unsent(cfg, s, c, m) && s.worker.Rearm? && s.worker.job.message == m
    ensures Queues(cfg, batch, s, es, c, m)
  {
    hide Permitted;
    FreeWay(cfg, batch, s, WORK, c);
    OneStep(cfg, s, Work(true, NO));
    Tables(cfg, s);
    var job := s.worker.job.(attempt := s.worker.job.attempt + 1);
    TailCarries(s.timers, [job], 0, m);
    var more := TimerQueues(cfg, batch, Run(cfg, s, WORK), c, m);
    JoinWays(cfg, batch, s, WORK, more, c);
    es := WORK + more;
  }

  lemma {:induction false} HandReachesProvider(cfg: Config, batch: int, s: State, c: CampaignId, m: MessageId)
    returns (es: seq<Event>)
    requires Unsent(cfg, s, c, m) && InHand(cfg, s.worker, m)
    ensures Way(cfg, batch, s, es, c) && Sendable(cfg, Run(cfg, s, es), c, m)
    decreases Phase(s.worker)
  {
    hide Step, Reachable, Core, Permitted, Queues, Way;
    if s.worker.Sending? {
      es := [];
      FreeWay(cfg, batch, s, es, c);
      ItemIsOwn(cfg, s, c, m);
    } else if s.worker.Requeue? {
      RequeueQueues(cfg, batch, s, c, m);
      es := ThenSends(cfg, batch, s, WORK, c, m);
    } else if s.worker.Rearm? {
      es := RearmQueues(cfg, batch, s, c, m);
      es := ThenSends(cfg, batch, s, es, c, m);
    } else {
      es := OneOn(cfg, batch, s, c, m);
      var more := HandReachesProvider(cfg, batch, Run(cfg, s, es), c, m);
      JoinWays(cfg, batch, s, es, more, c);
      es := es + more;
    }
  }

  /** The worker comes closer to the provider, the campaign having been opened if it is about to look. */
  lemma OneOn(cfg: Config, batch: int, s: State, c: CampaignId, m: MessageId) returns (es: seq<Event>)
    requires Unsent(cfg, s, c, m) && InHand(cfg, s.worker, m)
    requires !s.worker.Requeue? && !s.worker.Sending? && !s.worker.Rearm?
    ensures var t := Run(cfg, s, es);
            && Way(cfg, batch, s, es, c) && Unsent(cfg, t, c, m) && InHand(cfg, t.worker, m)
            && Phase(t.worker) < Phase(s.worker)
  {
    hide Step, Reachable, Core, Permitted, Way;
    if s.worker.Read? {
      es := OpensGate(cfg, batch, s, c, m);
      var t := Run(cfg, s, es);
      GatePasses(cfg, t, c, m);
      FreeWay(cfg, batch, t, WORK, c);
      JoinWays(cfg, batch, s, es, WORK, c);
      es := es + WORK;
    } else {
      HandStep(cfg, s, c, m);
      FreeWay(cfg, batch, s, WORK, c);
      es := WORK;
    }
  }

  lemma ItemIsOwn(cfg: Config, s: State, c: CampaignId, m: MessageId)
    requires Unsent(cfg, s, c, m) && s.worker.Sending? && s.worker.job.message == m
    ensures Sendable(cfg, s, c, m)
  {
    ReachableIsCore(cfg, s);
    assert Dir(s).owner[m] == c;
  }

  lemma ThenSends(cfg: Config, batch: int, s: State, first: seq<Event>, c: CampaignId, m: MessageId)
    returns (es: seq<Event>)
    requires Queues(cfg, batch, s, first, c, m)
    ensures Way(cfg, batch, s, es, c) && Sendable(cfg, Run(cfg, s, es), c, m)
  {
    hide Step, Reachable, Permitted, Way;
    var more := QueuedReachesProvider(cfg, batch, Run(cfg, s, first), c, m);
    JoinWays(cfg, batch, s, first, more, c);
    es := first + more;
  }

  /** Whatever carries an undispatched message, some permitted continuation brings it to the provider. */
  lemma ReachesProvider(cfg: Config, batch: int, s: State, c: CampaignId, m: MessageId) returns (es: seq<Event>)
    requires Unsent(cfg, s, c, m) && BroughtIn(cfg, s, m)
    ensures Way(cfg, batch, s, es, c) && Sendable(cfg, Run(cfg, s, es), c, m)
  {
    hide Step, Reachable, Permitted, Way;
    if InHand(cfg, s.worker, m) {
      es := HandReachesProvider(cfg, batch, s, c, m);
    } else {
      if Carries(s.queue, m) {
        es := [];
        FreeWay(cfg, batch, s, es, c);
      } else if Carries(s.timers, m) {
        es := TimerQueues(cfg, batch, s, c, m);
      } else if Carries(s.swept, m) {
        var i :| 0 <= i < |s.swept| && s.swept[i].message == m;
        es := SweptQueues(cfg, batch, s, i, c, m);
      } else {
        es := CreatingQueues(cfg, batch, s, c, m);
      }
      es := ThenSends(cfg, batch, s, es, c, m);
    }
  }

  /** Provider ids never run out. */
  lemma FreshId(issued: set<ProviderId>) returns (id: ProviderId)
    ensures id !in issued
  {
    var n := Longest(issued);
    id := seq(n + 1, _ => 'x');
  }

  lemma {:induction false} Longest(ids: set<ProviderId>) returns (n: nat)
    ensures forall id :: id in ids ==> |id| <= n
    decreases |ids|
  {
    if ids == {} {
      n := 0;
    } else {
      var id :| id in ids;
      n := Longest(ids - {id});
      n := Max(n, |id|);
    }
  }
}
