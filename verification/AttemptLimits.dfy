/** When attempt_count exceeds MaxAttempts. */
module AttemptLimits {
  import opened Basics
  import M = Messages
  import opened Protocol
  import opened Invariants
  import opened CoreSteps
  import opened Interleaving
  import opened Gates
  import opened Revival
  import opened Scenarios
  import G = Guarantees
  import A = Accounting
  import opened Worker

  // ---------------------------------------------------- what uses an attempt

  /** MarkMessageProcessing is carried out for `m`. */
  predicate AttemptsNow(s: State, e: Event, m: MessageId) {
    e.Work? && e.ok && s.worker.Admitted? && s.worker.job.message == m
  }

  lemma AttemptsStep(cfg: Config, s: State, e: Event, m: MessageId)
    requires m < |s.messages|
    ensures var t := Step(cfg, s, e);
            m < |t.messages| && t.messages[m].attempts == s.messages[m].attempts + A.One(AttemptsNow(s, e, m))
  {
    if e.Work? {
      AttemptsWork(cfg, s, e.ok, e.answer, m);
    }
  }

  lemma AttemptsWork(cfg: Config, s: State, ok: bool, answer: Answer, m: MessageId)
    requires m < |s.messages|
    ensures var t := DoWork(cfg, s, ok, answer);
            && m < |t.messages|
            && t.messages[m].attempts == s.messages[m].attempts + A.One(AttemptsNow(s, Work(ok, answer), m))
  {
    match s.worker
    case Answered(job, item, a) => AttemptsSettled(cfg, s, job, item, a, ok, m);
    case _ =>
  }

  lemma AttemptsSettled(cfg: Config, s: State, job: Job, item: M.Message, a: Answer, ok: bool, m: MessageId)
    requires m < |s.messages| && s.worker == Answered(job, item, a)
    ensures var t := DoSettle(cfg, s, job, item, a, ok);
            m < |t.messages| && t.messages[m].attempts == s.messages[m].attempts
  {
  }

  /** Over every run attempt_count rises by one per MarkMessageProcessing that is carried out, and by nothing else. */
  lemma {:induction false} AttemptsAreCounted(cfg: Config, s: State, es: seq<Event>, m: MessageId)
    requires m < |s.messages|
    ensures var t := Run(cfg, s, es);
            && m < |t.messages|
            && t.messages[m].attempts
               == s.messages[m].attempts + G.Occurrences(cfg, s, es, (x, e) => AttemptsNow(x, e, m))
  {
    hide Step;
    if es != [] {
      AttemptsAreCounted(cfg, s, es[..|es| - 1], m);
      AttemptsStep(cfg, Run(cfg, s, es[..|es| - 1]), es[|es| - 1], m);
    }
  }

  // ------------------------------------------------------ handling one job

  /** One call of `handleJob` on `job`, as `DispatchWorker.HandleJob` leaves it: from the popped job on, the worker
      makes the turns, busy before each and idle after the last, with anything but its own steps in between. */
  ghost predicate Handling(cfg: Config, s: State, job: Job, turns: seq<Turn>) {
    && s.worker == Popped(job) && AllCalm(turns) && Busy(cfg, s, turns)
    && Run(cfg, s, Interleaved(turns)).worker.Idle?
  }

  function After(cfg: Config, s: State, turns: seq<Turn>, k: nat): State
    requires k <= |turns|
  {
    Run(cfg, s, Interleaved(turns[..k]))
  }

  /** The state that statement `k` of the call meets. */
  function Met(cfg: Config, s: State, turns: seq<Turn>, k: nat): State
    requires k < |turns|
  {
    Run(cfg, After(cfg, s, turns, k), turns[k].env)
  }

  /** The look-up finds the message undispatched, the gate finds its campaign neither scheduled nor paused, and neither
      statement nor MarkMessageProcessing fails. */
  ghost predicate UsesAttempt(cfg: Config, s: State, job: Job, turns: seq<Turn>) {
    && |turns| >= 3 && turns[0].ok && turns[1].ok && turns[2].ok
    && job.message < |Met(cfg, s, turns, 0).messages|
    && var row := Met(cfg, s, turns, 0).messages[job.message];
       var cs := Met(cfg, s, turns, 1).campaigns;
       && !M.Dispatched(row.status) && row.campaign < |cs|
       && !cs[row.campaign].status.Scheduled? && !cs[row.campaign].status.Paused? && !cs[row.campaign].paused
  }

  /** Nobody but the worker uses attempts. */
  lemma {:induction false} OthersUseNone(cfg: Config, s: State, env: seq<Event>, m: MessageId)
    requires Calm(env) && m < |s.messages|
    ensures var t := Run(cfg, s, env); m < |t.messages| && t.messages[m].attempts == s.messages[m].attempts
  {
    hide Step;
    if env != [] {
      OthersUseNone(cfg, s, env[..|env| - 1], m);
      AttemptsStep(cfg, Run(cfg, s, env[..|env| - 1]), env[|env| - 1], m);
    }
  }

  /** One statement: where the worker was, and what it adds. */
  lemma OneTurn(cfg: Config, s: State, turns: seq<Turn>, k: nat, m: MessageId)
    requires Reachable(cfg, s) && AllCalm(turns) && k < |turns| && m < |After(cfg, s, turns, k).messages|
    ensures var a, b, mid := After(cfg, s, turns, k), After(cfg, s, turns, k + 1), Met(cfg, s, turns, k);
            && mid.worker == a.worker && b == DoWork(cfg, mid, turns[k].ok, turns[k].answer)
            && m < |mid.messages| && m < |b.messages|
            && b.messages[m].attempts == a.messages[m].attempts
                 + A.One(turns[k].ok && a.worker.Admitted? && a.worker.job.message == m)
  {
    hide Step, Reachable, DoWork;
    var a := After(cfg, s, turns, k);
    NextTurn(cfg, s, turns[..k], turns[k]);
    assert turns[..k] + [turns[k]] == turns[..k + 1];
    OthersUseNone(cfg, a, turns[k].env, m);
    AttemptsWork(cfg, Met(cfg, s, turns, k), turns[k].ok, turns[k].answer, m);
  }

  lemma StillBusy(cfg: Config, s: State, turns: seq<Turn>, k: nat)
    requires Busy(cfg, s, turns) && k < |turns|
    ensures !After(cfg, s, turns, k).worker.Idle?
  {
    hide Step;
  }

  /** Once the attempt is used, or the worker idle, no further one is used. */
  lemma {:induction false} RestUsesNone(cfg: Config, s: State, turns: seq<Turn>, n: nat, k: nat, m: MessageId)
    requires Reachable(cfg, s) && AllCalm(turns) && Busy(cfg, s, turns) && n <= k <= |turns|
    requires m < |After(cfg, s, turns, n).messages|
    requires After(cfg, s, turns, n).worker.Idle? || AfterMark(After(cfg, s, turns, n).worker)
    ensures var t := After(cfg, s, turns, k);
            && m < |t.messages| && t.messages[m].attempts == After(cfg, s, turns, n).messages[m].attempts
            && (t.worker.Idle? || AfterMark(t.worker))
    decreases k
  {
    hide Step, Reachable, DoWork, After, Met, Busy;
    if n < k {
      RestUsesNone(cfg, s, turns, n, k - 1, m);
      StillBusy(cfg, s, turns, k - 1);
      OneTurn(cfg, s, turns, k - 1, m);
      StaysAfterMark(cfg, Met(cfg, s, turns, k - 1), turns[k - 1].ok, turns[k - 1].answer);
    }
  }

  lemma StaysAfterMark(cfg: Config, s: State, ok: bool, answer: Answer)
    requires AfterMark(s.worker)
    ensures var t := DoWork(cfg, s, ok, answer); t.worker.Idle? || AfterMark(t.worker)
  {
  }

  /** Where the first three statements leave the worker. */
  lemma LookupLeads(cfg: Config, s: State, job: Job, ok: bool, answer: Answer)
    requires s.worker == Popped(job)
    ensures DoWork(cfg, s, ok, answer).worker
            == if ok && job.message < |s.messages| && !M.Dispatched(s.messages[job.message].status)
               then Read(job, s.messages[job.message]) else Idle
  {
  }

  lemma GateLeads(cfg: Config, s: State, job: Job, item: M.Message, ok: bool, answer: Answer)
    requires s.worker == Read(job, item)
    ensures var w := DoWork(cfg, s, ok, answer).worker; var c := item.campaign;
            && (w.Idle? || w == Requeue(job) || w == Admitted(job, item))
            && (w.Admitted? <==>
                  && ok && c < |s.campaigns| && !s.campaigns[c].status.Scheduled? && !s.campaigns[c].status.Paused?
                  && !s.campaigns[c].paused)
  {
  }

  lemma MarkLeads(cfg: Config, s: State, ok: bool, answer: Answer)
    requires s.worker.Admitted? || s.worker.Requeue?
    ensures var w := DoWork(cfg, s, ok, answer).worker; w.Idle? || AfterMark(w)
  {
  }

  /** Whatever the others do between its statements and whichever of them fail, a call of `handleJob` uses one attempt
      of its message if the look-up, the gate and the mark let it, and no attempt of any message otherwise. MaxAttempts,
      next_retry_at, a failed status and cancelled_at play no part. */
  lemma HandlingUsesAttemptIff(cfg: Config, s: State, job: Job, turns: seq<Turn>, m: MessageId)
    requires Reachable(cfg, s) && Handling(cfg, s, job, turns) && m < |s.messages|
    ensures var t := Run(cfg, s, Interleaved(turns));
            && m < |t.messages|
            && t.messages[m].attempts
               == s.messages[m].attempts + A.One(m == job.message && UsesAttempt(cfg, s, job, turns))
  {
    hide Step, Reachable, DoWork, Busy, Run, Interleaved;
    TurnsStart(cfg, s, turns);
    var n := |turns|;
    OneTurn(cfg, s, turns, 0, m);
    LookupLeads(cfg, Met(cfg, s, turns, 0), job, turns[0].ok, turns[0].answer);
    if n == 1 {
      return;
    }
    StillBusy(cfg, s, turns, 1);
    OneTurn(cfg, s, turns, 1, m);
    GateLeads(cfg, Met(cfg, s, turns, 1), job, After(cfg, s, turns, 1).worker.item, turns[1].ok, turns[1].answer);
    if n == 2 {
      return;
    }
    StillBusy(cfg, s, turns, 2);
    OneTurn(cfg, s, turns, 2, m);
    MarkLeads(cfg, Met(cfg, s, turns, 2), turns[2].ok, turns[2].answer);
    RestUsesNone(cfg, s, turns, 3, n, m);
  }

  lemma TurnsStart(cfg: Config, s: State, turns: seq<Turn>)
    ensures After(cfg, s, turns, 0) == s && After(cfg, s, turns, |turns|) == Run(cfg, s, Interleaved(turns))
    ensures !s.worker.Idle? && Run(cfg, s, Interleaved(turns)).worker.Idle? ==> turns != []
  {
    hide Step;
    assert turns[..0] == [] && turns[..|turns|] == turns;
  }

  /** So a call keeps attempt_count within MaxAttempts if and only if it does not use an attempt of a message that has
      used them all: the code makes no such check. */
  lemma HandlingKeepsMaxIff(cfg: Config, s: State, job: Job, turns: seq<Turn>)
    requires Reachable(cfg, s) && Handling(cfg, s, job, turns)
    requires job.message < |s.messages| ==> s.messages[job.message].attempts <= cfg.maxAttempts
    ensures var t := Run(cfg, s, Interleaved(turns)); var m := job.message;
            && m < |s.messages| && m < |t.messages|
            && (t.messages[m].attempts <= cfg.maxAttempts
                <==> !(UsesAttempt(cfg, s, job, turns) && s.messages[m].attempts == cfg.maxAttempts))
  {
    hide Step, UsesAttempt;
    ReachableIsCore(cfg, s);
    HandlingUsesAttemptIff(cfg, s, job, turns, job.message);
    hide Core;
  }

  /** Undisturbed and without a failure: an attempt is used exactly if nothing but the row and the campaign as they are
      stands in the way. */
  lemma UndisturbedUsesAttemptIffOpen(cfg: Config, s: State, job: Job, turns: seq<Turn>)
    requires Reachable(cfg, s) && Handling(cfg, s, job, turns) && job.message < |s.messages|
    requires forall i :: 0 <= i < |turns| ==> turns[i].env == [] && turns[i].ok
    ensures UsesAttempt(cfg, s, job, turns) <==> Open(s, s.messages[job.message])
  {
    hide Step, Reachable, DoWork, Busy, Interleaved;
    TurnsStart(cfg, s, turns);
    assert Met(cfg, s, turns, 0) == s;
    OneTurn(cfg, s, turns, 0, job.message);
    LookupLeads(cfg, s, job, true, turns[0].answer);
    LookupKeepsTables(cfg, s, turns[0].answer);
    if |turns| > 1 {
      StillBusy(cfg, s, turns, 1);
      var read := After(cfg, s, turns, 1);
      assert Met(cfg, s, turns, 1) == read;
      OneTurn(cfg, s, turns, 1, job.message);
      GateLeads(cfg, read, job, read.worker.item, true, turns[1].answer);
    }
  }

  lemma LookupKeepsTables(cfg: Config, s: State, answer: Answer)
    requires s.worker.Popped?
    ensures DoWork(cfg, s, true, answer).campaigns == s.campaigns
  {
  }

  // ----------------------------------------------------- the bound is attained

  /** One message, attempted `a` times, of an open campaign published `p` times and swept `q` times, with `k` jobs in
      the list. */
  ghost predicate Loaded(s: State, k: nat, a: nat, p: nat, q: nat) {
    && |s.messages| == |s.tally| == |s.campaigns| == |s.log| == 1
    && s.messages[0].campaign == 0 && s.messages[0].attempts == a && !M.Dispatched(s.messages[0].status)
    && Awake(s.campaigns[0]) && s.tally[0].sweeps == q
    && s.log[0].createPublishes + s.log[0].releasePublishes == p
    && |s.queue| == k && (forall i :: 0 <= i < k ==> s.queue[i].message == 0) && s.swept == []
  }

  ghost predicate Quiescent(s: State, k: nat, a: nat, p: nat, q: nat) {
    Loaded(s, k, a, p, q) && s.worker.Idle? && s.timers == []
  }

  /** The provider has been asked and says no. */
  lemma HeadIsRejected(cfg: Config, s: State, no: Answer, k: nat, a: nat, p: nat, q: nat) returns (es: seq<Event>)
    requires Quiescent(s, k, a, p, q) && k > 0 && no.Rejected?
    ensures var t := Run(cfg, s, es);
            && Loaded(t, k - 1, a + 1, p, q) && t.timers == []
            && t.worker == Answered(s.queue[0], s.messages[0], no)
    ensures forall i :: 0 <= i < |es| ==> es[i].Work?
  {
    es := HeadReachesProvider(cfg, s, no);
    var sending := Run(cfg, s, es);
    RecalculateStaysAwake(s.campaigns[0], sending.messages, 0);
    ExtendWork(cfg, s, es, no);
    SendRejected(cfg, sending, no, k - 1, a + 1, p, q);
    es := es + [Work(true, no)];
  }

  lemma SendRejected(cfg: Config, s: State, no: Answer, k: nat, a: nat, p: nat, q: nat)
    requires Loaded(s, k, a, p, q) && s.worker.Sending? && no.Rejected? && s.worker.job.message == 0
    requires s.worker.item.campaign == 0
    ensures var t := DoWork(cfg, s, true, no);
            && Loaded(t, k, a, p, q) && t.timers == s.timers
            && t.worker == Answered(s.worker.job, s.worker.item, no)
  {
  }

  /** The last permitted attempt leaves nothing behind. */
  lemma LastAttempt(cfg: Config, s: State, no: Answer, k: nat, a: nat, p: nat, q: nat) returns (es: seq<Event>)
    requires Quiescent(s, k, a, p, q) && k > 0 && no.Rejected? && cfg.maxAttempts <= a + 1
    ensures Quiescent(Run(cfg, s, es), k - 1, a + 1, p, q)
    ensures forall i :: 0 <= i < |es| ==> es[i].Work?
  {
    es := HeadIsRejected(cfg, s, no, k, a, p, q);
    var t := Run(cfg, s, es);
    GivesUp(cfg, t, no, k - 1, a + 1, p, q);
    ExtendWork(cfg, s, es, no);
    ExtendWork(cfg, s, es + [Work(true, no)], no);
    es := es + [Work(true, no)] + [Work(true, no)];
  }

  lemma GivesUp(cfg: Config, s: State, no: Answer, k: nat, a: nat, p: nat, q: nat)
    requires Loaded(s, k, a, p, q) && s.timers == [] && no.Rejected?
    requires s.worker.Answered? && s.worker.answer == no && s.worker.job.message == 0
    requires s.worker.item.campaign == 0 && cfg.maxAttempts <= s.worker.item.attempts + 1
    ensures Quiescent(DoWork(cfg, DoWork(cfg, s, true, no), true, no), k, a, p, q)
  {
    var settled := DoSettle(cfg, s, s.worker.job, s.worker.item, no, true);
    assert settled.worker == Settled(s.worker.job, s.worker.item, false);
    RecalculateStaysAwake(s.campaigns[0], settled.messages, 0);
  }

  /** A retried attempt leaves a timer and a due time. */
  lemma RetriedAttempt(cfg: Config, s: State, no: Answer, k: nat, a: nat, p: nat, q: nat) returns (es: seq<Event>)
    requires Quiescent(s, k, a, p, q) && k > 0 && no.Rejected? && ShouldRetry(cfg, no.error, a + 1)
    ensures var t := Run(cfg, s, es);
            && Loaded(t, k - 1, a + 1, p, q) && t.worker.Idle? && |t.timers| == 1 && t.timers[0].message == 0
            && t.messages[0].status.Pending? && t.messages[0].nextRetryAt == Some(t.clock + cfg.retryDelay)
    ensures forall i :: 0 <= i < |es| ==> es[i].Work?
  {
    hide DoWork, ShouldRetry;
    es := HeadIsRejected(cfg, s, no, k, a, p, q);
    var t := Run(cfg, s, es);
    TriesAgain(cfg, t, no, k - 1, a + 1, p, q);
    ExtendWork(cfg, s, es, no);
    ExtendWork(cfg, s, es + [Work(true, no)], no);
    ExtendWork(cfg, s, es + [Work(true, no)] + [Work(true, no)], no);
    es := es + [Work(true, no)] + [Work(true, no)] + [Work(true, no)];
  }

  lemma TriesAgain(cfg: Config, s: State, no: Answer, k: nat, a: nat, p: nat, q: nat)
    requires Loaded(s, k, a, p, q) && s.timers == [] && no.Rejected?
    requires s.worker.Answered? && s.worker.answer == no && s.worker.job.message == 0
    requires s.worker.item.campaign == 0 && ShouldRetry(cfg, no.error, s.worker.item.attempts + 1)
    ensures var t := DoWork(cfg, DoWork(cfg, DoWork(cfg, s, true, no), true, no), true, no);
            && Loaded(t, k, a, p, q) && t.worker.Idle? && |t.timers| == 1 && t.timers[0].message == 0
            && t.messages[0].status.Pending? && t.messages[0].nextRetryAt == Some(t.clock + cfg.retryDelay)
  {
    var job, item := s.worker.job, s.worker.item;
    var settled := DoSettle(cfg, s, job, item, no, true);
    assert settled.worker == Settled(job, item, true);
    RecalculateStaysAwake(s.campaigns[0], settled.messages, 0);
    var counted := DoRecalculateThen(settled, 0, true, Rearm(job, item));
    assert Loaded(settled, k, a, p, q) && Loaded(counted, k, a, p, q);
  }

  /** The timer brings the job back, when the retry is due. */
  lemma TimerReturns(cfg: Config, batch: int, s: State, k: nat, a: nat, p: nat, q: nat) returns (es: seq<Event>)
    requires Loaded(s, k, a, p, q) && s.worker.Idle? && |s.timers| == 1 && s.timers[0].message == 0
    requires s.messages[0].nextRetryAt == Some(s.clock + cfg.retryDelay)
    ensures es == [Tick(s.messages[0].nextRetryAt.value), FireTimer(0, true)] && Permitted(cfg, batch, s, es)
    ensures var t := Run(cfg, s, es);
            Quiescent(t, k + 1, a, p, q) && t.messages == s.messages && t.campaigns == s.campaigns
  {
    es := [Tick(s.messages[0].nextRetryAt.value), FireTimer(0, true)];
    PairIsPermitted(cfg, batch, s, es[0], es[1]);
    TwoSteps(cfg, s, es[0], es[1]);
  }

  /** The sweeper brings a second job for the same retry. */
  lemma SweeperReturns(cfg: Config, batch: int, s: State, k: nat, a: nat, p: nat, q: nat) returns (es: seq<Event>)
    requires Quiescent(s, k, a, p, q) && s.messages[0].status.Pending? && s.messages[0].nextRetryAt.Some?
    ensures Permitted(cfg, batch, s, es) && Quiescent(Run(cfg, s, es), k + 1, a, p, q + 1)
  {
    hide Step, Permitted;
    var at := s.messages[0].nextRetryAt.value;
    TickIsStep(cfg, s, at);
    FreeIsPermitted(cfg, batch, s, [Tick(at)]);
    var due := Run(cfg, s, [Tick(at)]);
    SweepClaims(cfg, due);
    ClaimIsStep(cfg, due, k, a, p, q);
    OneIsPermitted(cfg, batch, due, ClaimRetries(200, [0]));
    var swept := Run(cfg, due, [ClaimRetries(200, [0])]);
    PushIsStep(cfg, swept, k, a, p, q + 1);
    FreeIsPermitted(cfg, batch, swept, [RequeueSwept(true)]);
    Join(cfg, batch, s, [Tick(at)], [ClaimRetries(200, [0])]);
    Join(cfg, batch, s, [Tick(at)] + [ClaimRetries(200, [0])], [RequeueSwept(true)]);
    es := [Tick(at)] + [ClaimRetries(200, [0])] + [RequeueSwept(true)];
  }

  lemma TickIsStep(cfg: Config, s: State, at: Time)
    ensures Run(cfg, s, [Tick(at)]) == s.(clock := Max(s.clock, at))
  {
    OneStep(cfg, s, Tick(at));
  }

  lemma SweepClaims(cfg: Config, s: State)
    requires |s.messages| == 1 && |s.campaigns| == 1 && s.messages[0].campaign == 0 && Awake(s.campaigns[0])
    requires s.swept == [] && s.messages[0].status.Pending? && s.messages[0].nextRetryAt.Some?
    requires s.messages[0].nextRetryAt.value <= s.clock
    ensures CanClaimRetries(s, 200, [0])
  {
    var due := DueRetries(s.messages, s.campaigns, s.clock);
    assert due.Keys == {0};
    assert |due| == |due.Keys|;
  }

  lemma ClaimIsStep(cfg: Config, s: State, k: nat, a: nat, p: nat, q: nat)
    requires Quiescent(s, k, a, p, q) && CanClaimRetries(s, 200, [0])
    ensures var t := Run(cfg, s, [ClaimRetries(200, [0])]);
            && Loaded(t.(swept := []), k, a, p, q + 1) && t.worker.Idle? && t.timers == []
            && |t.swept| == 1 && t.swept[0].message == 0
  {
    OneStep(cfg, s, ClaimRetries(200, [0]));
  }

  lemma PushIsStep(cfg: Config, s: State, k: nat, a: nat, p: nat, q: nat)
    requires Loaded(s.(swept := []), k, a, p, q) && s.worker.Idle? && s.timers == []
    requires |s.swept| == 1 && s.swept[0].message == 0
    ensures Quiescent(Run(cfg, s, [RequeueSwept(true)]), k + 1, a, p, q)
  {
    OneStep(cfg, s, RequeueSwept(true));
  }

  /** `q` of the remaining retries are pushed twice, all others once. */
  lemma {:induction false} UseRetries(cfg: Config, batch: int, s: State, no: Answer, k: nat, a: nat, p: nat, q: nat,
                                      more: nat)
    returns (es: seq<Event>)
    requires Quiescent(s, k, a, p, q) && k > 0 && a < cfg.maxAttempts
    requires no.Rejected? && !cfg.permanent(no.error) && more <= cfg.maxAttempts - 1 - a
    ensures Permitted(cfg, batch, s, es)
    ensures Quiescent(Run(cfg, s, es), k + more, cfg.maxAttempts - 1, p, q + more)
    decreases cfg.maxAttempts - a
  {
    hide Step, Loaded, Permitted;
    es := [];
    FreeIsPermitted(cfg, batch, s, es);
    if a < cfg.maxAttempts - 1 {
      es := RetriedAttempt(cfg, s, no, k, a, p, q);
      FreeIsPermitted(cfg, batch, s, es);
      var wake := TimerReturns(cfg, batch, Run(cfg, s, es), k - 1, a + 1, p, q);
      Join(cfg, batch, s, es, wake);
      es := es + wake;
      var n := k;
      if more > 0 {
        var sweep := SweeperReturns(cfg, batch, Run(cfg, s, es), k, a + 1, p, q);
        Join(cfg, batch, s, es, sweep);
        es := es + sweep;
        n := k + 1;
      }
      var swept := if more > 0 then 1 else 0;
      var rest := UseRetries(cfg, batch, Run(cfg, s, es), no, n, a + 1, p, q + swept, more - swept);
      Join(cfg, batch, s, es, rest);
      es := es + rest;
    }
  }

  /** Every job that is left uses one more attempt. */
  lemma {:induction false} UseJobs(cfg: Config, s: State, no: Answer, k: nat, a: nat, p: nat, q: nat)
    returns (es: seq<Event>)
    requires Quiescent(s, k, a, p, q) && no.Rejected? && cfg.maxAttempts - 1 <= a
    ensures Quiescent(Run(cfg, s, es), 0, a + k, p, q)
    ensures forall i :: 0 <= i < |es| ==> es[i].Work?
    decreases k
  {
    hide Step, Loaded;
    if k == 0 {
      es := [];
    } else {
      es := LastAttempt(cfg, s, no, k, a, p, q);
      var rest := UseJobs(cfg, Run(cfg, s, es), no, k - 1, a + 1, p, q);
      RunConcat(cfg, s, es, rest);
      es := es + rest;
    }
  }

  /** Publishes of the message's campaign and sweeper claims of the message, over a run from the empty system. */
  ghost predicate Counted(cfg: Config, clock: Time, es: seq<Event>, m: MessageId, p: nat, q: nat) {
    var s := Run(cfg, Init(clock), es);
    && m < |s.messages|
    && var c := s.messages[m].campaign;
       && p == G.Occurrences(cfg, Init(clock), es, (x, e) => G.CreatePublishesNow(x, e, c))
               + G.Occurrences(cfg, Init(clock), es, (x, e) => G.ReleasePublishesNow(x, e, c))
       && q == G.Occurrences(cfg, Init(clock), es, (x, e) => G.SweepsNow(x, e, m))
  }

  lemma PublishedTimes(cfg: Config, batch: int, p: nat) returns (es: seq<Event>)
    requires 1 <= p <= 2
    ensures Permitted(cfg, batch, Init(0), es) && Quiescent(Run(cfg, Init(0), es), p, 0, p, 0)
  {
    hide Permitted;
    if p == 1 {
      es := Twice(batch)[..2];
      CreatedOnce(cfg, batch);
      PublishedOnce(cfg, batch);
      FreeIsPermitted(cfg, batch, Init(0), es);
      TwoSteps(cfg, Init(0), Twice(batch)[0], Twice(batch)[1]);
      assert Twice(batch)[..2] == [Twice(batch)[0], Twice(batch)[1]];
    } else {
      es := Twice(batch);
      PublishedTwice(cfg, batch);
      TwiceIsPermitted(cfg, batch);
    }
  }

  lemma LoadedIsCounted(cfg: Config, es: seq<Event>, k: nat, a: nat, p: nat, q: nat)
    requires Quiescent(Run(cfg, Init(0), es), k, a, p, q)
    ensures Counted(cfg, 0, es, 0, p, q)
  {
    hide Step;
    CoreInit(cfg, 0);
    G.HistoryIsTrace(cfg, Init(0), es, 0, 0);
  }

  /** The bound of AttemptBound is attained by a permitted run for every MaxAttempts, one or two publishes, and any
      number of sweeps up to MaxAttempts-1: retries that the timer and the sweeper both push cost an attempt each. */
  lemma BoundIsAttained(cfg: Config, batch: int, failure: string, p: nat, q: nat) returns (es: seq<Event>)
    requires cfg.maxAttempts >= 1 && !cfg.permanent(failure) && 1 <= p <= 2 && q <= cfg.maxAttempts - 1
    ensures Permitted(cfg, batch, Init(0), es) && Counted(cfg, 0, es, 0, p, q)
    ensures Run(cfg, Init(0), es).messages[0].attempts == p + (cfg.maxAttempts - 1) + q
  {
    hide Step, Permitted;
    var no := Rejected(failure);
    es := PublishedTimes(cfg, batch, p);
    var retries := UseRetries(cfg, batch, Run(cfg, Init(0), es), no, p, 0, p, 0, q);
    Join(cfg, batch, Init(0), es, retries);
    es := es + retries;
    var last := UseJobs(cfg, Run(cfg, Init(0), es), no, p + q, cfg.maxAttempts - 1, p, q);
    ThenWorks(cfg, batch, Init(0), es, last);
    es := es + last;
    LoadedIsCounted(cfg, es, 0, cfg.maxAttempts - 1 + p + q, p, q);
  }

  /** Every permitted run with `p` publishes and `q` sweeps keeps attempt_count within MaxAttempts. */
  ghost predicate MaxHolds(cfg: Config, batch: int, p: nat, q: nat) {
    forall clock, es, m: MessageId :: Counted(cfg, clock, es, m, p, q) && Permitted(cfg, batch, Init(clock), es) ==>
      Run(cfg, Init(clock), es).messages[m].attempts <= cfg.maxAttempts
  }

  /** MaxAttempts is a bound exactly for messages published at most once and never swept. Both numbers can be read off
      a run: how often the campaign was pushed, and how often the sweeper claimed the message. Where it holds, it holds
      of all runs, permitted or not. */
  lemma MaxHoldsIff(cfg: Config, batch: int, failure: string, p: nat, q: nat)
    requires cfg.maxAttempts >= 1 && !cfg.permanent(failure) && 1 <= p <= 2 && q <= cfg.maxAttempts - 1
    ensures MaxHolds(cfg, batch, p, q) <==> p + q <= 1
    ensures p + q <= 1 ==>
              forall clock, es, m: MessageId :: Counted(cfg, clock, es, m, p, q) ==>
                Run(cfg, Init(clock), es).messages[m].attempts <= cfg.maxAttempts
  {
    hide Step, Permitted;
    var worst := BoundIsAttained(cfg, batch, failure, p, q);
    forall clock, es, m: MessageId | Counted(cfg, clock, es, m, p, q)
      ensures Run(cfg, Init(clock), es).messages[m].attempts <= p + (cfg.maxAttempts - 1) + q
    {
      G.AttemptBound(cfg, clock, es, m);
    }
  }

  /** With the worker's own classifier: three attempts allowed, and a message published once is attempted five times. */
  lemma FiveAttemptsOfThree(delay: Time, batch: int) returns (es: seq<Event>)
    ensures var cfg := ConfigFor(3, delay);
            && Permitted(cfg, batch, Init(0), es) && Counted(cfg, 0, es, 0, 1, 2)
            && Run(cfg, Init(0), es).messages[0].attempts == 5
  {
    ShortIsTransient("timeout");
    es := BoundIsAttained(ConfigFor(3, delay), batch, "timeout", 1, 2);
  }
}
