/** What single decisions of the worker leave behind, whatever the others do between its statements. */
module Outcomes {
  import opened Basics
  import M = Messages
  import opened Protocol
  import opened Invariants
  import opened CoreSteps
  import opened Interleaving
  import opened Worker
  import G = Guarantees
  import A = Accounting
  import L = AttemptLimits

  /** The others leave the worker where it is, and its row exists when the statement starts. */
  lemma TurnStarts(cfg: Config, s: State, t: Turn)
    requires Reachable(cfg, s) && Calm(t.env)
    ensures Ready(cfg, s, t) && Reachable(cfg, Turned(cfg, s, t))
    ensures Turned(cfg, s, t) == DoWork(cfg, Run(cfg, s, t.env), t.ok, t.answer)
  {
    hide Step;
    assert Interleaved([]) == [];
    BeforeTurn(cfg, s, [], t);
    TurnedIsReachable(cfg, s, t);
    WorkIsStep(cfg, Run(cfg, s, t.env), t);
  }

  /** The write after a rejection. */
  lemma RejectionIsWritten(cfg: Config, s: State, job: Job, item: M.Message, failure: string, t: Turn)
    requires Reachable(cfg, s) && Calm(t.env) && t.ok && s.worker == Answered(job, item, Rejected(failure))
    ensures var mid := Run(cfg, s, t.env);
            var settled := Turned(cfg, s, t);
            var retry := ShouldRetry(cfg, failure, item.attempts + 1);
            && job.message < |mid.messages| && settled.timers == mid.timers && settled.queue == mid.queue
            && settled.worker == Settled(job, item, retry)
            && settled.messages == mid.messages[job.message :=
                 if retry
                 then mid.messages[job.message].(status := M.Pending, lastError := Some(failure),
                                                 nextRetryAt := Some(mid.clock + cfg.retryDelay))
                 else mid.messages[job.message].(status := M.Failed, lastError := Some(failure),
                                                 nextRetryAt := None, failedAt := Some(mid.clock))]
  {
    hide Step, Reachable, ShouldRetry;
    TurnStarts(cfg, s, t);
  }

  lemma CountIsRenewed(cfg: Config, s: State, job: Job, item: M.Message, retry: bool, t: Turn)
    requires Reachable(cfg, s) && Calm(t.env) && s.worker == Settled(job, item, retry)
    ensures var mid := Run(cfg, s, t.env);
            var counted := Turned(cfg, s, t);
            && counted.worker == (if retry then Rearm(job, item) else Idle)
            && counted.timers == mid.timers && counted.messages == mid.messages && counted.queue == mid.queue
  {
    hide Step, Reachable;
    TurnStarts(cfg, s, t);
  }

  lemma TimerIsArmed(cfg: Config, s: State, job: Job, item: M.Message, t: Turn)
    requires Reachable(cfg, s) && Calm(t.env) && s.worker == Rearm(job, item)
    ensures var mid := Run(cfg, s, t.env);
            var done := Turned(cfg, s, t);
            && done.worker.Idle? && done.timers == mid.timers + [job.(attempt := job.attempt + 1)]
            && done.messages == mid.messages && done.queue == mid.queue
  {
    hide Step, Reachable;
    TurnStarts(cfg, s, t);
  }

  /** What a rejected attempt leaves behind, under any interference, when its write succeeds. A retry is recorded twice:
      as next_retry_at exactly one delay ahead, for the sweeper, and two turns later as a timer with one more attempt.
      A final error leaves a failed row and no timer. */
  lemma RejectedOutcome(cfg: Config, s: State, job: Job, item: M.Message, failure: string, turns: seq<Turn>)
    requires Reachable(cfg, s) && s.worker == Answered(job, item, Rejected(failure))
    requires |turns| == 3 && AllCalm(turns) && turns[0].ok
    ensures var mid := Run(cfg, s, turns[0].env);
            var settled := Turned(cfg, s, turns[0]);
            var counted := Turned(cfg, settled, turns[1]);
            && job.message < |mid.messages| == |settled.messages|
            && if ShouldRetry(cfg, failure, item.attempts + 1) then
                 && settled.messages[job.message]
                    == mid.messages[job.message].(status := M.Pending, lastError := Some(failure),
                                                  nextRetryAt := Some(mid.clock + cfg.retryDelay))
                 && Turned(cfg, counted, turns[2]).worker.Idle?
                 && Turned(cfg, counted, turns[2]).timers
                    == Run(cfg, counted, turns[2].env).timers + [job.(attempt := job.attempt + 1)]
               else
                 && settled.messages[job.message]
                    == mid.messages[job.message].(status := M.Failed, lastError := Some(failure),
                                                  nextRetryAt := None, failedAt := Some(mid.clock))
                 && counted.worker.Idle? && counted.timers == Run(cfg, settled, turns[1].env).timers
  {
    hide Step, Reachable, ShouldRetry;
    RejectionIsWritten(cfg, s, job, item, failure, turns[0]);
    var retry := ShouldRetry(cfg, failure, item.attempts + 1);
    var settled := Turned(cfg, s, turns[0]);
    TurnedIsReachable(cfg, s, turns[0]);
    CountIsRenewed(cfg, settled, job, item, retry, turns[1]);
    TurnedIsReachable(cfg, settled, turns[1]);
    if retry {
      TimerIsArmed(cfg, Turned(cfg, settled, turns[1]), job, item, turns[2]);
    }
  }

  // -------------------------------------------------------------------- pause

  /** A job whose campaign is paused when the worker looks goes to the tail of the list, as it is then, without a change
      to any row. */
  lemma PausedJobRequeued(cfg: Config, s: State, job: Job, item: M.Message, look: Turn, push: Turn)
    requires Reachable(cfg, s) && s.worker == Read(job, item) && Calm(look.env) && Calm(push.env) && look.ok && push.ok
    requires var mid := Run(cfg, s, look.env);
             && item.campaign < |mid.campaigns| && !mid.campaigns[item.campaign].status.Scheduled?
             && (mid.campaigns[item.campaign].paused || mid.campaigns[item.campaign].status.Paused?)
    ensures var looked := Turned(cfg, s, look);
            var later := Run(cfg, looked, push.env);
            var pushed := Turned(cfg, looked, push);
            && looked.messages == Run(cfg, s, look.env).messages && pushed.messages == later.messages
            && pushed.worker.Idle? && pushed.queue == later.queue + [job]
  {
    hide Step, Reachable;
    TurnStarts(cfg, s, look);
    TurnStarts(cfg, Turned(cfg, s, look), push);
  }

  /** MarkMessageProcessing is carried out for a message of `c`. */
  predicate AttemptsFor(s: State, e: Event, c: CampaignId) {
    e.Work? && e.ok && s.worker.Admitted? && s.worker.item.campaign == c
  }

  /** The worker has looked at the campaign row of `c` and let the job through. */
  predicate AdmittedFor(w: Protocol.Worker, c: CampaignId) {
    w.Admitted? && w.item.campaign == c
  }

  lemma PausedAttemptStep(cfg: Config, s: State, e: Event, c: CampaignId)
    requires c < |s.campaigns| && s.campaigns[c].paused && !(e.SetPaused? && e.campaign == c && !e.paused)
    ensures var t := Step(cfg, s, e);
            && c < |t.campaigns| && t.campaigns[c].paused
            && A.One(AttemptsFor(s, e, c)) + A.One(AdmittedFor(t.worker, c)) <= A.One(AdmittedFor(s.worker, c))
  {
    if e.Work? {
      PausedAttemptWork(cfg, s, e.ok, e.answer, c);
    }
  }

  lemma PausedAttemptWork(cfg: Config, s: State, ok: bool, answer: Answer, c: CampaignId)
    requires c < |s.campaigns| && s.campaigns[c].paused
    ensures var t := DoWork(cfg, s, ok, answer);
            && c < |t.campaigns| && t.campaigns[c].paused
            && A.One(AttemptsFor(s, Work(ok, answer), c)) + A.One(AdmittedFor(t.worker, c))
               <= A.One(AdmittedFor(s.worker, c))
  {
    if s.worker.Read? {
      G.PausedGate(s, s.worker.job, s.worker.item, ok, c);
    }
  }

  /** attempt_count added up over the rows of `c`. */
  function Used(ms: seq<M.Message>, c: CampaignId): nat {
    if ms == [] then 0
    else Used(ms[..|ms| - 1], c) + (if ms[|ms| - 1].campaign == c then ms[|ms| - 1].attempts else 0)
  }

  /** `b` is `a` with an attempt more in row `k` when `marked`, and further rows that were never attempted. */
  ghost predicate MarkedOnce(a: seq<M.Message>, b: seq<M.Message>, marked: bool, k: nat) {
    && |a| <= |b|
    && (forall m :: 0 <= m < |a| ==>
          b[m].campaign == a[m].campaign && b[m].attempts == a[m].attempts + A.One(marked && m == k))
    && (forall m :: |a| <= m < |b| ==> b[m].attempts == 0)
  }

  lemma {:induction false} UsedGrows(a: seq<M.Message>, b: seq<M.Message>, marked: bool, k: nat, c: CampaignId)
    requires MarkedOnce(a, b, marked, k)
    ensures Used(b, c) == Used(a, c) + A.One(marked && k < |a| && a[k].campaign == c)
    decreases |b|
  {
    if |a| < |b| {
      UsedGrows(a, b[..|b| - 1], marked, k, c);
    } else if b != [] {
      UsedGrows(a[..|a| - 1], b[..|b| - 1], marked, k, c);
    }
  }

  /** No step moves a row to another campaign, and new rows were never attempted. */
  lemma RowsAreAdded(cfg: Config, s: State, e: Event)
    ensures var a := s.messages;
            var b := Step(cfg, s, e).messages;
            && |a| <= |b| && (forall m :: 0 <= m < |a| ==> b[m].campaign == a[m].campaign)
            && (forall m :: |a| <= m < |b| ==> b[m].attempts == 0)
  {
    if e.Work? {
      WorkKeepsRows(cfg, s, e.ok, e.answer);
    }
  }

  lemma WorkKeepsRows(cfg: Config, s: State, ok: bool, answer: Answer)
    ensures var t := DoWork(cfg, s, ok, answer);
            && |t.messages| == |s.messages|
            && forall m :: 0 <= m < |s.messages| ==> t.messages[m].campaign == s.messages[m].campaign
  {
    hide ShouldRetry;
  }

  lemma UsedStep(cfg: Config, s: State, e: Event, c: CampaignId)
    requires Core(cfg, s)
    ensures Used(Step(cfg, s, e).messages, c) == Used(s.messages, c) + A.One(AttemptsFor(s, e, c))
  {
    var t := Step(cfg, s, e);
    var marked := e.Work? && e.ok && s.worker.Admitted?;
    var k := if s.worker.Admitted? then s.worker.job.message else 0;
    if s.worker.Admitted? {
      assert k < |s.messages| && s.messages[k].campaign == s.worker.item.campaign;
    }
    hide Step, Core;
    RowsAreAdded(cfg, s, e);
    forall m | 0 <= m < |s.messages|
      ensures t.messages[m].attempts == s.messages[m].attempts + A.One(marked && m == k)
    {
      L.AttemptsStep(cfg, s, e, m);
    }
    UsedGrows(s.messages, t.messages, marked, k, c);
  }

  /** From a pause until the next resume the messages of the campaign use at most one attempt, and only if the worker
      had already let a job of it through. */
  lemma {:induction false} PausedAttempts(cfg: Config, s: State, es: seq<Event>, c: CampaignId)
    requires Core(cfg, s) && c < |s.campaigns| && s.campaigns[c].paused
    requires forall i :: 0 <= i < |es| ==> !(es[i].SetPaused? && es[i].campaign == c && !es[i].paused)
    ensures var t := Run(cfg, s, es);
            && Core(cfg, t) && c < |t.campaigns| && t.campaigns[c].paused
            && Used(t.messages, c) + A.One(AdmittedFor(t.worker, c))
               <= Used(s.messages, c) + A.One(AdmittedFor(s.worker, c))
  {
    hide Step, Core;
    if es != [] {
      var before := es[..|es| - 1];
      PausedAttempts(cfg, s, before, c);
      PausedAttemptStep(cfg, Run(cfg, s, before), es[|es| - 1], c);
      UsedStep(cfg, Run(cfg, s, before), es[|es| - 1], c);
      KeepStep(cfg, Run(cfg, s, before), es[|es| - 1]);
    }
  }
}
