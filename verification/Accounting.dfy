/** How often a message is handed to the provider, and how often it may be attempted. */
module Accounting {
  import opened Basics
  import M = Messages
  import opened Protocol
  import opened Invariants
  import opened CoreSteps

  // ------------------------------------------------------------------- sends

  /** The provider has accepted `m` and MarkMessageSent has not run yet. */
  predicate Window(w: Worker, m: MessageId) {
    w.Answered? && w.answer.Accepted? && w.job.message == m
  }

  function One(b: bool): nat {
    if b then 1 else 0
  }

  predicate SendOk(row: M.Message, t: Tally, window: bool) {
    t.sends == One(M.Dispatched(row.status)) + t.lost + One(window) && (row.attempts == 0 ==> t.lost == 0)
  }

  /** Every accepted send is visible in the row, lost with its MarkMessageSent, or about to be written. */
  ghost predicate SendsOk(ms: seq<M.Message>, ts: seq<Tally>, w: Worker)
    requires |ms| == |ts|
  {
    forall m :: 0 <= m < |ms| ==> SendOk(ms[m], ts[m], Window(w, m))
  }

  lemma SendsCreate(cfg: Config, s: State, instance: InstanceId, at: Option<Time>, n: nat)
    requires Core(cfg, s) && SendsOk(s.messages, s.tally, s.worker)
    ensures var t := DoCreate(s, instance, at, n); |t.messages| == |t.tally| && SendsOk(t.messages, t.tally, t.worker)
  {
  }

  lemma SendsClaimRetries(s: State, limit: int, picked: seq<MessageId>)
    requires |s.messages| == |s.tally| && SendsOk(s.messages, s.tally, s.worker)
    ensures var t := DoClaimRetries(s, limit, picked);
            && |t.messages| == |t.tally|
            && SendsOk(t.messages, t.tally, t.worker)
  {
  }

  lemma SendsTrackMark(cfg: Config, s: State, k: nat, ok: bool)
    requires Core(cfg, s) && SendsOk(s.messages, s.tally, s.worker)
    ensures var t := DoTrackMark(s, k, ok); |t.messages| == |t.tally| && SendsOk(t.messages, t.tally, t.worker)
  {
  }

  lemma SendsCrash(cfg: Config, s: State)
    requires Core(cfg, s) && SendsOk(s.messages, s.tally, s.worker)
    ensures var t := DoCrash(s); |t.messages| == |t.tally| && SendsOk(t.messages, t.tally, t.worker)
  {
  }

  /** A program counter outside the window sends nothing. */
  lemma SendsWorker(cfg: Config, s: State, w: Worker)
    requires Core(cfg, s) && SendsOk(s.messages, s.tally, s.worker) && !s.worker.Answered? && !w.Answered?
    ensures SendsOk(s.messages, s.tally, w)
  {
  }

  lemma SendsMark(cfg: Config, s: State, job: Job, item: M.Message, ok: bool)
    requires Core(cfg, s) && SendsOk(s.messages, s.tally, s.worker) && s.worker == Admitted(job, item)
    ensures var t := DoMark(s, job, item, ok); |t.messages| == |t.tally| && SendsOk(t.messages, t.tally, t.worker)
  {
  }

  lemma SendsSend(cfg: Config, s: State, job: Job, item: M.Message, answer: Answer)
    requires Core(cfg, s) && SendsOk(s.messages, s.tally, s.worker) && s.worker == Sending(job, item)
    ensures var t := DoSend(s, job, item, answer); |t.messages| == |t.tally| && SendsOk(t.messages, t.tally, t.worker)
  {
  }

  lemma SendsSettle(cfg: Config, s: State, job: Job, item: M.Message, a: Answer, ok: bool)
    requires Core(cfg, s) && SendsOk(s.messages, s.tally, s.worker) && s.worker == Answered(job, item, a)
    ensures var t := DoSettle(cfg, s, job, item, a, ok);
            && |t.messages| == |t.tally|
            && SendsOk(t.messages, t.tally, t.worker)
  {
  }

  lemma SendsRearm(s: State, job: Job)
    requires |s.messages| == |s.tally| && SendsOk(s.messages, s.tally, s.worker) && s.worker.Rearm?
    ensures var t := DoRearm(s, job); |t.messages| == |t.tally| && SendsOk(t.messages, t.tally, t.worker)
  {
  }

  // ---------------------------------------------------------------- attempts

  /** How many of the jobs are for message `m`. */
  function Copies(jobs: seq<Job>, m: MessageId): nat {
    if jobs == [] then 0
    else Copies(jobs[..|jobs| - 1], m) + One(jobs[|jobs| - 1].message == m)
  }

  lemma {:induction false} CopiesConcat(a: seq<Job>, b: seq<Job>, m: MessageId)
    ensures Copies(a + b, m) == Copies(a, m) + Copies(b, m)
  {
    if b == [] {
      assert a + b == a;
    } else {
      CopiesConcat(a, b[..|b| - 1], m);
      assert (a + b)[..|a + b| - 1] == a + b[..|b| - 1];
    }
  }

  lemma {:induction false} CopiesOfDistinct(jobs: seq<Job>, m: MessageId)
    requires Distinct(MessagesOf(jobs))
    ensures Copies(jobs, m) == One(m in MessagesOf(jobs))
  {
    if jobs != [] {
      var n := |jobs| - 1;
      assert MessagesOf(jobs) == MessagesOf(jobs[..n]) + [jobs[n].message];
      forall i, j | 0 <= i < j < n ensures MessagesOf(jobs[..n])[i] != MessagesOf(jobs[..n])[j] {
        assert MessagesOf(jobs)[i] != MessagesOf(jobs)[j];
      }
      CopiesOfDistinct(jobs[..n], m);
      if m in MessagesOf(jobs[..n]) {
        var i :| 0 <= i < n && MessagesOf(jobs[..n])[i] == m;
        assert MessagesOf(jobs)[i] != MessagesOf(jobs)[n];
      }
    }
  }

  /** Publishing `c` adds one copy of each of its messages. */
  lemma CopiesOfBatch(d: Directory, c: CampaignId, jobs: seq<Job>, m: MessageId)
    requires Covers(d, c, jobs) && m < |d.owner|
    ensures Copies(jobs, m) == One(d.owner[m] == c)
  {
    CopiesOfDistinct(jobs, m);
    if m in MessagesOf(jobs) {
      var i :| 0 <= i < |jobs| && MessagesOf(jobs)[i] == m;
      assert RefersTo(d, jobs[i]);
    }
  }

  function Retries(cfg: Config): nat {
    Max(0, cfg.maxAttempts - 1)
  }

  function Publishes(l: Log): nat {
    l.createPublishes + l.releasePublishes
  }

  predicate AttemptOk(cfg: Config, row: M.Message, t: Tally, publishes: nat, copies: nat, w: Worker, m: MessageId) {
    var mine := !w.Idle? && w.job.message == m;
    && row.attempts + copies + One(mine && BeforeMark(w)) <= publishes + t.rearms + t.sweeps
    && t.rearms <= Retries(cfg) && t.rearms + One(mine && AfterMark(w)) <= row.attempts
    && t.retryMarks <= Retries(cfg) && t.retryMarks + One(mine && InFlight(w)) <= row.attempts
    && t.sweeps + One(row.nextRetryAt.Some?) <= t.retryMarks
  }

  /** Copies of `m` in the queue, in the timers and with the sweeper. */
  function AllCopies(queue: seq<Job>, timers: seq<Job>, swept: seq<Job>, m: MessageId): nat {
    Copies(queue, m) + Copies(timers, m) + Copies(swept, m)
  }

  ghost predicate Attempts(cfg: Config, ms: seq<M.Message>, ts: seq<Tally>, log: seq<Log>,
                           queue: seq<Job>, timers: seq<Job>, swept: seq<Job>, w: Worker) {
    forall m :: 0 <= m < |ms| && m < |ts| && ms[m].campaign < |log| ==>
      AttemptOk(cfg, ms[m], ts[m], Publishes(log[ms[m].campaign]), AllCopies(queue, timers, swept, m), w, m)
  }

  ghost predicate AttemptsOk(cfg: Config, s: State) {
    Attempts(cfg, s.messages, s.tally, s.log, s.queue, s.timers, s.swept, s.worker)
  }

  ghost predicate Given(cfg: Config, s: State) {
    Core(cfg, s) && AttemptsOk(cfg, s)
  }

  lemma AttemptsCreate(cfg: Config, s: State, instance: InstanceId, at: Option<Time>, n: nat)
    requires Given(cfg, s)
    ensures AttemptsOk(cfg, DoCreate(s, instance, at, n))
  {
    var t := DoCreate(s, instance, at, n);
    forall m | |s.messages| <= m < |t.messages| ensures AllCopies(t.queue, t.timers, t.swept, m) == 0 {
      NoCopies(Dir(s), Live(s.log), s.queue, m);
      NoCopies(Dir(s), Live(s.log), s.timers, m);
      NoCopies(Dir(s), Live(s.log), s.swept, m);
    }
  }

  lemma {:induction false} NoCopies(d: Directory, live: set<CampaignId>, jobs: seq<Job>, m: MessageId)
    requires JobsOk(d, live, jobs) && (m >= |d.owner| || d.owner[m] !in live)
    ensures Copies(jobs, m) == 0
  {
    if jobs != [] {
      NoCopies(d, live, jobs[..|jobs| - 1], m);
      assert JobOk(d, live, jobs[|jobs| - 1]);
    }
  }

  lemma AttemptsPublish(cfg: Config, s: State, c: CampaignId, jobs: seq<Job>, l: Log)
    requires Given(cfg, s) && c < |s.log| && Covers(Dir(s), c, jobs) && Publishes(l) == Publishes(s.log[c]) + 1
    ensures AttemptsOk(cfg, s.(queue := s.queue + jobs, log := s.log[c := l]))
  {
    forall m | 0 <= m < |s.messages|
      ensures Copies(s.queue + jobs, m) == Copies(s.queue, m) + One(s.messages[m].campaign == c)
    {
      CopiesConcat(s.queue, jobs, m);
      CopiesOfBatch(Dir(s), c, jobs, m);
    }
  }

  /** Moving one job from `from` to the queue tail, or losing it, creates no copy. */
  lemma CopiesMoved(q: seq<Job>, before: seq<Job>, j: Job, after: seq<Job>, m: MessageId)
    ensures Copies(before + [j] + after, m) == Copies(before + after, m) + One(j.message == m)
    ensures Copies(q + [j], m) == Copies(q, m) + One(j.message == m)
    ensures Copies([j] + after, m) == Copies(after, m) + One(j.message == m)
  {
    CopiesConcat(before + [j], after, m);
    CopiesConcat(before, [j], m);
    CopiesConcat(before, after, m);
    CopiesConcat([j], after, m);
    CopiesConcat(q, [j], m);
    assert Copies([j], m) == One(j.message == m) by {
      assert [j][..0] == [];
    }
  }

  /** Fewer copies need fewer tokens. */
  lemma AttemptsFewer(cfg: Config, s: State, queue: seq<Job>, timers: seq<Job>, swept: seq<Job>)
    requires AttemptsOk(cfg, s)
    requires forall m :: 0 <= m < |s.messages| ==>
               AllCopies(queue, timers, swept, m) <= AllCopies(s.queue, s.timers, s.swept, m)
    ensures AttemptsOk(cfg, s.(queue := queue, timers := timers, swept := swept))
  {
  }

  lemma AttemptsFireTimer(cfg: Config, s: State, i: nat, ok: bool)
    requires Given(cfg, s)
    ensures AttemptsOk(cfg, DoFireTimer(s, i, ok))
  {
    hide Core, AttemptOk;
    if i < |s.timers| {
      var a, j, b := s.timers[..i], s.timers[i], s.timers[i + 1..];
      assert s.timers == a + [j] + b;
      var t := DoFireTimer(s, i, ok);
      forall m | 0 <= m < |s.messages|
        ensures AllCopies(t.queue, t.timers, t.swept, m) <= AllCopies(s.queue, s.timers, s.swept, m)
      {
        CopiesMoved(s.queue, a, j, b, m);
      }
      AttemptsFewer(cfg, s, t.queue, t.timers, t.swept);
    }
  }

  lemma AttemptsRequeueSwept(cfg: Config, s: State, ok: bool)
    requires Given(cfg, s)
    ensures AttemptsOk(cfg, DoRequeueSwept(s, ok))
  {
    hide Core, AttemptOk;
    if s.swept != [] {
      var j, b := s.swept[0], s.swept[1..];
      assert s.swept == [j] + b;
      var t := DoRequeueSwept(s, ok);
      forall m | 0 <= m < |s.messages|
        ensures AllCopies(t.queue, t.timers, t.swept, m) <= AllCopies(s.queue, s.timers, s.swept, m)
      {
        CopiesMoved(s.queue, [], j, b, m);
      }
      AttemptsFewer(cfg, s, t.queue, t.timers, t.swept);
    }
  }

  lemma AttemptsClaimRetries(cfg: Config, s: State, limit: int, picked: seq<MessageId>)
    requires AttemptsOk(cfg, s) && |s.tally| == |s.messages|
    ensures AttemptsOk(cfg, DoClaimRetries(s, limit, picked))
  {
    if CanClaimRetries(s, limit, picked) {
      forall m | m in picked
        ensures m < |s.messages| && s.messages[m].nextRetryAt.Some? && s.messages[m].campaign < |s.campaigns|
      {
        PickedIsDue(s, picked, limit, m);
      }
      var jobs := SweptJobs(s, picked);
      assert MessagesOf(jobs) == picked;
      forall m | 0 <= m < |s.messages|
        ensures AllCopies(s.queue, s.timers, jobs, m) == AllCopies(s.queue, s.timers, s.swept, m) + One(m in picked)
      {
        CopiesOfDistinct(jobs, m);
      }
      AttemptsSweep(cfg, s, picked, jobs);
    }
  }

  /** Clearing next_retry_at pays for the swept copy. */
  lemma AttemptsSweep(cfg: Config, s: State, picked: seq<MessageId>, jobs: seq<Job>)
    requires AttemptsOk(cfg, s) && |s.tally| == |s.messages|
    requires forall m :: m in picked ==> m < |s.messages| && s.messages[m].nextRetryAt.Some?
    requires forall m :: 0 <= m < |s.messages| ==>
               AllCopies(s.queue, s.timers, jobs, m) == AllCopies(s.queue, s.timers, s.swept, m) + One(m in picked)
    ensures Attempts(cfg, Sweep(s.messages, picked), CountSweep(s.tally, picked), s.log, s.queue, s.timers, jobs,
                     s.worker)
  {
  }

  lemma AttemptsPop(cfg: Config, s: State, ok: bool)
    requires AttemptsOk(cfg, s) && s.worker.Idle?
    ensures AttemptsOk(cfg, DoPop(s, ok))
  {
    if ok && s.queue != [] {
      var j, b := s.queue[0], s.queue[1..];
      assert s.queue == [j] + b;
      forall m | 0 <= m < |s.messages|
        ensures AllCopies(s.queue, s.timers, s.swept, m) == AllCopies(b, s.timers, s.swept, m) + One(j.message == m)
      {
        CopiesMoved([], [], j, b, m);
      }
    }
  }

  lemma AttemptsRequeue(cfg: Config, s: State, job: Job, ok: bool)
    requires AttemptsOk(cfg, s) && s.worker == Requeue(job)
    ensures AttemptsOk(cfg, DoRequeue(s, job, ok))
  {
    forall m | 0 <= m < |s.messages|
      ensures AllCopies(s.queue + [job], s.timers, s.swept, m)
              == AllCopies(s.queue, s.timers, s.swept, m) + One(job.message == m)
    {
      CopiesMoved(s.queue, [], job, [], m);
    }
  }

  lemma AttemptsRearm(cfg: Config, s: State, job: Job)
    requires Given(cfg, s) && s.worker.Rearm? && s.worker.job == job
    ensures AttemptsOk(cfg, DoRearm(s, job))
  {
    hide DirOk, JobsOk, RowsOk, CampaignsOk, ProvidersOk, QuietOk, ClaimsOk, PublishesOk, AnswerOk, Copies;
    var j := job.(attempt := job.attempt + 1);
    forall m | 0 <= m < |s.messages| ensures Copies(s.timers + [j], m) == Copies(s.timers, m) + One(job.message == m) {
      CopiesMoved(s.timers, [], j, [], m);
    }
  }

  /** A program counter that only moves forward makes no token appear. */
  lemma AttemptsWorker(cfg: Config, s: State, w: Worker)
    requires AttemptsOk(cfg, s) && !s.worker.Idle?
    requires w.Idle? || w.job == s.worker.job
    requires BeforeMark(w) ==> BeforeMark(s.worker)
    requires AfterMark(w) ==> AfterMark(s.worker)
    requires InFlight(w) ==> InFlight(s.worker)
    ensures AttemptsOk(cfg, s.(worker := w))
  {
    hide AllCopies, Copies;
  }

  /** A write to the worker's own row, its history and its program counter. */
  lemma AttemptsWrite(cfg: Config, s: State, m: MessageId, row: M.Message, t: Tally, w: Worker)
    requires AttemptsOk(cfg, s) && !s.worker.Idle? && s.worker.job.message == m && (w.Idle? || w.job.message == m)
    requires m < |s.messages| && m < |s.tally| && row.campaign == s.messages[m].campaign && row.campaign < |s.log|
    requires AttemptOk(cfg, row, t, Publishes(s.log[row.campaign]), AllCopies(s.queue, s.timers, s.swept, m), w, m)
    ensures AttemptsOk(cfg, s.(messages := s.messages[m := row], tally := s.tally[m := t], worker := w))
  {
    hide AllCopies, Copies;
  }

  lemma AttemptsMark(cfg: Config, s: State, job: Job, item: M.Message, ok: bool)
    requires Given(cfg, s) && s.worker == Admitted(job, item)
    ensures AttemptsOk(cfg, DoMark(s, job, item, ok))
  {
    hide AllCopies, Copies;
    if ok {
      var m := job.message;
      assert s.tally[m := s.tally[m]] == s.tally;
      AttemptsWrite(cfg, s, m, M.MarkProcessing(s.messages[m]), s.tally[m], Marked(job, item));
    } else {
      AttemptsWorker(cfg, s, Idle);
    }
  }

  lemma AttemptsSend(cfg: Config, s: State, job: Job, item: M.Message, answer: Answer)
    requires AttemptsOk(cfg, s) && s.worker == Sending(job, item)
    ensures AttemptsOk(cfg, DoSend(s, job, item, answer))
  {
    hide AllCopies, Copies;
  }

  lemma SettleIndices(cfg: Config, s: State)
    requires Core(cfg, s) && s.worker.Answered?
    ensures s.worker.job.message < |s.messages| == |s.tally| && s.messages[s.worker.job.message].campaign < |s.log|
  {
    assert Dir(s).owner[s.worker.job.message] == s.messages[s.worker.job.message].campaign;
  }

  lemma AttemptsSettle(cfg: Config, s: State, job: Job, item: M.Message, a: Answer, ok: bool)
    requires Given(cfg, s) && s.worker == Answered(job, item, a)
    ensures AttemptsOk(cfg, DoSettle(cfg, s, job, item, a, ok))
  {
    hide AllCopies, Copies;
    SettleIndices(cfg, s);
    hide Core, AttemptOk;
    var m, t := job.message, DoSettle(cfg, s, job, item, a, ok);
    assert t.messages == s.messages[m := t.messages[m]] && t.tally == s.tally[m := t.tally[m]];
    SettleOwnRow(cfg, s, job, item, a, ok);
    AttemptsWrite(cfg, s, m, t.messages[m], t.tally[m], t.worker);
  }

  lemma SettleOwnRow(cfg: Config, s: State, job: Job, item: M.Message, a: Answer, ok: bool)
    requires Given(cfg, s) && s.worker == Answered(job, item, a)
    ensures var t := DoSettle(cfg, s, job, item, a, ok); var m := job.message;
            AttemptOk(cfg, t.messages[m], t.tally[m], Publishes(s.log[s.messages[m].campaign]),
                      AllCopies(s.queue, s.timers, s.swept, m), t.worker, m)
  {
    hide AllCopies, Copies;
  }

  lemma AttemptsRecalculateThen(cfg: Config, s: State, c: CampaignId, ok: bool, w: Worker)
    requires AttemptsOk(cfg, s) && !s.worker.Idle?
    requires w.Idle?
             || (w.job == s.worker.job && !BeforeMark(w) && AfterMark(s.worker) && (InFlight(w) ==> InFlight(s.worker)))
    ensures AttemptsOk(cfg, DoRecalculateThen(s, c, ok, w))
  {
    AttemptsWorker(cfg, s, w);
  }

  lemma AttemptsCrash(cfg: Config, s: State)
    requires Given(cfg, s)
    ensures AttemptsOk(cfg, DoCrash(s))
  {
    assert forall m :: Copies([], m) == 0;
  }

  lemma AttemptsTrackMark(cfg: Config, s: State, t: nat, ok: bool)
    requires Given(cfg, s)
    ensures AttemptsOk(cfg, DoTrackMark(s, t, ok))
  {
  }
}
