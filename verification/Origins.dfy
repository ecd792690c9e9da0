/** Every column that a message row carries was written by an event of the run that says the same. */
module Origins {
  import opened Basics
  import M = Messages
  import opened Protocol
  import opened Invariants
  import opened CoreSteps
  import opened Interleaving
  import G = Guarantees
  import B = Batches

  /** Some step of the run satisfied `p` in the state it met. */
  ghost predicate Happened(cfg: Config, s: State, es: seq<Event>, p: (State, Event) -> bool) {
    exists k :: 0 <= k < |es| && p(Run(cfg, s, es[..k]), es[k])
  }

  lemma HappenedMore(cfg: Config, s: State, es: seq<Event>, p: (State, Event) -> bool)
    requires es != []
    ensures Happened(cfg, s, es[..|es| - 1], p) ==> Happened(cfg, s, es, p)
    ensures p(Run(cfg, s, es[..|es| - 1]), es[|es| - 1]) ==> Happened(cfg, s, es, p)
  {
    hide Run;
    var before := es[..|es| - 1];
    if Happened(cfg, s, before, p) {
      var k :| 0 <= k < |before| && p(Run(cfg, s, before[..k]), before[k]);
      assert before[..k] == es[..k];
    }
  }

  // ------------------------------------------------------------ what may happen

  /** The worker has the answer of the provider for `m`, and its write is carried out. */
  predicate Writes(x: State, e: Event, m: MessageId, answer: Answer) {
    e.Work? && e.ok && x.worker.Answered? && x.worker.job.message == m && x.worker.answer == answer
  }

  /** MarkMessagePendingRetry: a rejected attempt of `m` is to be repeated at `at`, one delay from now. */
  predicate RetryMarked(cfg: Config, x: State, e: Event, m: MessageId, failure: string, at: Time) {
    && Writes(x, e, m, Rejected(failure)) && at == x.clock + cfg.retryDelay
    && x.worker.item.attempts + 1 < cfg.maxAttempts && !cfg.permanent(failure)
  }

  /** MarkMessageFailed: a rejected attempt of `m` was the last one allowed, or its error is final. */
  predicate GivenUp(cfg: Config, x: State, e: Event, m: MessageId, failure: string, at: Time) {
    && Writes(x, e, m, Rejected(failure)) && at == x.clock
    && (x.worker.item.attempts + 1 >= cfg.maxAttempts || cfg.permanent(failure))
  }

  /** MarkMessageSent. */
  predicate SentMarked(x: State, e: Event, m: MessageId, id: ProviderId, at: Time) {
    Writes(x, e, m, Accepted(id)) && at == x.clock
  }

  /** SendText for `m` succeeds with the id. */
  predicate AcceptedNow(x: State, e: Event, m: MessageId, id: ProviderId) {
    G.SendsNow(x, e, m) && e.answer == Accepted(id)
  }

  // ------------------------------------------------------------------- one step

  /** A column of `m` that changed was written by this step. */
  ghost predicate Written(cfg: Config, x: State, e: Event, m: MessageId, a: M.Message, b: M.Message) {
    && (b.nextRetryAt.Some? ==>
          || (b.nextRetryAt == a.nextRetryAt && b.lastError == a.lastError)
          || (b.lastError.Some? && RetryMarked(cfg, x, e, m, b.lastError.value, b.nextRetryAt.value)))
    && (b.failedAt.Some? ==>
          || (b.failedAt == a.failedAt && b.lastError == a.lastError)
          || (b.lastError.Some? && GivenUp(cfg, x, e, m, b.lastError.value, b.failedAt.value)))
    && (b.sentAt.Some? ==>
          || (b.sentAt == a.sentAt && b.providerId == a.providerId)
          || (b.providerId.Some? && SentMarked(x, e, m, b.providerId.value, b.sentAt.value)))
  }

  lemma WrittenByWork(cfg: Config, x: State, ok: bool, answer: Answer, m: MessageId)
    requires Core(cfg, x) && m < |x.messages|
    ensures var y := DoWork(cfg, x, ok, answer);
            m < |y.messages| && Written(cfg, x, Work(ok, answer), m, x.messages[m], y.messages[m])
  {
    hide Core, Written, DoSettle, DoSend, DoMark, DoLookup, DoGate, DoRearm, DoRecalculate;
    if x.worker.Answered? {
      NotFailedYet(cfg, x);
      WrittenBySettle(cfg, x, x.worker.job, x.worker.item, x.worker.answer, ok, answer, m);
    } else {
      WrittenByOtherWork(cfg, x, ok, answer, m);
    }
  }

  lemma WrittenByOtherWork(cfg: Config, x: State, ok: bool, answer: Answer, m: MessageId)
    requires m < |x.messages| && !x.worker.Answered?
    ensures var y := DoWork(cfg, x, ok, answer);
            m < |y.messages| && Written(cfg, x, Work(ok, answer), m, x.messages[m], y.messages[m])
  {
  }

  /** The message in the provider's hands has not failed. */
  lemma NotFailedYet(cfg: Config, x: State)
    requires Core(cfg, x) && x.worker.Answered?
    ensures x.worker.job.message < |x.messages| && x.messages[x.worker.job.message].failedAt.None?
  {
    assert M.RowOk(x.messages[x.worker.job.message], x.clock);
  }

  lemma WrittenBySettle(cfg: Config, x: State, job: Job, item: M.Message, a: Answer, ok: bool, answer: Answer,
                        m: MessageId)
    requires m < |x.messages| && x.worker == Answered(job, item, a)
    requires job.message < |x.messages| && x.messages[job.message].failedAt.None?
    ensures var y := DoSettle(cfg, x, job, item, a, ok);
            m < |y.messages| && Written(cfg, x, Work(ok, answer), m, x.messages[m], y.messages[m])
  {
  }

  lemma WrittenByStep(cfg: Config, x: State, e: Event, m: MessageId)
    requires Core(cfg, x) && m < |x.messages|
    ensures var y := Step(cfg, x, e); m < |y.messages| && Written(cfg, x, e, m, x.messages[m], y.messages[m])
  {
    hide Core, DoWork, CanClaimDue, CanClaimRetries, ReleaseAll, RetryMarked, GivenUp, SentMarked;
    if e.Work? {
      WrittenByWork(cfg, x, e.ok, e.answer, m);
    }
  }

  /** A new row has none of these columns. */
  lemma NewRowIsBlank(cfg: Config, x: State, e: Event, m: MessageId)
    requires |x.messages| <= m < |Step(cfg, x, e).messages|
    ensures var b := Step(cfg, x, e).messages[m];
            b.nextRetryAt.None? && b.failedAt.None? && b.sentAt.None? && b.providerId.None? && b.lastError.None?
  {
    hide DoWork, CanClaimDue, CanClaimRetries, ReleaseAll;
    if e.Work? {
      WorkAddsNoRow(cfg, x, e.ok, e.answer);
    }
  }

  lemma WorkAddsNoRow(cfg: Config, x: State, ok: bool, answer: Answer)
    ensures |DoWork(cfg, x, ok, answer).messages| == |x.messages|
  {
    hide ShouldRetry;
  }

  /** An accepted answer in the worker's hands was given by the provider just now, or was there before. */
  lemma AnswerIsNew(cfg: Config, x: State, e: Event)
    ensures var w := Step(cfg, x, e).worker;
            w.Answered? && w.answer.Accepted? ==>
              w == x.worker || AcceptedNow(x, e, w.job.message, w.answer.id)
  {
    hide CanClaimDue, CanClaimRetries, ReleaseAll, ReceiveAll, ShouldRetry;
  }

  // --------------------------------------------------------------------- origins

  /** The columns of row `m` tell what happened in the run. */
  ghost predicate Told(cfg: Config, s: State, es: seq<Event>, m: MessageId, row: M.Message) {
    && (row.nextRetryAt.Some? ==>
          && row.lastError.Some?
          && Happened(cfg, s, es, (x, e) => RetryMarked(cfg, x, e, m, row.lastError.value, row.nextRetryAt.value)))
    && (row.failedAt.Some? ==>
          && row.lastError.Some?
          && Happened(cfg, s, es, (x, e) => GivenUp(cfg, x, e, m, row.lastError.value, row.failedAt.value)))
    && (row.sentAt.Some? ==>
          && row.providerId.Some?
          && Happened(cfg, s, es, (x, e) => SentMarked(x, e, m, row.providerId.value, row.sentAt.value)))
    && (row.sentAt.Some? ==>
          row.providerId.Some? && Happened(cfg, s, es, (x, e) => AcceptedNow(x, e, m, row.providerId.value)))
  }

  ghost predicate AnswerTold(cfg: Config, s: State, es: seq<Event>, w: Worker) {
    w.Answered? && w.answer.Accepted? ==>
      Happened(cfg, s, es, (x, e) => AcceptedNow(x, e, w.job.message, w.answer.id))
  }

  lemma AnswerStaysTold(cfg: Config, s: State, es: seq<Event>)
    requires es != [] && AnswerTold(cfg, s, es[..|es| - 1], Run(cfg, s, es[..|es| - 1]).worker)
    ensures AnswerTold(cfg, s, es, Run(cfg, s, es).worker)
  {
    hide Step, Happened;
    var x, w := Run(cfg, s, es[..|es| - 1]), Run(cfg, s, es).worker;
    AnswerIsNew(cfg, x, es[|es| - 1]);
    if w.Answered? && w.answer.Accepted? {
      HappenedMore(cfg, s, es, (x, e) => AcceptedNow(x, e, w.job.message, w.answer.id));
    }
  }

  /** Retries and failures stay told. */
  lemma RejectionsStayTold(cfg: Config, s: State, es: seq<Event>, m: MessageId, a: M.Message, b: M.Message)
    requires es != [] && Told(cfg, s, es[..|es| - 1], m, a)
    requires Written(cfg, Run(cfg, s, es[..|es| - 1]), es[|es| - 1], m, a, b)
    ensures b.nextRetryAt.Some? ==>
              && b.lastError.Some?
              && Happened(cfg, s, es, (x, e) => RetryMarked(cfg, x, e, m, b.lastError.value, b.nextRetryAt.value))
    ensures b.failedAt.Some? ==>
              && b.lastError.Some?
              && Happened(cfg, s, es, (x, e) => GivenUp(cfg, x, e, m, b.lastError.value, b.failedAt.value))
  {
    hide Run, Happened, RetryMarked, GivenUp, SentMarked, AcceptedNow;
    if b.nextRetryAt.Some? {
      HappenedMore(cfg, s, es, (x, e) => RetryMarked(cfg, x, e, m, b.lastError.value, b.nextRetryAt.value));
    }
    if b.failedAt.Some? {
      HappenedMore(cfg, s, es, (x, e) => GivenUp(cfg, x, e, m, b.lastError.value, b.failedAt.value));
    }
  }

  lemma SendsStayTold(cfg: Config, s: State, es: seq<Event>, m: MessageId, a: M.Message, b: M.Message)
    requires es != [] && Told(cfg, s, es[..|es| - 1], m, a)
    requires Written(cfg, Run(cfg, s, es[..|es| - 1]), es[|es| - 1], m, a, b)
    requires AnswerTold(cfg, s, es[..|es| - 1], Run(cfg, s, es[..|es| - 1]).worker)
    ensures b.sentAt.Some? ==>
              && b.providerId.Some?
              && Happened(cfg, s, es, (x, e) => SentMarked(x, e, m, b.providerId.value, b.sentAt.value))
              && Happened(cfg, s, es, (x, e) => AcceptedNow(x, e, m, b.providerId.value))
  {
    hide Run, Happened, RetryMarked, GivenUp, AcceptedNow;
    if b.sentAt.Some? {
      HappenedMore(cfg, s, es, (x, e) => SentMarked(x, e, m, b.providerId.value, b.sentAt.value));
      HappenedMore(cfg, s, es, (x, e) => AcceptedNow(x, e, m, b.providerId.value));
    }
  }

  /** Over every run from the empty system: next_retry_at is one delay after a MarkMessagePendingRetry of the error that
      last_error holds; failed_at is when a MarkMessageFailed wrote last_error; sent_at is when MarkMessageSent wrote
      the provider id, which SendText returned for this very message before. */
  lemma {:induction false} RowsAreTold(cfg: Config, clock: Time, es: seq<Event>, m: MessageId)
    ensures var t := Run(cfg, Init(clock), es);
            && (m < |t.messages| ==> Told(cfg, Init(clock), es, m, t.messages[m]))
            && AnswerTold(cfg, Init(clock), es, t.worker)
  {
    hide Step, Told, Happened, Written, Core;
    if es != [] {
      var before := es[..|es| - 1];
      var x := Run(cfg, Init(clock), before);
      RowsAreTold(cfg, clock, before, m);
      AnswerStaysTold(cfg, Init(clock), es);
      var y := Run(cfg, Init(clock), es);
      CoreInit(cfg, clock);
      CoreAlways(cfg, Init(clock), before);
      if m < |x.messages| {
        WrittenByStep(cfg, x, es[|es| - 1], m);
        StaysTold(cfg, Init(clock), es, m, x.messages[m], y.messages[m]);
      } else if m < |y.messages| {
        NewRowIsBlank(cfg, x, es[|es| - 1], m);
        BlankIsTold(cfg, Init(clock), es, m, y.messages[m]);
      }
    }
  }

  lemma StaysTold(cfg: Config, s: State, es: seq<Event>, m: MessageId, a: M.Message, b: M.Message)
    requires es != [] && Told(cfg, s, es[..|es| - 1], m, a)
    requires Written(cfg, Run(cfg, s, es[..|es| - 1]), es[|es| - 1], m, a, b)
    requires AnswerTold(cfg, s, es[..|es| - 1], Run(cfg, s, es[..|es| - 1]).worker)
    ensures Told(cfg, s, es, m, b)
  {
    RejectionsStayTold(cfg, s, es, m, a, b);
    SendsStayTold(cfg, s, es, m, a, b);
    hide Run, Happened, RetryMarked, GivenUp, AcceptedNow, SentMarked, Written;
  }

  lemma BlankIsTold(cfg: Config, s: State, es: seq<Event>, m: MessageId, row: M.Message)
    requires row.nextRetryAt.None? && row.failedAt.None? && row.sentAt.None?
    ensures Told(cfg, s, es, m, row)
  {
  }

  // -------------------------------------------------------------------- sweeps

  /** The message waits for a retry whose time has come, and its campaign is neither paused nor cancelled. */
  predicate DueRow(s: State, m: MessageId) {
    && m < |s.messages| && s.messages[m].campaign < |s.campaigns|
    && s.messages[m].status.Pending? && s.messages[m].nextRetryAt.Some? && s.messages[m].nextRetryAt.value <= s.clock
    && !s.campaigns[s.messages[m].campaign].paused && s.campaigns[s.messages[m].campaign].cancelledAt.None?
  }

  /** What the sweeper claims is due: pending, with a due time that has come, of a campaign that is neither paused nor
      cancelled. The claim clears the due time, changes nothing else in the row, and makes one job of it. */
  lemma SweepIsDue(cfg: Config, s: State, e: Event, m: MessageId)
    requires Reachable(cfg, s) && G.SweepsNow(s, e, m)
    ensures DueRow(s, m)
    ensures var row, c, t := s.messages[m], s.campaigns[s.messages[m].campaign], Step(cfg, s, e);
            && |t.messages| == |s.messages| && t.messages[m] == row.(nextRetryAt := None)
            && Job(m, row.campaign, c.instance, row.attempts) in t.swept
  {
    ReachableIsCore(cfg, s);
    hide Core, Reachable, Step;
    DueIsPicked(s, e.limit, e.picked, m);
    SweepStep(cfg, s, e.limit, e.picked, m);
  }

  /** Every picked row is due. */
  lemma DueIsPicked(s: State, limit: int, picked: seq<MessageId>, m: MessageId)
    requires CanClaimRetries(s, limit, picked) && m in picked
    ensures DueRow(s, m)
  {
    var i :| 0 <= i < |picked| && picked[i] == m;
    assert picked[i] in DueRetries(s.messages, s.campaigns, s.clock);
  }

  lemma SweepStep(cfg: Config, s: State, limit: int, picked: seq<MessageId>, m: MessageId)
    requires CanClaimRetries(s, limit, picked) && m in picked
    requires m < |s.messages| && s.messages[m].campaign < |s.campaigns|
    ensures var row, c, t := s.messages[m], s.campaigns[s.messages[m].campaign],
                             Step(cfg, s, ClaimRetries(limit, picked));
            && |t.messages| == |s.messages| && t.messages[m] == row.(nextRetryAt := None)
            && Job(m, row.campaign, c.instance, row.attempts) in t.swept
  {
    var i :| 0 <= i < |picked| && picked[i] == m;
    forall j | 0 <= j < |picked| ensures picked[j] in DueRetries(s.messages, s.campaigns, s.clock) {}
    hide CanClaimRetries, DueRetries;
    assert Step(cfg, s, ClaimRetries(limit, picked)).swept[i] == SweptJob(s.messages, s.campaigns, m);
  }

  /** The earliest retries go first: a due retry that the claim leaves behind is due no earlier than any that it takes,
      and it is left behind only by a full batch. */
  lemma SweepInOrder(cfg: Config, s: State, limit: int, picked: seq<MessageId>, m: MessageId, q: MessageId)
    requires Reachable(cfg, s) && G.SweepsNow(s, ClaimRetries(limit, picked), m)
    requires DueRow(s, q) && q !in picked
    ensures m < |s.messages| && s.messages[m].nextRetryAt.Some?
    ensures s.messages[m].nextRetryAt.value <= s.messages[q].nextRetryAt.value
    ensures |picked| == if limit > 0 then limit else 100
  {
    SweepIsDue(cfg, s, ClaimRetries(limit, picked), m);
    hide Reachable;
    var due := DueRetries(s.messages, s.campaigns, s.clock);
    assert q in due;
    var i :| 0 <= i < |picked| && picked[i] == m;
    B.BatchReaches(picked, due, Effective(limit, 100), q);
  }

  /** No sweep is early: over every run, the claim of a message comes at least one delay after the
      MarkMessagePendingRetry that made it due. */
  lemma SweepAfterDelay(cfg: Config, clock: Time, es: seq<Event>, e: Event, m: MessageId) returns (k: nat)
    requires G.SweepsNow(Run(cfg, Init(clock), es), e, m)
    ensures k < |es| && m < |Run(cfg, Init(clock), es).messages|
    ensures var x, s := Run(cfg, Init(clock), es[..k]), Run(cfg, Init(clock), es); var row := s.messages[m];
            && row.lastError.Some? && row.nextRetryAt == Some(x.clock + cfg.retryDelay)
            && RetryMarked(cfg, x, es[k], m, row.lastError.value, row.nextRetryAt.value)
            && x.clock + cfg.retryDelay <= s.clock
  {
    hide Step;
    var s := Run(cfg, Init(clock), es);
    assert Reachable(cfg, s);
    SweepIsDue(cfg, s, e, m);
    RowsAreTold(cfg, clock, es, m);
    var row := s.messages[m];
    k :| 0 <= k < |es|
      && RetryMarked(cfg, Run(cfg, Init(clock), es[..k]), es[k], m, row.lastError.value, row.nextRetryAt.value);
  }
}
