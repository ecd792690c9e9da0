/** The invariants together, and what they say about every run. */
module Invariance {
  import opened Basics
  import M = Messages
  import C = Campaigns
  import opened Protocol
  import opened Invariants
  import opened CoreSteps
  import A = Accounting
  import K = Counters

  ghost predicate Books(cfg: Config, s: State) {
    && |s.messages| == |s.tally| && A.SendsOk(s.messages, s.tally, s.worker)
    && A.Attempts(cfg, s.messages, s.tally, s.log, s.queue, s.timers, s.swept, s.worker)
    && K.CountersOk(s.campaigns, s.messages, s.worker, s.tracks, s.stale)
  }

  ghost predicate Inv(cfg: Config, s: State) {
    Core(cfg, s) && Books(cfg, s)
  }

  lemma BooksCampaignRow(cfg: Config, s: State, c: CampaignId, row: C.Campaign)
    requires Inv(cfg, s) && c < |s.campaigns|
    requires row.counts == s.campaigns[c].counts && row.total == s.campaigns[c].total
    ensures Books(cfg, SetCampaign(s, c, row))
  {
    K.CountersCampaignRow(cfg, s, c, row);
  }

  lemma BooksPublishCreated(cfg: Config, s: State, c: CampaignId, ok: bool)
    requires Inv(cfg, s)
    ensures Books(cfg, DoPublishCreated(s, c, ok))
  {
    hide A.AttemptOk, K.CounterOk, A.SendOk;
    if c in s.creating && ok {
      var jobs := CreatedJobs(s, c);
      var l := s.log[c].(createPublishes := s.log[c].createPublishes + 1, batch := MessagesOf(jobs));
      CreatedJobsRefer(s, c);
      A.AttemptsPublish(cfg, s, c, jobs, l);
    }
  }

  lemma BooksPublishClaimed(cfg: Config, s: State, ok: bool)
    requires Inv(cfg, s)
    ensures Books(cfg, DoPublishClaimed(s, ok))
  {
    hide A.AttemptOk, K.CounterOk, A.SendOk;
    if s.scheduler.Publishing? && ok {
      var h := s.scheduler.claims[0];
      var l := s.log[h.campaign];
      A.AttemptsPublish(cfg, s, h.campaign, h.jobs,
                        l.(releasePublishes := l.releasePublishes + 1, batch := MessagesOf(h.jobs)));
    }
  }

  lemma BooksCreate(cfg: Config, s: State, instance: InstanceId, at: Option<Time>, n: nat)
    requires Inv(cfg, s)
    ensures Books(cfg, DoCreate(s, instance, at, n))
  {
    A.SendsCreate(cfg, s, instance, at, n);
    A.AttemptsCreate(cfg, s, instance, at, n);
    K.CountersCreate(cfg, s, instance, at, n);
  }

  lemma BooksClaimDue(cfg: Config, s: State, batchSize: int, claims: seq<Claimed>)
    requires Inv(cfg, s)
    ensures Books(cfg, DoClaimDue(s, batchSize, claims))
  {
    hide Core;
    CountersClaimDue(cfg, s, batchSize, claims);
  }

  lemma CountersClaimDue(cfg: Config, s: State, batchSize: int, claims: seq<Claimed>)
    requires Books(cfg, s)
    ensures var t := DoClaimDue(s, batchSize, claims);
            K.CountersOk(t.campaigns, t.messages, t.worker, t.tracks, t.stale)
  {
    var t := DoClaimDue(s, batchSize, claims);
    forall c | 0 <= c < |t.campaigns| ensures K.CounterOk(t.campaigns[c], t.messages, t.worker, t.tracks, t.stale, c) {
      assert K.CounterOk(s.campaigns[c], s.messages, s.worker, s.tracks, s.stale, c);
    }
  }

  lemma BooksRevert(cfg: Config, s: State, ok: bool)
    requires Inv(cfg, s)
    ensures Books(cfg, DoRevert(s, ok))
  {
    if s.scheduler.Reverting? && ok {
      BooksCampaignRow(cfg, s, s.scheduler.campaign, C.Revert(s.campaigns[s.scheduler.campaign]));
    }
  }

  lemma BooksTick(cfg: Config, s: State, to: Time)
    requires Inv(cfg, s)
    ensures Books(cfg, s.(clock := Max(s.clock, to)))
  {
  }

  lemma BooksRecalculate(cfg: Config, s: State, c: CampaignId)
    requires Inv(cfg, s)
    ensures Books(cfg, DoRecalculate(s, c, true))
  {
    K.CountersRecalculate(cfg, s, c, true);
  }

  lemma BooksClaimRetries(cfg: Config, s: State, limit: int, picked: seq<MessageId>)
    requires Inv(cfg, s)
    ensures Books(cfg, DoClaimRetries(s, limit, picked))
  {
    A.SendsClaimRetries(s, limit, picked);
    A.AttemptsClaimRetries(cfg, s, limit, picked);
    K.CountersClaimRetries(cfg, s, limit, picked);
  }

  lemma BooksRequeueSwept(cfg: Config, s: State, ok: bool)
    requires Inv(cfg, s)
    ensures Books(cfg, DoRequeueSwept(s, ok))
  {
    A.AttemptsRequeueSwept(cfg, s, ok);
  }

  lemma BooksFireTimer(cfg: Config, s: State, i: nat, ok: bool)
    requires Inv(cfg, s)
    ensures Books(cfg, DoFireTimer(s, i, ok))
  {
    A.AttemptsFireTimer(cfg, s, i, ok);
  }

  lemma BooksTrackStart(cfg: Config, s: State, receipt: Receipt, ids: seq<ProviderId>)
    requires Inv(cfg, s)
    ensures Books(cfg, s.(tracks := s.tracks + [Track(receipt, ids, {})]))
  {
    K.CountersTrackStart(cfg, s, receipt, ids);
  }

  lemma BooksTrackMark(cfg: Config, s: State, t: nat, ok: bool)
    requires Inv(cfg, s)
    ensures Books(cfg, DoTrackMark(s, t, ok))
  {
    A.SendsTrackMark(cfg, s, t, ok);
    A.AttemptsTrackMark(cfg, s, t, ok);
    K.CountersTrackMark(cfg, s, t, ok);
  }

  lemma BooksTrackRecalculate(cfg: Config, s: State, t: nat, c: CampaignId, ok: bool)
    requires Inv(cfg, s)
    ensures Books(cfg, DoTrackRecalculate(s, t, c, ok))
  {
    K.CountersTrackRecalculate(cfg, s, t, c, ok);
  }

  lemma BooksCrash(cfg: Config, s: State)
    requires Inv(cfg, s)
    ensures Books(cfg, DoCrash(s))
  {
    A.SendsCrash(cfg, s);
    A.AttemptsCrash(cfg, s);
    K.CountersCrash(cfg, s);
  }

  lemma BooksRequestStep(cfg: Config, s: State, e: Event)
    requires Inv(cfg, s)
    requires e.Tick? || e.Create? || e.PublishCreated? || e.SetPaused? || e.Reschedule? || e.CancelScheduled?
             || e.Recalculate?
    ensures Books(cfg, Step(cfg, s, e))
  {
    hide Core, Books;
    match e
    case Tick(to) => BooksTick(cfg, s, to);
    case Create(instance, at, n) => BooksCreate(cfg, s, instance, at, n);
    case PublishCreated(c, ok) => BooksPublishCreated(cfg, s, c, ok);
    case SetPaused(c, p) => if c < |s.campaigns| { BooksCampaignRow(cfg, s, c, C.SetPaused(s.campaigns[c], p)); }
    case Reschedule(c, at) => if c < |s.campaigns| { BooksCampaignRow(cfg, s, c, C.Reschedule(s.campaigns[c], at)); }
    case CancelScheduled(c) => if c < |s.campaigns| { BooksCampaignRow(cfg, s, c, C.Cancel(s.campaigns[c], s.clock)); }
    case Recalculate(c) => BooksRecalculate(cfg, s, c);
  }

  lemma BooksReleaseStep(cfg: Config, s: State, e: Event)
    requires Inv(cfg, s)
    requires e.ClaimDue? || e.PublishClaimed? || e.RevertRelease? || e.ClaimRetries? || e.RequeueSwept? || e.FireTimer?
    ensures Books(cfg, Step(cfg, s, e))
  {
    hide Core, Books;
    match e
    case ClaimDue(batchSize, claims) => BooksClaimDue(cfg, s, batchSize, claims);
    case PublishClaimed(ok) => BooksPublishClaimed(cfg, s, ok);
    case RevertRelease(ok) => BooksRevert(cfg, s, ok);
    case ClaimRetries(limit, picked) => BooksClaimRetries(cfg, s, limit, picked);
    case RequeueSwept(ok) => BooksRequeueSwept(cfg, s, ok);
    case FireTimer(i, ok) => BooksFireTimer(cfg, s, i, ok);
  }

  lemma BooksTrackStep(cfg: Config, s: State, e: Event)
    requires Inv(cfg, s)
    requires e.TrackStart? || e.TrackMark? || e.TrackRecalculate? || e.Crash?
    ensures Books(cfg, Step(cfg, s, e))
  {
    hide Core, Books;
    match e
    case TrackStart(receipt, ids) => BooksTrackStart(cfg, s, receipt, ids);
    case TrackMark(t, ok) => BooksTrackMark(cfg, s, t, ok);
    case TrackRecalculate(t, c, ok) => BooksTrackRecalculate(cfg, s, t, c, ok);
    case Crash => BooksCrash(cfg, s);
  }

  lemma BooksRecalculateThen(cfg: Config, s: State, ok: bool, w: Worker)
    requires Inv(cfg, s) && (s.worker.Marked? || s.worker.Settled?) && !w.Marked? && !w.Settled? && !w.Answered?
    requires w.Idle? || (w.job == s.worker.job && !BeforeMark(w) && (InFlight(w) ==> InFlight(s.worker)))
    ensures Books(cfg, DoRecalculateThen(s, s.worker.item.campaign, ok, w))
  {
    A.SendsWorker(cfg, s, w);
    A.AttemptsRecalculateThen(cfg, s, s.worker.item.campaign, ok, w);
    K.CountersRecalculateThen(cfg, s, ok, w);
  }

  lemma BooksBeforeMark(cfg: Config, s: State, ok: bool, answer: Answer)
    requires Inv(cfg, s) && (s.worker.Idle? || BeforeMark(s.worker))
    ensures Books(cfg, DoWork(cfg, s, ok, answer))
  {
    hide Core, Books;
    match s.worker
    case Idle => BooksPop(cfg, s, ok);
    case Popped(job) => BooksLookup(cfg, s, job, ok);
    case Read(job, item) => BooksGate(cfg, s, job, item, ok);
    case Requeue(job) => BooksRequeue(cfg, s, job, ok);
    case Admitted(job, item) => BooksMark(cfg, s, job, item, ok);
  }

  lemma BooksMark(cfg: Config, s: State, job: Job, item: M.Message, ok: bool)
    requires Inv(cfg, s) && s.worker == Admitted(job, item)
    ensures Books(cfg, DoMark(s, job, item, ok))
  {
    A.SendsMark(cfg, s, job, item, ok);
    A.AttemptsMark(cfg, s, job, item, ok);
    K.CountersMark(cfg, s, job, item, ok);
  }

  lemma BooksSend(cfg: Config, s: State, job: Job, item: M.Message, answer: Answer)
    requires Inv(cfg, s) && s.worker == Sending(job, item)
    ensures Books(cfg, DoSend(s, job, item, answer))
  {
    A.SendsSend(cfg, s, job, item, answer);
    A.AttemptsSend(cfg, s, job, item, answer);
  }

  lemma BooksSettle(cfg: Config, s: State, job: Job, item: M.Message, a: Answer, ok: bool)
    requires Inv(cfg, s) && s.worker == Answered(job, item, a)
    ensures Books(cfg, DoSettle(cfg, s, job, item, a, ok))
  {
    A.SendsSettle(cfg, s, job, item, a, ok);
    A.AttemptsSettle(cfg, s, job, item, a, ok);
    K.CountersSettle(cfg, s, job, item, a, ok);
  }

  /** Moving between program counters that owe nothing and are not answered. */
  lemma BooksWorker(cfg: Config, s: State, w: Worker)
    requires Inv(cfg, s) && !s.worker.Idle? && (w.Idle? || w.job == s.worker.job)
    requires !s.worker.Answered? && !w.Answered? && !w.Marked? && !w.Settled? && !s.worker.Marked? && !s.worker.Settled?
    requires BeforeMark(w) ==> BeforeMark(s.worker)
    requires AfterMark(w) ==> AfterMark(s.worker)
    requires InFlight(w) ==> InFlight(s.worker)
    ensures Books(cfg, s.(worker := w))
  {
    A.SendsWorker(cfg, s, w);
    A.AttemptsWorker(cfg, s, w);
    K.CountersStatuses(s, s.(worker := w));
  }

  lemma BooksPop(cfg: Config, s: State, ok: bool)
    requires Inv(cfg, s) && s.worker.Idle?
    ensures Books(cfg, DoPop(s, ok))
  {
    A.AttemptsPop(cfg, s, ok);
  }

  lemma BooksLookup(cfg: Config, s: State, job: Job, ok: bool)
    requires Inv(cfg, s) && s.worker == Popped(job)
    ensures Books(cfg, DoLookup(s, job, ok))
  {
    hide Core, Books;
    BooksWorker(cfg, s, DoLookup(s, job, ok).worker);
  }

  lemma BooksGate(cfg: Config, s: State, job: Job, item: M.Message, ok: bool)
    requires Inv(cfg, s) && s.worker == Read(job, item)
    ensures Books(cfg, DoGate(s, job, item, ok))
  {
    hide Core, Books;
    BooksWorker(cfg, s, DoGate(s, job, item, ok).worker);
  }

  lemma BooksRequeue(cfg: Config, s: State, job: Job, ok: bool)
    requires Inv(cfg, s) && s.worker == Requeue(job)
    ensures Books(cfg, DoRequeue(s, job, ok))
  {
    A.AttemptsRequeue(cfg, s, job, ok);
  }

  lemma BooksWait(cfg: Config, s: State, job: Job, item: M.Message, ok: bool)
    requires Inv(cfg, s) && s.worker == Waiting(job, item)
    ensures Books(cfg, DoWait(s, job, item, ok))
  {
    hide Core, Books;
    BooksWorker(cfg, s, if ok then Sending(job, item) else Idle);
  }

  lemma BooksRearm(cfg: Config, s: State, job: Job)
    requires Inv(cfg, s) && s.worker.Rearm? && s.worker.job == job
    ensures Books(cfg, DoRearm(s, job))
  {
    hide Core;
    A.SendsRearm(s, job);
    A.AttemptsRearm(cfg, s, job);
    K.CountersStatuses(s, DoRearm(s, job));
  }

  lemma BooksInFlight(cfg: Config, s: State, ok: bool, answer: Answer)
    requires Inv(cfg, s) && InFlight(s.worker) && !s.worker.Answered?
    ensures Books(cfg, DoWork(cfg, s, ok, answer))
  {
    hide Core, Books;
    match s.worker
    case Marked(job, item) => BooksRecalculateThen(cfg, s, ok, Waiting(job, item));
    case Waiting(job, item) => BooksWait(cfg, s, job, item, ok);
    case Sending(job, item) => BooksSend(cfg, s, job, item, answer);
  }

  lemma BooksAnswered(cfg: Config, s: State, ok: bool, answer: Answer)
    requires Inv(cfg, s) && s.worker.Answered?
    ensures Books(cfg, DoWork(cfg, s, ok, answer))
  {
    hide Core, Books;
    BooksSettle(cfg, s, s.worker.job, s.worker.item, s.worker.answer, ok);
  }

  lemma BooksSettled(cfg: Config, s: State, job: Job, item: M.Message, retry: bool, ok: bool)
    requires Inv(cfg, s) && s.worker == Settled(job, item, retry)
    ensures Books(cfg, DoRecalculateThen(s, item.campaign, ok, if retry then Rearm(job, item) else Idle))
  {
    BooksRecalculateThen(cfg, s, ok, if retry then Rearm(job, item) else Idle);
  }

  lemma BooksClosing(cfg: Config, s: State, ok: bool, answer: Answer)
    requires Inv(cfg, s) && (s.worker.Settled? || s.worker.Rearm?)
    ensures Books(cfg, DoWork(cfg, s, ok, answer))
  {
    hide Core, Books;
    match s.worker
    case Settled(job, item, retry) => BooksSettled(cfg, s, job, item, retry, ok);
    case Rearm(job, item) => BooksRearm(cfg, s, job);
  }

  lemma KeepBooks(cfg: Config, s: State, e: Event)
    requires Inv(cfg, s)
    ensures Books(cfg, Step(cfg, s, e))
  {
    hide Core, Books;
    if e.Work? {
      if s.worker.Idle? || BeforeMark(s.worker) {
        BooksBeforeMark(cfg, s, e.ok, e.answer);
      } else if InFlight(s.worker) && !s.worker.Answered? {
        BooksInFlight(cfg, s, e.ok, e.answer);
      } else if s.worker.Answered? {
        BooksAnswered(cfg, s, e.ok, e.answer);
      } else {
        BooksClosing(cfg, s, e.ok, e.answer);
      }
    } else if e.TrackStart? || e.TrackMark? || e.TrackRecalculate? || e.Crash? {
      BooksTrackStep(cfg, s, e);
    } else if e.ClaimDue? || e.PublishClaimed? || e.RevertRelease? || e.ClaimRetries? || e.RequeueSwept?
      || e.FireTimer? {
      BooksReleaseStep(cfg, s, e);
    } else {
      BooksRequestStep(cfg, s, e);
    }
  }

  lemma KeepInv(cfg: Config, s: State, e: Event)
    requires Inv(cfg, s)
    ensures Inv(cfg, Step(cfg, s, e))
  {
    hide Core, Books, Step;
    KeepStep(cfg, s, e);
    KeepBooks(cfg, s, e);
  }

  lemma {:induction false} InvAlways(cfg: Config, s: State, es: seq<Event>)
    requires Inv(cfg, s)
    ensures Inv(cfg, Run(cfg, s, es))
  {
    hide Core, Books, Step;
    if es != [] {
      InvAlways(cfg, s, es[..|es| - 1]);
      KeepInv(cfg, Run(cfg, s, es[..|es| - 1]), es[|es| - 1]);
    }
  }

  lemma InvInit(cfg: Config, clock: Time)
    ensures Inv(cfg, Init(clock))
  {
    CoreInit(cfg, clock);
  }
}
