/** Every step keeps `Core`. */
module CoreSteps {
  import opened Basics
  import M = Messages
  import C = Campaigns
  import opened Protocol
  import opened Invariants

  lemma KeepTick(cfg: Config, s: State, to: Time)
    requires Core(cfg, s)
    ensures Core(cfg, s.(clock := Max(s.clock, to)))
  {
    var t := s.(clock := Max(s.clock, to));
    SameDirectory(s, t);
  }

  lemma KeepCampaignRow(cfg: Config, s: State, c: CampaignId, row: C.Campaign)
    requires Core(cfg, s) && c < |s.campaigns|
    requires CampaignOk(row) && row.instance == s.campaigns[c].instance && row.total == s.campaigns[c].total
    requires row.releasedAt == s.campaigns[c].releasedAt && (s.campaigns[c].mode.Later? ==> row.mode.Later?)
    ensures Core(cfg, SetCampaign(s, c, row)) && Dir(SetCampaign(s, c, row)) == Dir(s)
  {
    SameDirectory(s, SetCampaign(s, c, row));
  }

  lemma KeepPublishCreated(cfg: Config, s: State, c: CampaignId, ok: bool)
    requires Core(cfg, s)
    ensures Core(cfg, DoPublishCreated(s, c, ok))
  {
    var t := DoPublishCreated(s, c, ok);
    SameDirectory(s, t);
    if c in s.creating && ok {
      var d, live, more := Dir(s), Live(s.log), Live(t.log);
      forall x | x in live ensures x in more {}
      JobsGrow(d, d, live, more, s.queue);
      JobsGrow(d, d, live, more, s.timers);
      JobsGrow(d, d, live, more, s.swept);
      CreatedJobsRefer(s, c);
      assert c in more;
      JobsAppend(d, more, s.queue, CreatedJobs(s, c));
    }
  }

  lemma CreatedJobsRefer(s: State, c: CampaignId)
    requires |s.log| == |s.campaigns| && DirOk(Dir(s)) && c < |s.campaigns|
    ensures Covers(Dir(s), c, CreatedJobs(s, c))
  {
    var d, jobs := Dir(s), CreatedJobs(s, c);
    assert d.first[c] == s.log[c].first && d.total[c] == s.campaigns[c].total;
    forall i | 0 <= i < |jobs| ensures RefersTo(d, jobs[i]) && jobs[i].campaign == c {
      assert d.owner[jobs[i].message] == c;
    }
    forall m | 0 <= m < |d.owner| && d.owner[m] == c ensures m in MessagesOf(jobs) {
      assert MessagesOf(jobs)[m - s.log[c].first] == m;
    }
  }

  lemma KeepCreate(cfg: Config, s: State, instance: InstanceId, at: Option<Time>, n: nat)
    requires Core(cfg, s)
    ensures Core(cfg, DoCreate(s, instance, at, n))
  {
    var t := DoCreate(s, instance, at, n);
    if n > 0 {
      var d, e, live := Dir(s), Dir(t), Live(s.log);
      GrowDirectory(s, instance, at, n);
      assert Live(t.log) == live;
      JobsGrow(d, e, live, live, s.queue);
      JobsGrow(d, e, live, live, s.timers);
      JobsGrow(d, e, live, live, s.swept);
      ClaimsGrow(s, instance, at, n);
      RowsAfterCreate(s, instance, at, n);
      PublishesAfterCreate(s, instance, at, n);
    }
  }

  lemma GrowDirectory(s: State, instance: InstanceId, at: Option<Time>, n: nat)
    requires |s.log| == |s.campaigns| && DirOk(Dir(s)) && n > 0
    ensures DirOk(Dir(DoCreate(s, instance, at, n))) && Within(Dir(s), Dir(DoCreate(s, instance, at, n)))
    ensures forall m :: |s.messages| <= m < |s.messages| + n ==>
              Dir(DoCreate(s, instance, at, n)).owner[m] == |s.campaigns|
  {
    var d, e := Dir(s), Dir(DoCreate(s, instance, at, n));
    assert e.total == d.total + [n];
    assert e.first == d.first + [|s.messages|];
    assert e.instance == d.instance + [instance];
    assert |e.owner| == |d.owner| + n;
    assert forall m :: 0 <= m < |d.owner| ==> e.owner[m] == d.owner[m];
  }

  lemma ClaimsGrow(s: State, instance: InstanceId, at: Option<Time>, n: nat)
    requires |s.log| == |s.campaigns| && DirOk(Dir(s)) && n > 0 && ClaimsOk(Dir(s), s.scheduler)
    ensures ClaimsOk(Dir(DoCreate(s, instance, at, n)), s.scheduler)
  {
    var d, e := Dir(s), Dir(DoCreate(s, instance, at, n));
    GrowDirectory(s, instance, at, n);
    if s.scheduler.Publishing? {
      var claims := s.scheduler.claims;
      forall k | 0 <= k < |claims| ensures Covers(e, claims[k].campaign, claims[k].jobs) {
        assert Covers(d, claims[k].campaign, claims[k].jobs);
      }
    }
  }

  lemma RowsAfterCreate(s: State, instance: InstanceId, at: Option<Time>, n: nat)
    requires RowsOk(s.messages, s.clock) && ProvidersOk(s.messages, s.issued) && n > 0
    ensures var ms := DoCreate(s, instance, at, n).messages;
            && RowsOk(ms, s.clock) && ProvidersOk(ms, s.issued)
            && forall id :: Unused(s.messages, id) ==> Unused(ms, id)
  {
  }

  lemma PublishesAfterCreate(s: State, instance: InstanceId, at: Option<Time>, n: nat)
    requires |s.log| == |s.campaigns| && n > 0 && DirOk(Dir(s)) && ClaimsOk(Dir(s), s.scheduler)
    requires PublishesOk(s.campaigns, s.log, s.creating, s.scheduler) && |s.campaigns| !in s.creating
    ensures var t := DoCreate(s, instance, at, n); PublishesOk(t.campaigns, t.log, t.creating, t.scheduler)
  {
    assert !Claims(s.scheduler, |s.campaigns|);
  }

  // ---------------------------------------------------------------- scheduler

  lemma KeepClaimDue(cfg: Config, s: State, batchSize: int, claims: seq<Claimed>)
    requires Core(cfg, s)
    ensures Core(cfg, DoClaimDue(s, batchSize, claims))
  {
    var t := DoClaimDue(s, batchSize, claims);
    SameDirectory(s, t);
    if CanClaimDue(s, batchSize, claims) {
      var ids := Campaigns(claims);
      forall k | 0 <= k < |claims|
        ensures claims[k].campaign < |s.campaigns| && C.Due(s.campaigns[claims[k].campaign], s.clock)
        ensures Covers(Dir(s), claims[k].campaign, claims[k].jobs)
      {
        assert ids[k] in DueCampaigns(s.campaigns, s.clock);
        ListsCover(s, claims[k].campaign, claims[k].jobs);
      }
      forall c | 0 <= c < |t.campaigns|
        ensures CampaignOk(t.campaigns[c])
        ensures PublishOk(t.campaigns[c], t.log[c], c in t.creating, Claims(t.scheduler, c))
      {
        assert CampaignOk(s.campaigns[c])
               && PublishOk(s.campaigns[c], s.log[c], c in s.creating, Claims(s.scheduler, c));
        if Claims(t.scheduler, c) {
          var k :| 0 <= k < |claims| && claims[k].campaign == c;
          assert ids[k] == c;
        }
      }
    }
  }

  lemma ListsCover(s: State, c: CampaignId, jobs: seq<Job>)
    requires Lists(s.messages, s.campaigns, c, jobs)
    ensures Covers(Dir(s), c, jobs)
  {
  }

  lemma KeepPublishClaimed(cfg: Config, s: State, ok: bool)
    requires Core(cfg, s)
    ensures Core(cfg, DoPublishClaimed(s, ok))
  {
    var t := DoPublishClaimed(s, ok);
    SameDirectory(s, t);
    if s.scheduler.Publishing? {
      var claims := s.scheduler.claims;
      var h := claims[0];
      RestOfClaims(Dir(s), claims);
      var d, live, more := Dir(s), Live(s.log), Live(t.log);
      forall x | x in live ensures x in more {}
      JobsGrow(d, d, live, more, s.queue);
      JobsGrow(d, d, live, more, s.timers);
      JobsGrow(d, d, live, more, s.swept);
      assert Claims(s.scheduler, h.campaign);
      assert PublishOk(s.campaigns[h.campaign], s.log[h.campaign], h.campaign in s.creating, true);
      if ok {
        assert h.campaign in more;
        JobsAppend(d, more, s.queue, h.jobs);
      }
    }
  }

  lemma RestOfClaims(d: Directory, claims: seq<Claimed>)
    requires ClaimsOk(d, Publishing(claims))
    ensures ClaimsOk(d, NextClaims(claims[1..]))
    ensures forall c :: Claims(NextClaims(claims[1..]), c) ==> Claims(Publishing(claims), c) && c != claims[0].campaign
  {
    var rest := claims[1..];
    forall c | Claims(NextClaims(rest), c)
      ensures Claims(Publishing(claims), c) && c != claims[0].campaign
    {
      var k :| 0 <= k < |rest| && rest[k].campaign == c;
      assert claims[k + 1].campaign == c;
      assert Campaigns(claims)[0] != Campaigns(claims)[k + 1];
    }
    forall i, j | 0 <= i < j < |rest| ensures Campaigns(rest)[i] != Campaigns(rest)[j] {
      assert Campaigns(claims)[i + 1] != Campaigns(claims)[j + 1];
    }
  }

  lemma KeepRevert(cfg: Config, s: State, ok: bool)
    requires Core(cfg, s)
    ensures Core(cfg, DoRevert(s, ok))
  {
    SameDirectory(s, DoRevert(s, ok));
    if s.scheduler.Reverting? {
      assert Claims(s.scheduler, s.scheduler.campaign);
    }
  }

  // -------------------------------------------------------- sweeper and timers

  /** What the sweeper's claim knows about a picked row. */
  lemma PickedIsDue(s: State, picked: seq<MessageId>, limit: int, m: MessageId)
    requires CanClaimRetries(s, limit, picked) && m in picked
    ensures m < |s.messages| && RetryDue(s.messages, s.campaigns, s.clock, m)
  {
    var i :| 0 <= i < |picked| && picked[i] == m;
    assert m in DueRetries(s.messages, s.campaigns, s.clock);
  }

  lemma SweepKeepsRows(ms: seq<M.Message>, issued: set<ProviderId>, picked: seq<MessageId>, now: Time)
    requires RowsOk(ms, now) && ProvidersOk(ms, issued)
    ensures RowsOk(Sweep(ms, picked), now) && ProvidersOk(Sweep(ms, picked), issued)
  {
  }

  lemma SweptJobsOk(s: State, d: Directory, live: set<CampaignId>, picked: seq<MessageId>)
    requires d == Dir(s) && DirOk(d) && |s.log| == |s.campaigns|
    requires forall i :: 0 <= i < |picked| ==> picked[i] < |s.messages| && d.owner[picked[i]] in live
    ensures JobsOk(d, live, SweptJobs(s, picked))
  {
    var jobs := SweptJobs(s, picked);
    forall i | 0 <= i < |jobs| ensures JobOk(d, live, jobs[i]) {
      assert d.owner[picked[i]] == s.messages[picked[i]].campaign;
    }
  }

  lemma KeepSweep(cfg: Config, s: State, picked: seq<MessageId>)
    requires Core(cfg, s)
    ensures Core(cfg, s.(messages := Sweep(s.messages, picked)))
  {
    SweepKeepsRows(s.messages, s.issued, picked, s.clock);
    SameDirectory(s, s.(messages := Sweep(s.messages, picked)));
  }

  lemma KeepClaimRetries(cfg: Config, s: State, limit: int, picked: seq<MessageId>)
    requires Core(cfg, s)
    ensures Core(cfg, DoClaimRetries(s, limit, picked))
  {
    if CanClaimRetries(s, limit, picked) {
      var t := s.(messages := Sweep(s.messages, picked));
      KeepSweep(cfg, s, picked);
      SameDirectory(s, t);
      forall i | 0 <= i < |picked| ensures picked[i] < |s.messages| && Dir(s).owner[picked[i]] in Live(s.log) {
        PickedIsDue(s, picked, limit, picked[i]);
        assert M.RowOk(s.messages[picked[i]], s.clock);
      }
      SweptJobsOk(s, Dir(s), Live(s.log), picked);
      SameDirectory(t, DoClaimRetries(s, limit, picked));
    }
  }

  lemma KeepRequeueSwept(cfg: Config, s: State, ok: bool)
    requires Core(cfg, s)
    ensures Core(cfg, DoRequeueSwept(s, ok))
  {
    SameDirectory(s, DoRequeueSwept(s, ok));
  }

  lemma KeepFireTimer(cfg: Config, s: State, i: nat, ok: bool)
    requires Core(cfg, s)
    ensures Core(cfg, DoFireTimer(s, i, ok))
  {
    SameDirectory(s, DoFireTimer(s, i, ok));
  }

  // ------------------------------------------------------------------- worker

  /** Nothing in `Core` but the worker's own clauses mentions the program counter. */
  lemma KeepWorker(cfg: Config, s: State, w: Worker)
    requires Core(cfg, s)
    requires WorkerOk(cfg, Dir(s), Live(s.log), s.messages, w) && AnswerOk(s.messages, s.issued, w)
    ensures Core(cfg, s.(worker := w))
  {
    SameDirectory(s, s.(worker := w));
  }

  /** A write to the worker's own row, together with its next program counter. */
  lemma KeepRowWrite(cfg: Config, s: State, m: MessageId, row: M.Message, w: Worker)
    requires Core(cfg, s) && m < |s.messages|
    requires row.campaign == s.messages[m].campaign && s.messages[m].campaign in Live(s.log)
    requires M.RowOk(row, s.clock)
    requires row.providerId == s.messages[m].providerId
             || (row.providerId.Some? && row.providerId.value in s.issued && Unused(s.messages, row.providerId.value))
    requires !w.Answered? && (!w.Idle? ==> JobOk(Dir(s), Live(s.log), w.job))
    requires HasItem(w) ==> w.job.message == m && ItemOk(cfg, row, w)
    ensures Core(cfg, s.(messages := s.messages[m := row], worker := w))
  {
    SameDirectory(s, s.(messages := s.messages[m := row], worker := w));
  }

  lemma KeepWork(cfg: Config, s: State, ok: bool, answer: Answer)
    requires Core(cfg, s)
    ensures Core(cfg, DoWork(cfg, s, ok, answer))
  {
    hide Core;
    if s.worker.Idle? || BeforeMark(s.worker) {
      KeepWorkBeforeMark(cfg, s, ok, answer);
    } else {
      KeepWorkAfterMark(cfg, s, ok, answer);
    }
  }

  lemma KeepWorkBeforeMark(cfg: Config, s: State, ok: bool, answer: Answer)
    requires Core(cfg, s) && (s.worker.Idle? || BeforeMark(s.worker))
    ensures Core(cfg, DoWork(cfg, s, ok, answer))
  {
    hide Core;
    match s.worker
    case Idle => KeepPop(cfg, s, ok);
    case Popped(job) => KeepLookup(cfg, s, job, ok);
    case Read(job, item) => KeepGate(cfg, s, job, item, ok);
    case Requeue(job) => KeepRequeue(cfg, s, job, ok);
    case Admitted(job, item) => KeepMark(cfg, s, job, item, ok);
  }

  lemma KeepWorkAfterMark(cfg: Config, s: State, ok: bool, answer: Answer)
    requires Core(cfg, s) && AfterMark(s.worker)
    ensures Core(cfg, DoWork(cfg, s, ok, answer))
  {
    hide Core;
    match s.worker
    case Marked(job, item) => KeepAfterMark(cfg, s, job, item, ok);
    case Waiting(job, item) => KeepWait(cfg, s, job, item, ok);
    case Sending(job, item) => KeepSend(cfg, s, job, item, answer);
    case Answered(job, item, a) => KeepSettle(cfg, s, job, item, a, ok);
    case Settled(job, item, retry) => KeepAfterAnswer(cfg, s, job, item, retry, ok);
    case Rearm(job, item) => KeepRearm(cfg, s, job);
  }

  lemma KeepPop(cfg: Config, s: State, ok: bool)
    requires Core(cfg, s) && s.worker.Idle?
    ensures Core(cfg, DoPop(s, ok))
  {
    SameDirectory(s, DoPop(s, ok));
  }

  lemma KeepLookup(cfg: Config, s: State, job: Job, ok: bool)
    requires Core(cfg, s) && s.worker == Popped(job)
    ensures Core(cfg, DoLookup(s, job, ok))
  {
    KeepWorker(cfg, s, DoLookup(s, job, ok).worker);
  }

  lemma KeepGate(cfg: Config, s: State, job: Job, item: M.Message, ok: bool)
    requires Core(cfg, s) && s.worker == Read(job, item)
    ensures Core(cfg, DoGate(s, job, item, ok))
  {
    KeepWorker(cfg, s, DoGate(s, job, item, ok).worker);
  }

  lemma KeepRequeue(cfg: Config, s: State, job: Job, ok: bool)
    requires Core(cfg, s) && s.worker == Requeue(job)
    ensures Core(cfg, DoRequeue(s, job, ok))
  {
    SameDirectory(s, DoRequeue(s, job, ok));
  }

  lemma KeepMark(cfg: Config, s: State, job: Job, item: M.Message, ok: bool)
    requires Core(cfg, s) && s.worker == Admitted(job, item)
    ensures Core(cfg, DoMark(s, job, item, ok))
  {
    if ok {
      KeepRowWrite(cfg, s, job.message, M.MarkProcessing(s.messages[job.message]), Marked(job, item));
    } else {
      KeepWorker(cfg, s, Idle);
    }
  }

  lemma KeepRecalculate(cfg: Config, s: State, c: CampaignId, ok: bool)
    requires Core(cfg, s)
    ensures Core(cfg, DoRecalculate(s, c, ok)) && Dir(DoRecalculate(s, c, ok)) == Dir(s)
  {
    if ok && c < |s.campaigns| {
      KeepCampaignRow(cfg, s, c, C.Recalculate(s.campaigns[c], s.messages, c));
    }
    SameDirectory(s, DoRecalculate(s, c, ok));
  }

  lemma KeepRecalculateThen(cfg: Config, s: State, c: CampaignId, ok: bool, w: Worker)
    requires Core(cfg, s)
    requires WorkerOk(cfg, Dir(s), Live(s.log), s.messages, w) && AnswerOk(s.messages, s.issued, w)
    ensures Core(cfg, DoRecalculateThen(s, c, ok, w))
  {
    KeepRecalculate(cfg, s, c, ok);
    KeepWorker(cfg, DoRecalculate(s, c, ok), w);
  }

  lemma KeepAfterMark(cfg: Config, s: State, job: Job, item: M.Message, ok: bool)
    requires Core(cfg, s) && s.worker == Marked(job, item)
    ensures Core(cfg, DoRecalculateThen(s, item.campaign, ok, Waiting(job, item)))
  {
    KeepRecalculateThen(cfg, s, item.campaign, ok, Waiting(job, item));
  }

  lemma KeepAfterAnswer(cfg: Config, s: State, job: Job, item: M.Message, retry: bool, ok: bool)
    requires Core(cfg, s) && s.worker == Settled(job, item, retry)
    ensures Core(cfg, DoRecalculateThen(s, item.campaign, ok, if retry then Rearm(job, item) else Idle))
  {
    KeepRecalculateThen(cfg, s, item.campaign, ok, if retry then Rearm(job, item) else Idle);
  }

  lemma KeepWait(cfg: Config, s: State, job: Job, item: M.Message, ok: bool)
    requires Core(cfg, s) && s.worker == Waiting(job, item)
    ensures Core(cfg, DoWait(s, job, item, ok))
  {
    KeepWorker(cfg, s, if ok then Sending(job, item) else Idle);
  }

  lemma KeepSend(cfg: Config, s: State, job: Job, item: M.Message, answer: Answer)
    requires Core(cfg, s) && s.worker == Sending(job, item)
    ensures Core(cfg, DoSend(s, job, item, answer))
  {
    var t := DoSend(s, job, item, answer);
    SameDirectory(s, t);
    assert Live(t.log) == Live(s.log);
  }

  lemma KeepSettle(cfg: Config, s: State, job: Job, item: M.Message, answer: Answer, ok: bool)
    requires Core(cfg, s) && s.worker == Answered(job, item, answer)
    ensures Core(cfg, DoSettle(cfg, s, job, item, answer, ok))
  {
    var t := DoSettle(cfg, s, job, item, answer, ok);
    var row := s.messages[job.message];
    if answer.Rejected? && !ok {
      KeepWorker(cfg, s, t.worker);
    } else if !ok {
      KeepWorker(cfg, s, Idle);
      hide Core;
      KeepTally(cfg, s.(worker := Idle), t.tally);
    } else {
      KeepSettledRow(cfg, s, job, item, answer);
    }
  }

  lemma KeepSettledRow(cfg: Config, s: State, job: Job, item: M.Message, answer: Answer)
    requires Core(cfg, s) && s.worker == Answered(job, item, answer)
    ensures Core(cfg, DoSettle(cfg, s, job, item, answer, true))
  {
    var t := DoSettle(cfg, s, job, item, answer, true);
    KeepRowWrite(cfg, s, job.message, t.messages[job.message], t.worker);
    assert |t.tally| == |s.messages|;
    hide Core, ShouldRetry;
    KeepTally(cfg, s.(messages := t.messages, worker := t.worker), t.tally);
  }

  lemma KeepTally(cfg: Config, s: State, ts: seq<Tally>)
    requires Core(cfg, s) && |ts| == |s.tally|
    ensures Core(cfg, s.(tally := ts))
  {
    SameDirectory(s, s.(tally := ts));
  }

  lemma KeepRearm(cfg: Config, s: State, job: Job)
    requires Core(cfg, s) && s.worker.Rearm? && s.worker.job == job
    ensures Core(cfg, DoRearm(s, job))
  {
    SameDirectory(s, DoRearm(s, job));
  }

  // ----------------------------------------------------------------- webhooks

  lemma ReceiveKeepsRow(m: M.Message, receipt: Receipt, now: Time)
    requires M.RowOk(m, now) && m.providerId.Some?
    ensures M.RowOk(Receive(receipt, m, now), now)
  {
  }

  lemma ReceiveAllKeeps(ms: seq<M.Message>, issued: set<ProviderId>, receipt: Receipt, id: ProviderId, now: Time)
    requires RowsOk(ms, now) && ProvidersOk(ms, issued)
    ensures var all := ReceiveAll(ms, receipt, id, now);
            && RowsOk(all, now) && ProvidersOk(all, issued)
            && forall m :: 0 <= m < |ms| ==>
                 all[m].campaign == ms[m].campaign && all[m].attempts == ms[m].attempts
                   && all[m].providerId == ms[m].providerId
  {
    forall m | 0 <= m < |ms| && ms[m].providerId == Some(id) ensures M.RowOk(Receive(receipt, ms[m], now), now) {
      ReceiveKeepsRow(ms[m], receipt, now);
    }
  }

  lemma ReceiveAllMissesUndispatched(ms: seq<M.Message>, receipt: Receipt, id: ProviderId, now: Time, m: MessageId)
    requires m < |ms| && ms[m].providerId.None?
    ensures ReceiveAll(ms, receipt, id, now)[m] == ms[m]
  {
  }

  lemma KeepTrackMark(cfg: Config, s: State, t: nat, ok: bool)
    requires Core(cfg, s)
    ensures Core(cfg, DoTrackMark(s, t, ok))
  {
    var u := DoTrackMark(s, t, ok);
    if t < |s.tracks| && s.tracks[t].ids != [] && ok {
      var track := s.tracks[t];
      ReceiveAllKeeps(s.messages, s.issued, track.receipt, track.ids[0], s.clock);
      if HasItem(s.worker) && !s.worker.Settled? && !s.worker.Rearm? {
        ReceiveAllMissesUndispatched(s.messages, track.receipt, track.ids[0], s.clock, s.worker.job.message);
      }
    }
    SameDirectory(s, u);
  }

  lemma KeepTrackRecalculate(cfg: Config, s: State, t: nat, c: CampaignId, ok: bool)
    requires Core(cfg, s)
    ensures Core(cfg, DoTrackRecalculate(s, t, c, ok))
  {
    KeepRecalculate(cfg, s, c, true);
    SameDirectory(s, DoTrackRecalculate(s, t, c, ok));
  }

  lemma KeepCrash(cfg: Config, s: State)
    requires Core(cfg, s)
    ensures Core(cfg, DoCrash(s))
  {
    SameDirectory(s, DoCrash(s));
  }

  // --------------------------------------------------------------------- runs

  lemma KeepSetPaused(cfg: Config, s: State, c: CampaignId, paused: bool)
    requires Core(cfg, s) && c < |s.campaigns|
    ensures Core(cfg, SetCampaign(s, c, C.SetPaused(s.campaigns[c], paused)))
  {
    KeepCampaignRow(cfg, s, c, C.SetPaused(s.campaigns[c], paused));
  }

  lemma KeepReschedule(cfg: Config, s: State, c: CampaignId, at: Time)
    requires Core(cfg, s) && c < |s.campaigns|
    ensures Core(cfg, SetCampaign(s, c, C.Reschedule(s.campaigns[c], at)))
  {
    KeepCampaignRow(cfg, s, c, C.Reschedule(s.campaigns[c], at));
  }

  lemma KeepCancel(cfg: Config, s: State, c: CampaignId)
    requires Core(cfg, s) && c < |s.campaigns|
    ensures Core(cfg, SetCampaign(s, c, C.Cancel(s.campaigns[c], s.clock)))
  {
    KeepCampaignRow(cfg, s, c, C.Cancel(s.campaigns[c], s.clock));
  }

  lemma KeepRequestStep(cfg: Config, s: State, e: Event)
    requires Core(cfg, s)
    requires e.Tick? || e.Create? || e.PublishCreated? || e.SetPaused? || e.Reschedule? || e.CancelScheduled?
             || e.Recalculate?
    ensures Core(cfg, Step(cfg, s, e))
  {
    hide Core;
    match e
    case Tick(to) => KeepTick(cfg, s, to);
    case Create(instance, at, n) => KeepCreate(cfg, s, instance, at, n);
    case PublishCreated(c, ok) => KeepPublishCreated(cfg, s, c, ok);
    case SetPaused(c, p) => if c < |s.campaigns| { KeepSetPaused(cfg, s, c, p); }
    case Reschedule(c, at) => if c < |s.campaigns| { KeepReschedule(cfg, s, c, at); }
    case CancelScheduled(c) => if c < |s.campaigns| { KeepCancel(cfg, s, c); }
    case Recalculate(c) => KeepRecalculate(cfg, s, c, true);
  }

  lemma KeepReleaseStep(cfg: Config, s: State, e: Event)
    requires Core(cfg, s)
    requires e.ClaimDue? || e.PublishClaimed? || e.RevertRelease? || e.ClaimRetries? || e.RequeueSwept? || e.FireTimer?
    ensures Core(cfg, Step(cfg, s, e))
  {
    hide Core;
    match e
    case ClaimDue(batchSize, claims) => KeepClaimDue(cfg, s, batchSize, claims);
    case PublishClaimed(ok) => KeepPublishClaimed(cfg, s, ok);
    case RevertRelease(ok) => KeepRevert(cfg, s, ok);
    case ClaimRetries(limit, picked) => KeepClaimRetries(cfg, s, limit, picked);
    case RequeueSwept(ok) => KeepRequeueSwept(cfg, s, ok);
    case FireTimer(i, ok) => KeepFireTimer(cfg, s, i, ok);
  }

  lemma KeepTrackStart(cfg: Config, s: State, receipt: Receipt, ids: seq<ProviderId>)
    requires Core(cfg, s)
    ensures Core(cfg, s.(tracks := s.tracks + [Track(receipt, ids, {})]))
  {
    SameDirectory(s, s.(tracks := s.tracks + [Track(receipt, ids, {})]));
  }

  lemma KeepStep(cfg: Config, s: State, e: Event)
    requires Core(cfg, s)
    ensures Core(cfg, Step(cfg, s, e))
  {
    hide Core;
    match e
    case Work(ok, answer) => KeepWork(cfg, s, ok, answer);
    case TrackStart(receipt, ids) => KeepTrackStart(cfg, s, receipt, ids);
    case TrackMark(t, ok) => KeepTrackMark(cfg, s, t, ok);
    case TrackRecalculate(t, c, ok) => KeepTrackRecalculate(cfg, s, t, c, ok);
    case Crash => KeepCrash(cfg, s);
    case _ =>
      if e.ClaimDue? || e.PublishClaimed? || e.RevertRelease? || e.ClaimRetries? || e.RequeueSwept? || e.FireTimer? {
        KeepReleaseStep(cfg, s, e);
      } else {
        KeepRequestStep(cfg, s, e);
      }
  }

  /** `Core` holds in every reachable state. */
  lemma {:induction false} CoreAlways(cfg: Config, s: State, es: seq<Event>)
    requires Core(cfg, s)
    ensures Core(cfg, Run(cfg, s, es))
  {
    hide Core, Step;
    if es != [] {
      CoreAlways(cfg, s, es[..|es| - 1]);
      KeepStep(cfg, Run(cfg, s, es[..|es| - 1]), es[|es| - 1]);
    }
  }

  lemma CoreInit(cfg: Config, clock: Time)
    ensures Core(cfg, Init(clock))
  {
    assert Live([]) == {};
  }
}
