/** What one undisturbed call of `handleJob` comes to, whichever of its statements fail. */
module Handled {
  import opened Basics
  import M = Messages
  import C = Campaigns
  import opened Protocol
  import opened Invariants
  import opened Interleaving
  import opened Worker
  import opened AttemptLimits
  import opened StatusLaws
  import Q = Requests

  /** The row once the attempt has begun. */
  function Begun(row: M.Message): M.Message {
    row.(status := M.Processing, attempts := row.attempts + 1, lastError := None, nextRetryAt := None, failedAt := None)
  }

  /** The row once the answer is written. */
  function RowAfter(cfg: Config, row: M.Message, answer: Answer, now: Time): M.Message {
    match answer
    case Accepted(id) => Begun(row).(status := M.Sent, providerId := Some(id), sentAt := Some(now))
    case Rejected(failure) =>
      if OneMoreAttempt(cfg, row, failure)
      then Begun(row).(status := M.Pending, lastError := Some(failure), nextRetryAt := Some(now + cfg.retryDelay))
      else Begun(row).(status := M.Failed, lastError := Some(failure), failedAt := Some(now))
  }

  /** The attempts are not used up, and the error is not final. */
  predicate OneMoreAttempt(cfg: Config, row: M.Message, failure: string) {
    row.attempts + 1 < cfg.maxAttempts && !cfg.permanent(failure)
  }

  /** From `s` to `x` nothing was changed but the row of `m`, the timers, and the status and the counters of its
      campaign. */
  ghost predicate Touched(s: State, x: State, m: MessageId, row: M.Message, timers: seq<Job>)
    requires m < |s.messages|
  {
    && x.messages == s.messages[m := row] && x.timers == timers && x.queue == s.queue && x.clock == s.clock
    && x.swept == s.swept && x.creating == s.creating && x.scheduler == s.scheduler && x.tracks == s.tracks
    && |x.campaigns| == |s.campaigns| && |x.tally| == |s.tally| && |x.log| == |s.log|
    && forall d :: 0 <= d < |s.campaigns| ==>
         if d == s.messages[m].campaign then Q.Recounted(s.campaigns[d], x.campaigns[d])
         else x.campaigns[d] == s.campaigns[d]
  }

  /** The campaign of `m` was recalculated after the last write to the row. */
  ghost predicate UpToDate(x: State, m: MessageId) {
    && m < |x.messages| && x.messages[m].campaign < |x.campaigns|
    && var c := x.messages[m].campaign; x.campaigns[c] == C.Recalculate(x.campaigns[c], x.messages, c)
  }

  /** The whole call: where it ends, and what it leaves. */
  ghost predicate Conclusion(cfg: Config, s: State, job: Job, turns: seq<Turn>, t: State)
    requires job.message < |s.messages| && s.messages[job.message].campaign < |s.campaigns|
  {
    var m := job.message;
    var row := s.messages[m];
    var campaign := s.campaigns[row.campaign];
    if |turns| < 1 then false
    else if !turns[0].ok || M.Dispatched(row.status) then |turns| == 1 && t == s.(worker := Idle)
    else if |turns| < 2 then false
    else if !turns[1].ok || campaign.status.Scheduled? then |turns| == 2 && t == s.(worker := Idle)
    else if |turns| < 3 then false
    else if campaign.paused || campaign.status.Paused? then
      |turns| == 3 && t == s.(worker := Idle, queue := if turns[2].ok then s.queue + [job] else s.queue)
    else if !turns[2].ok then |turns| == 3 && t == s.(worker := Idle)
    else if |turns| < 5 then false
    else if !turns[4].ok then |turns| == 5 && Touched(s, t, m, Begun(row), s.timers) && (turns[3].ok ==> UpToDate(t, m))
    else
      |turns| >= 7 && SendConclusion(cfg, s, job, turns, t)
  }

  /** From SendText on. */
  ghost predicate SendConclusion(cfg: Config, s: State, job: Job, turns: seq<Turn>, t: State)
    requires job.message < |s.messages| && |turns| >= 7
  {
    var m := job.message;
    var row, answer := s.messages[m], turns[5].answer;
    var written := if turns[6].ok then RowAfter(cfg, row, answer, s.clock) else Begun(row);
    if answer.Accepted? && !turns[6].ok then |turns| == 7 && Touched(s, t, m, Begun(row), s.timers)
    else if answer.Rejected? && OneMoreAttempt(cfg, row, answer.error) then
      && |turns| == 9 && Touched(s, t, m, written, s.timers + [job.(attempt := job.attempt + 1)])
      && (turns[7].ok ==> UpToDate(t, m))
    else |turns| == 8 && Touched(s, t, m, written, s.timers) && (turns[7].ok ==> UpToDate(t, m))
  }

  // ------------------------------------------------------------- one turn at a time

  ghost predicate Alone(turns: seq<Turn>) {
    forall i :: 0 <= i < |turns| ==> turns[i].env == []
  }

  lemma QuietTurn(cfg: Config, s: State, turns: seq<Turn>, k: nat)
    requires Alone(turns) && k < |turns|
    ensures After(cfg, s, turns, k + 1) == DoWork(cfg, After(cfg, s, turns, k), turns[k].ok, turns[k].answer)
  {
    hide Step;
    OneMoreTurn(cfg, s, turns[..k], turns[k]);
    assert turns[..k] + [turns[k]] == turns[..k + 1];
    WorkIsStep(cfg, After(cfg, s, turns, k), turns[k]);
  }

  /** The call goes on exactly as long as the worker has the job in hand. */
  lemma GoesOnIffBusy(cfg: Config, s: State, job: Job, turns: seq<Turn>, k: nat)
    requires Handling(cfg, s, job, turns) && k <= |turns|
    ensures k < |turns| <==> !After(cfg, s, turns, k).worker.Idle?
  {
    hide Step;
    if k < |turns| {
      StillBusy(cfg, s, turns, k);
    } else {
      assert turns[..k] == turns;
    }
  }

  lemma Recounting(s: State, x: State, m: MessageId, row: M.Message, timers: seq<Job>, ok: bool, w: Protocol.Worker)
    requires m < |s.messages| && Touched(s, x, m, row, timers) && row.campaign == s.messages[m].campaign
    requires row.campaign < |s.campaigns|
    ensures var y := DoRecalculateThen(x, row.campaign, ok, w);
            Touched(s, y, m, row, timers) && y.worker == w && y.issued == x.issued && (ok ==> UpToDate(y, m))
  {
    hide C.TrueCounts, C.Classify;
    var c := row.campaign;
    RecalculateTwice(x.campaigns[c], x.messages, c);
  }

  lemma RecalculateTwice(c: C.Campaign, ms: seq<M.Message>, id: CampaignId)
    ensures C.Recalculate(C.Recalculate(c, ms, id), ms, id) == C.Recalculate(c, ms, id)
  {
    RecalculateIdempotent(c, ms, id);
  }

  /** Up to the cadence wait. */
  lemma Begins(cfg: Config, s: State, job: Job, turns: seq<Turn>)
    requires Handling(cfg, s, job, turns) && Alone(turns)
    requires job.message < |s.messages| && s.messages[job.message].campaign < |s.campaigns|
    ensures var row := s.messages[job.message]; var campaign := s.campaigns[row.campaign];
            if |turns| >= 3 && turns[0].ok && !M.Dispatched(row.status) && turns[1].ok && !campaign.status.Scheduled?
               && !campaign.paused && !campaign.status.Paused? && turns[2].ok
            then |turns| >= 4 && After(cfg, s, turns, 3)
                 == s.(worker := Marked(job, row), messages := s.messages[job.message := Begun(row)])
            else Conclusion(cfg, s, job, turns, Run(cfg, s, Interleaved(turns)))
  {
    hide Step, Run, Interleaved, Busy, Touched, SendConclusion, After, Handling;
    Whole(cfg, s, turns);
    GoesOnIffBusy(cfg, s, job, turns, 0);
    Starts(cfg, s, job, turns);
    QuietTurn(cfg, s, turns, 0);
    GoesOnIffBusy(cfg, s, job, turns, 1);
    var row := s.messages[job.message];
    if turns[0].ok && !M.Dispatched(row.status) {
      QuietTurn(cfg, s, turns, 1);
      GoesOnIffBusy(cfg, s, job, turns, 2);
      if turns[1].ok && !s.campaigns[row.campaign].status.Scheduled? {
        QuietTurn(cfg, s, turns, 2);
        GoesOnIffBusy(cfg, s, job, turns, 3);
      }
    }
  }

  lemma Whole(cfg: Config, s: State, turns: seq<Turn>)
    ensures After(cfg, s, turns, |turns|) == Run(cfg, s, Interleaved(turns))
  {
    hide Step;
    assert turns[..|turns|] == turns;
  }

  lemma Starts(cfg: Config, s: State, job: Job, turns: seq<Turn>)
    requires Handling(cfg, s, job, turns)
    ensures After(cfg, s, turns, 0) == s && s.worker == Popped(job)
  {
    hide Step;
    assert turns[..0] == [];
  }

  /** The recalculation and the wait. */
  lemma Waits(cfg: Config, s: State, job: Job, turns: seq<Turn>)
    requires Handling(cfg, s, job, turns) && Alone(turns) && |turns| >= 4
    requires job.message < |s.messages| && s.messages[job.message].campaign < |s.campaigns|
    requires var row := s.messages[job.message];
             After(cfg, s, turns, 3)
               == s.(worker := Marked(job, row), messages := s.messages[job.message := Begun(row)])
    ensures |turns| >= 5
    ensures var row, x := s.messages[job.message], After(cfg, s, turns, 5);
            && Touched(s, x, job.message, Begun(row), s.timers) && x.issued == s.issued
            && (turns[3].ok ==> UpToDate(x, job.message))
            && if turns[4].ok then |turns| >= 6 && x.worker == Sending(job, row) else |turns| == 5 && x.worker.Idle?
  {
    hide Step, Run, Interleaved, Busy, After, Handling, C.Recalculate;
    var row := s.messages[job.message];
    QuietTurn(cfg, s, turns, 3);
    Recounting(s, After(cfg, s, turns, 3), job.message, Begun(row), s.timers, turns[3].ok, Waiting(job, row));
    GoesOnIffBusy(cfg, s, job, turns, 4);
    QuietTurn(cfg, s, turns, 4);
    GoesOnIffBusy(cfg, s, job, turns, 5);
  }

  lemma Answers(cfg: Config, s: State, x: State, job: Job, answer: Answer)
    requires job.message < |s.messages| == |s.tally| && |s.log| == |s.campaigns|
    requires s.messages[job.message].campaign < |s.campaigns|
    requires Touched(s, x, job.message, Begun(s.messages[job.message]), s.timers) && x.issued == s.issued
    requires x.worker == Sending(job, s.messages[job.message])
    requires answer.Accepted? ==> answer.id !in s.issued
    ensures var y := DoSend(x, job, s.messages[job.message], answer);
            && Touched(s, y, job.message, Begun(s.messages[job.message]), s.timers)
            && y.worker == Answered(job, s.messages[job.message], answer)
  {
  }

  /** The write after the answer. */
  lemma Settles(cfg: Config, s: State, x: State, job: Job, answer: Answer, ok: bool)
    requires job.message < |s.messages| == |s.tally| && s.messages[job.message].campaign < |s.campaigns|
    requires Touched(s, x, job.message, Begun(s.messages[job.message]), s.timers)
    requires x.worker == Answered(job, s.messages[job.message], answer)
    ensures var row := s.messages[job.message];
            var y := DoSettle(cfg, x, job, row, answer, ok);
            && Touched(s, y, job.message, if ok then RowAfter(cfg, row, answer, s.clock) else Begun(row), s.timers)
            && y.worker == (if answer.Accepted? && !ok then Idle
                            else Settled(job, row, answer.Rejected? && OneMoreAttempt(cfg, row, answer.error)))
  {
  }

  lemma Sends(cfg: Config, s: State, job: Job, turns: seq<Turn>)
    requires Handling(cfg, s, job, turns) && Alone(turns) && |turns| >= 6
    requires job.message < |s.messages| == |s.tally| && |s.log| == |s.campaigns|
    requires s.messages[job.message].campaign < |s.campaigns|
    requires turns[5].answer.Accepted? ==> turns[5].answer.id !in s.issued
    requires var row, x := s.messages[job.message], After(cfg, s, turns, 5);
             && Touched(s, x, job.message, Begun(row), s.timers) && x.issued == s.issued
             && x.worker == Sending(job, row)
    ensures |turns| >= 7 && SendConclusion(cfg, s, job, turns, Run(cfg, s, Interleaved(turns)))
  {
    hide Step, Run, Interleaved, Busy, After, Handling, Touched, DoSend, DoSettle, DoRecalculateThen, DoRearm, UpToDate;
    var row, answer := s.messages[job.message], turns[5].answer;
    Whole(cfg, s, turns);
    QuietTurn(cfg, s, turns, 5);
    Answers(cfg, s, After(cfg, s, turns, 5), job, answer);
    GoesOnIffBusy(cfg, s, job, turns, 6);
    QuietTurn(cfg, s, turns, 6);
    Settles(cfg, s, After(cfg, s, turns, 6), job, answer, turns[6].ok);
    GoesOnIffBusy(cfg, s, job, turns, 7);
    if !(answer.Accepted? && !turns[6].ok) {
      var written := if turns[6].ok then RowAfter(cfg, row, answer, s.clock) else Begun(row);
      var again := answer.Rejected? && OneMoreAttempt(cfg, row, answer.error);
      QuietTurn(cfg, s, turns, 7);
      Recounting(s, After(cfg, s, turns, 7), job.message, written, s.timers, turns[7].ok,
                 if again then Rearm(job, row) else Idle);
      GoesOnIffBusy(cfg, s, job, turns, 8);
      if again {
        QuietTurn(cfg, s, turns, 8);
        Rearms(s, After(cfg, s, turns, 8), job, written);
        GoesOnIffBusy(cfg, s, job, turns, 9);
      }
    }
  }

  lemma Rearms(s: State, x: State, job: Job, row: M.Message)
    requires job.message < |s.messages| == |s.tally| && Touched(s, x, job.message, row, s.timers)
    ensures var y := DoRearm(x, job);
            && Touched(s, y, job.message, row, s.timers + [job.(attempt := job.attempt + 1)]) && y.worker.Idle?
            && (UpToDate(x, job.message) ==> UpToDate(y, job.message))
  {
  }

  // --------------------------------------------------------------------- the call

  /** What a call of `handleJob` comes to when nothing disturbs it. A job whose look-up fails or finds its message
      dispatched, and one whose campaign cannot be read or waits for its schedule, is dropped without a trace; one of a
      paused campaign goes to the tail. Otherwise an attempt begins, unless its own write fails. It ends with the row
      sent, failed, or pending for one more attempt with a timer, or in processing when the wait is cancelled or the
      answer cannot be written. The list, the clock and all other rows stay as they are, and a recalculation that is
      carried out leaves the campaign with the status and the counters that its rows call for. */
  lemma HandledOutcome(cfg: Config, s: State, job: Job, turns: seq<Turn>)
    requires Reachable(cfg, s) && Handling(cfg, s, job, turns) && Alone(turns)
    requires |turns| > 5 && turns[5].answer.Accepted? ==> turns[5].answer.id !in s.issued
    ensures job.message < |s.messages| && s.messages[job.message].campaign < |s.campaigns|
    ensures var t := Run(cfg, s, Interleaved(turns)); var m := job.message;
            && Conclusion(cfg, s, job, turns, t)
            && (UpToDate(t, m) ==>
                  Verdict(t.campaigns[t.messages[m].campaign], t.messages, t.messages[m].campaign,
                          t.campaigns[t.messages[m].campaign].status))
  {
    hide Step, Run, Interleaved, Conclusion, SendConclusion, Touched, Verdict, C.Recalculate;
    JobIsKnown(cfg, s, job);
    Begins(cfg, s, job, turns);
    var t := Run(cfg, s, Interleaved(turns));
    StillReachable(cfg, s, Interleaved(turns));
    hide Reachable;
    if UpToDate(t, job.message) {
      RecalculatedMeans(cfg, t, t.messages[job.message].campaign);
    }
    var row := s.messages[job.message];
    var campaign := s.campaigns[row.campaign];
    if |turns| >= 3 && turns[0].ok && !M.Dispatched(row.status) && turns[1].ok && !campaign.status.Scheduled?
       && !campaign.paused && !campaign.status.Paused? && turns[2].ok
    {
      Waits(cfg, s, job, turns);
      if turns[4].ok {
        Sends(cfg, s, job, turns);
      } else {
        Whole(cfg, s, turns);
      }
      EndsLater(cfg, s, job, turns, t);
    }
  }

  lemma EndsLater(cfg: Config, s: State, job: Job, turns: seq<Turn>, t: State)
    requires job.message < |s.messages| && s.messages[job.message].campaign < |s.campaigns|
    requires var row := s.messages[job.message]; var campaign := s.campaigns[row.campaign];
             && |turns| >= 5 && turns[0].ok && !M.Dispatched(row.status) && turns[1].ok && !campaign.status.Scheduled?
             && !campaign.paused && !campaign.status.Paused? && turns[2].ok
    requires if turns[4].ok then |turns| >= 7 && SendConclusion(cfg, s, job, turns, t)
             else |turns| == 5 && Touched(s, t, job.message, Begun(s.messages[job.message]), s.timers)
                  && (turns[3].ok ==> UpToDate(t, job.message))
    ensures Conclusion(cfg, s, job, turns, t)
  {
    hide Touched, SendConclusion;
  }

  lemma JobIsKnown(cfg: Config, s: State, job: Job)
    requires Reachable(cfg, s) && s.worker == Popped(job)
    ensures job.message < |s.messages| == |s.tally| && |s.log| == |s.campaigns|
    ensures s.messages[job.message].campaign < |s.campaigns|
  {
    ReachableIsCore(cfg, s);
    assert Dir(s).owner[job.message] == s.messages[job.message].campaign;
  }
}
