/** What a lost MarkMessageSent leads to. */
module LostMarks {
  import opened Basics
  import opened Protocol
  import opened Interleaving
  import opened Invariants
  import opened Gates
  import opened Revival
  import opened Scenarios
  import G = Guarantees
  import A = Accounting

  /** Send-once needs its hypothesis: whenever MarkMessageSent fails while the list starts with another job of
      the same message and its campaign is open, the message can be sent a second time. */
  lemma LostMarkSendsAgain(cfg: Config, s: State, m: MessageId, next: ProviderId) returns (es: seq<Event>)
    requires Reachable(cfg, s) && m < |s.messages| && A.Window(s.worker, m)
    requires s.queue != [] && s.queue[0].message == m && Open(s, s.messages[m]) && next !in s.issued
    ensures |s.tally| == |s.messages| && m < |Run(cfg, s, es).tally|
    ensures Run(cfg, s, es).tally[m].sends == s.tally[m].sends + 1 >= 2
    ensures forall i :: 0 <= i < |es| ==> es[i].Work?
  {
    SentOnceBefore(cfg, s, m);
    LoseMark(cfg, s, m, next);
    var lost, send := Work(false, Accepted(next)), Work(true, Accepted(next));
    var t := Run(cfg, s, [lost]);
    var more := HeadReachesProvider(cfg, t, Accepted(next));
    RunConcat(cfg, s, [lost], more);
    Extend(cfg, s, [lost] + more, send);
    es := [lost] + more + [send];
    SendCounts(cfg, Run(cfg, t, more), s.queue[0], next);
  }

  lemma SentOnceBefore(cfg: Config, s: State, m: MessageId)
    requires Reachable(cfg, s) && m < |s.messages| && A.Window(s.worker, m)
    ensures |s.tally| == |s.messages| && |s.log| == |s.campaigns| && s.tally[m].sends >= 1
    ensures s.messages[m].campaign < |s.log|
  {
    G.InvHere(cfg, s);
    assert A.SendOk(s.messages[m], s.tally[m], A.Window(s.worker, m));
    assert Dir(s).owner[m] == s.messages[m].campaign;
  }

  lemma LoseMark(cfg: Config, s: State, m: MessageId, next: ProviderId)
    requires A.Window(s.worker, m) && m < |s.messages| == |s.tally|
    ensures var t := Run(cfg, s, [Work(false, Accepted(next))]);
            && t == s.(worker := Idle, tally := t.tally)
            && |t.tally| == |s.tally| && t.tally[m].sends == s.tally[m].sends
  {
    Extend(cfg, s, [], Work(false, Accepted(next)));
    assert [] + [Work(false, Accepted(next))] == [Work(false, Accepted(next))];
    LostLeavesSends(s, m);
  }

  lemma SendCounts(cfg: Config, s: State, job: Job, next: ProviderId)
    requires s.worker.Sending? && s.worker.job == job && job.message < |s.tally| && s.worker.item.campaign < |s.log|
    requires next !in s.issued
    ensures var t := Step(cfg, s, Work(true, Accepted(next)));
            |t.tally| == |s.tally| && t.tally[job.message].sends == s.tally[job.message].sends + 1
  {
  }

  lemma LostLeavesSends(s: State, m: MessageId)
    requires m < |s.tally|
    ensures LoseSend(s.tally, m)[m].sends == s.tally[m].sends && |LoseSend(s.tally, m)| == |s.tally|
  {
  }

  /** SendText can succeed twice: the first MarkMessageSent fails while a second job is in the list. */
  lemma SentTwice(cfg: Config, batch: int) returns (es: seq<Event>)
    ensures Permitted(cfg, batch, Init(0), es)
    ensures var s := Run(cfg, Init(0), es); |s.tally| > 0 && s.tally[0].sends == 2
  {
    hide Step, TwoCopies, Open, Permitted;
    PublishedTwice(cfg, batch);
    TwiceIsPermitted(cfg, batch);
    var twice := Twice(batch);
    var first := AcceptedFirst(cfg, Run(cfg, Init(0), twice));
    ThenWorks(cfg, batch, Init(0), twice, first);
    var second := LostMarkSendsAgain(cfg, Run(cfg, Init(0), twice + first), 0, "b");
    ThenWorks(cfg, batch, Init(0), twice + first, second);
    es := twice + first + second;
  }

  lemma AcceptedFirst(cfg: Config, s: State) returns (es: seq<Event>)
    requires TwoCopies(s)
    ensures var t := Run(cfg, s, es);
            && A.Window(t.worker, 0) && |t.messages| == 1 && |t.tally| == 1 && t.tally[0].sends == 1
            && t.queue == [ONLY_JOB] && Open(t, t.messages[0]) && "b" !in t.issued
    ensures forall i :: 0 <= i < |es| ==> es[i].Work?
  {
    var yes := Accepted("a");
    es := HeadReachesProvider(cfg, s, yes);
    var sending := Run(cfg, s, es);
    RecalculateStaysAwake(s.campaigns[0], sending.messages, 0);
    ProviderAccepts(cfg, sending, yes);
    ExtendWork(cfg, s, es, yes);
    es := es + [Work(true, yes)];
  }
}
