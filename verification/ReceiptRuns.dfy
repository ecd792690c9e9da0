/** Receipts among everything else: the status of a dispatched row is decided by the receipts marked for its id. */
module ReceiptRuns {
  import opened Basics
  import M = Messages
  import C = Campaigns
  import opened Protocol
  import opened Invariants
  import opened CoreSteps
  import opened Interleaving
  import opened Receipts
  import D = Delivery

  /** The receipt that a step marks, if it marks one. */
  function HookAt(s: State, e: Event): seq<Hook> {
    if e.TrackMark? && e.ok && e.track < |s.tracks| && s.tracks[e.track].ids != []
    then [Hook(s.tracks[e.track].receipt, s.tracks[e.track].ids[0], s.clock)]
    else []
  }

  /** The receipts marked by any Track call during the run, in order. */
  function HooksOf(cfg: Config, s: State, es: seq<Event>): seq<Hook> {
    if es == [] then []
    else HooksOf(cfg, s, es[..|es| - 1]) + HookAt(Run(cfg, s, es[..|es| - 1]), es[|es| - 1])
  }

  lemma SeenConcat(xs: seq<Hook>, ys: seq<Hook>, receipt: Receipt, id: ProviderId)
    ensures Seen(xs + ys, receipt, id) <==> Seen(xs, receipt, id) || Seen(ys, receipt, id)
  {
    if Seen(xs, receipt, id) {
      var i :| 0 <= i < |xs| && xs[i].receipt == receipt && xs[i].id == id;
      assert (xs + ys)[i] == xs[i];
    }
    if Seen(ys, receipt, id) {
      var i :| 0 <= i < |ys| && ys[i].receipt == receipt && ys[i].id == id;
      assert (xs + ys)[|xs| + i] == ys[i];
    }
  }

  lemma JoinedConcat(st: M.Status, xs: seq<Hook>, ys: seq<Hook>, id: ProviderId)
    ensures Joined(Joined(st, xs, id), ys, id) == Joined(st, xs + ys, id)
  {
    SeenConcat(xs, ys, ReadReceipt, id);
    SeenConcat(xs, ys, DeliveredReceipt, id);
  }

  /** When the id was reported for the first time. */
  function FirstTime(hooks: seq<Hook>, id: ProviderId): Option<Time> {
    if hooks == [] then None
    else
      var before, last := FirstTime(hooks[..|hooks| - 1], id), hooks[|hooks| - 1];
      if before.None? && last.id == id then Some(last.at) else before
  }

  /** When the id was reported as read for the last time. */
  function LastRead(hooks: seq<Hook>, id: ProviderId): Option<Time> {
    if hooks == [] then None
    else
      var last := hooks[|hooks| - 1];
      if last.id == id && last.receipt.ReadReceipt? then Some(last.at) else LastRead(hooks[..|hooks| - 1], id)
  }

  function Or<T>(a: Option<T>, b: Option<T>): Option<T> {
    if a.Some? then a else b
  }

  /** The row after the receipts: the status is the join, delivered_at the time of the first receipt, read_at that of
      the last one that says read, and nothing else has changed. */
  ghost predicate RowJoins(a: M.Message, hooks: seq<Hook>, b: M.Message) {
    && a.providerId.Some?
    && var id := a.providerId.value;
       b == a.(status := Joined(a.status, hooks, id), deliveredAt := Or(a.deliveredAt, FirstTime(hooks, id)),
               readAt := Or(LastRead(hooks, id), a.readAt))
  }

  lemma JoinsNothing(a: M.Message)
    requires a.providerId.Some?
    ensures RowJoins(a, [], a)
  {
  }

  lemma OneHook(s: State, e: Event)
    ensures |HookAt(s, e)| <= 1
  {
  }

  lemma JoinsCompose(a: M.Message, xs: seq<Hook>, b: M.Message, ys: seq<Hook>, c: M.Message)
    requires RowJoins(a, xs, b) && RowJoins(b, ys, c) && |ys| <= 1
    ensures RowJoins(a, xs + ys, c)
  {
    hide Joined;
    JoinedConcat(a.status, xs, ys, a.providerId.value);
    if ys == [] {
      assert xs + ys == xs;
    } else {
      var all, id := xs + ys, a.providerId.value;
      assert all[..|all| - 1] == xs && all[|all| - 1] == ys[0] && ys[..|ys| - 1] == [];
      assert FirstTime(all, id) == Or(FirstTime(xs, id), FirstTime(ys, id));
      assert LastRead(all, id) == Or(LastRead(ys, id), LastRead(xs, id));
    }
  }

  lemma MarkJoins(s: State, t: nat, ok: bool, m: MessageId)
    requires m < |s.messages| && s.messages[m].providerId.Some?
    ensures m < |DoTrackMark(s, t, ok).messages|
    ensures RowJoins(s.messages[m], HookAt(s, TrackMark(t, ok)), DoTrackMark(s, t, ok).messages[m])
  {
    hide RowJoins;
    JoinsNothing(s.messages[m]);
    if ok && t < |s.tracks| && s.tracks[t].ids != [] {
      OneJoins(s.messages[m], Hook(s.tracks[t].receipt, s.tracks[t].ids[0], s.clock));
    }
  }

  lemma OneJoins(row: M.Message, h: Hook)
    requires row.providerId.Some?
    ensures RowJoins(row, [h], if row.providerId == Some(h.id) then Receive(h.receipt, row, h.at) else row)
  {
    assert [h][0] == h && [h][..0] == [];
  }

  /** The worker writes only to rows that are not dispatched. */
  lemma WorksOnOthers(cfg: Config, s: State, m: MessageId)
    requires Core(cfg, s) && m < |s.messages| && s.messages[m].providerId.Some?
    requires s.worker.Admitted? || s.worker.Answered?
    ensures s.worker.job.message != m
  {
    assert M.RowOk(s.messages[m], s.clock);
  }

  lemma WorkKeepsDispatched(cfg: Config, s: State, ok: bool, answer: Answer, m: MessageId)
    requires Core(cfg, s) && m < |s.messages| && s.messages[m].providerId.Some?
    ensures var t := DoWork(cfg, s, ok, answer); m < |t.messages| && t.messages[m] == s.messages[m]
  {
    if s.worker.Admitted? || s.worker.Answered? {
      WorksOnOthers(cfg, s, m);
    }
    hide Core;
  }

  lemma SweepKeepsDispatched(cfg: Config, s: State, limit: int, picked: seq<MessageId>, m: MessageId)
    requires Core(cfg, s) && m < |s.messages| && s.messages[m].providerId.Some?
    ensures var t := DoClaimRetries(s, limit, picked); m < |t.messages| && t.messages[m] == s.messages[m]
  {
    assert M.RowOk(s.messages[m], s.clock);
    hide Core;
    assert m !in DueRetries(s.messages, s.campaigns, s.clock);
  }

  lemma KeepsId(a: M.Message, hooks: seq<Hook>, b: M.Message)
    requires RowJoins(a, hooks, b)
    ensures b.providerId.Some?
  {
  }

  lemma StepJoins(cfg: Config, s: State, e: Event, m: MessageId)
    requires Core(cfg, s) && m < |s.messages| && s.messages[m].providerId.Some?
    ensures var t := Step(cfg, s, e); m < |t.messages| && RowJoins(s.messages[m], HookAt(s, e), t.messages[m])
  {
    hide RowJoins, Core, DoWork, DoTrackMark, DoClaimRetries, CanClaimDue, ReleaseAll, DoClaimDue, DoRevert, DoCrash,
          DoPublishClaimed, DoPublishCreated, DoTrackRecalculate, DoRecalculate;
    JoinsNothing(s.messages[m]);
    match e
    case Work(ok, answer) => WorkKeepsDispatched(cfg, s, ok, answer, m);
    case TrackMark(t, ok) => MarkJoins(s, t, ok, m);
    case ClaimRetries(limit, picked) => SweepKeepsDispatched(cfg, s, limit, picked, m);
    case _ => OtherKeepsRow(cfg, s, e, m);
  }

  lemma OtherKeepsRow(cfg: Config, s: State, e: Event, m: MessageId)
    requires m < |s.messages| && !e.Work? && !e.TrackMark? && !e.ClaimRetries?
    ensures var t := Step(cfg, s, e); m < |t.messages| && t.messages[m] == s.messages[m]
  {
    hide CanClaimDue, ReleaseAll, Owed, C.Recalculate;
  }

  lemma {:induction false} RunJoins(cfg: Config, s: State, es: seq<Event>, m: MessageId)
    requires Core(cfg, s) && m < |s.messages| && s.messages[m].providerId.Some?
    ensures Core(cfg, Run(cfg, s, es))
    ensures var t := Run(cfg, s, es); m < |t.messages| && RowJoins(s.messages[m], HooksOf(cfg, s, es), t.messages[m])
    ensures Run(cfg, s, es).messages[m].providerId.Some?
  {
    hide Step, Core, RowJoins, HookAt;
    if es == [] {
      JoinsNothing(s.messages[m]);
    } else {
      var before := es[..|es| - 1];
      var t := Run(cfg, s, before);
      RunJoins(cfg, s, before, m);
      StepJoins(cfg, t, es[|es| - 1], m);
      KeepStep(cfg, t, es[|es| - 1]);
      OneHook(t, es[|es| - 1]);
      KeepsId(t.messages[m], HookAt(t, es[|es| - 1]), Step(cfg, t, es[|es| - 1]).messages[m]);
      JoinsCompose(s.messages[m], HooksOf(cfg, s, before), t.messages[m], HookAt(t, es[|es| - 1]),
                   Step(cfg, t, es[|es| - 1]).messages[m]);
    }
  }

  /** A row that is dispatched in a reachable state has, after any further run, the join of its status and of the
      receipts marked for its provider id meanwhile, with their times. Nothing but receipts ever touches it. */
  lemma StatusIsJoinOverRuns(cfg: Config, s: State, es: seq<Event>, m: MessageId)
    requires Reachable(cfg, s) && m < |s.messages| && M.Dispatched(s.messages[m].status)
    ensures var t := Run(cfg, s, es); var a, hooks := s.messages[m], HooksOf(cfg, s, es);
            && m < |t.messages| && a.providerId.Some?
            && t.messages[m].status == Joined(a.status, hooks, a.providerId.value)
            && t.messages[m].deliveredAt == Or(a.deliveredAt, FirstTime(hooks, a.providerId.value))
            && t.messages[m].readAt == Or(LastRead(hooks, a.providerId.value), a.readAt)
            && t.messages[m] == a.(status := t.messages[m].status, deliveredAt := t.messages[m].deliveredAt,
                                   readAt := t.messages[m].readAt)
  {
    hide Step;
    ReachableIsCore(cfg, s);
    assert M.RowOk(s.messages[m], s.clock);
    RunJoins(cfg, s, es, m);
  }

  /** Two runs that mark the same receipts, in any order and among any other steps, leave the same status. */
  lemma SameReceiptsSameStatus(cfg: Config, s: State, xs: seq<Event>, ys: seq<Event>, m: MessageId)
    requires Reachable(cfg, s) && m < |s.messages| && M.Dispatched(s.messages[m].status)
    requires SameReceipts(HooksOf(cfg, s, xs), HooksOf(cfg, s, ys))
    ensures m < |Run(cfg, s, xs).messages| && m < |Run(cfg, s, ys).messages|
    ensures Run(cfg, s, xs).messages[m].status == Run(cfg, s, ys).messages[m].status
  {
    hide Step, Reachable, HooksOf;
    StatusIsJoinOverRuns(cfg, s, xs, m);
    StatusIsJoinOverRuns(cfg, s, ys, m);
  }

  lemma {:induction false} CountsOfPrefix(ms: seq<M.Message>, n: nat, c: CampaignId)
    requires n <= |ms| && forall m :: n <= m < |ms| ==> ms[m].campaign != c
    ensures C.TrueCounts(ms, c) == C.TrueCounts(ms[..n], c)
  {
    if n == |ms| {
      assert ms[..n] == ms;
    } else {
      assert ms[..|ms| - 1][..n] == ms[..n];
      CountsOfPrefix(ms[..|ms| - 1], n, c);
    }
  }

  /** After the run only the rows that were there before belong to `c`. */
  lemma CountsOfOldRows(cfg: Config, s: State, es: seq<Event>, c: CampaignId)
    requires Core(cfg, s) && c < |s.campaigns|
    ensures var t := Run(cfg, s, es);
            |s.messages| <= |t.messages| && C.TrueCounts(t.messages, c) == C.TrueCounts(t.messages[..|s.messages|], c)
    ensures forall m :: 0 <= m < |s.messages| ==> Run(cfg, s, es).messages[m].campaign == s.messages[m].campaign
  {
    hide Step, Core;
    D.GrowsRun(cfg, s, es);
    CountsOfPrefix(Run(cfg, s, es).messages, |s.messages|, c);
  }

  /** A campaign whose rows are all dispatched: two runs that mark the same receipts lead to the same six counters at
      the next recalculation, whatever else happens in them. */
  lemma SameReceiptsSameCounts(cfg: Config, s: State, xs: seq<Event>, ys: seq<Event>, c: CampaignId)
    requires Reachable(cfg, s) && c < |s.campaigns|
    requires forall m :: 0 <= m < |s.messages| && s.messages[m].campaign == c ==> M.Dispatched(s.messages[m].status)
    requires SameReceipts(HooksOf(cfg, s, xs), HooksOf(cfg, s, ys))
    ensures C.TrueCounts(Run(cfg, s, xs).messages, c) == C.TrueCounts(Run(cfg, s, ys).messages, c)
  {
    hide Step, Reachable, HooksOf, SameReceipts, C.TrueCounts, Core;
    ReachableIsCore(cfg, s);
    CountsOfOldRows(cfg, s, xs, c);
    CountsOfOldRows(cfg, s, ys, c);
    var a, b := Run(cfg, s, xs).messages[..|s.messages|], Run(cfg, s, ys).messages[..|s.messages|];
    forall m | 0 <= m < |s.messages| && s.messages[m].campaign == c ensures a[m].status == b[m].status {
      SameReceiptsSameStatus(cfg, s, xs, ys, m);
    }
    C.CountsDependOnStatuses(a, b, c);
  }
}
