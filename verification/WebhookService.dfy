/** `WebhookService`: which receipt an event means, and the batch loop of `Track`. */
module WebhookService {
  import opened Basics
  import opened Text
  import opened Selections
  import M = Messages
  import C = Campaigns
  import opened Protocol
  import opened Invariants
  import opened Interleaving
  import opened Platform

  // ------------------------------------------------------ normalizeWebhookStatus

  function NormalizeStatus(event: string, status: string): Option<Receipt> {
    if Lower(Trim(status)) == "delivered" then Some(DeliveredReceipt)
    else if Lower(Trim(status)) == "read" then Some(ReadReceipt)
    else if Contains(Lower(Trim(event)), "read") then Some(ReadReceipt)
    else if Contains(Lower(Trim(event)), "deliver") then Some(DeliveredReceipt)
    else None
  }

  /** Which receipt a webhook means: the status decides if it is `delivered` or `read`, in any case and with any blanks
      around it; otherwise the event does, by a word that occurs in it, where `read` comes first. */
  lemma ReceiptMeans(event: string, status: string)
    ensures NormalizeStatus(event, status) == Some(ReadReceipt) <==>
              Spells(status, "read") || (!Spells(status, "delivered") && Holds(event, "read"))
    ensures NormalizeStatus(event, status) == Some(DeliveredReceipt) <==>
              || Spells(status, "delivered")
              || (!Spells(status, "read") && !Holds(event, "read") && Holds(event, "deliver"))
  {
    hide Trim, Lower, Spells, Holds, Contains;
    SpellsIff(status, "delivered");
    SpellsIff(status, "read");
    ContainsIffHolds(Trim(event), "read");
    ContainsIffHolds(Trim(event), "deliver");
    TrimKeepsWords(event, "read");
    TrimKeepsWords(event, "deliver");
  }

  predicate SameUpToCaseAndPadding(a: string, b: string, before: string, after: string) {
    IsBlank(before) && IsBlank(after) && Trimmed(a) && Trimmed(b) && Lower(a) == Lower(b)
  }

  /** Case and surrounding blanks of event and status do not matter, and a recognised status decides alone. */
  lemma NormalizeIgnoresPresentation(event: string, event': string, status: string, status': string,
                                     before: string, after: string)
    requires SameUpToCaseAndPadding(event, event', before, after)
             && SameUpToCaseAndPadding(status, status', before, after)
    ensures NormalizeStatus(before + event' + after, before + status' + after) == NormalizeStatus(event, status)
    ensures Lower(status) == "delivered" ==> NormalizeStatus(event, status) == Some(DeliveredReceipt)
    ensures Lower(status) == "read" ==> NormalizeStatus(event, status) == Some(ReadReceipt)
  {
    TrimUnpads(before, event', after);
    TrimUnpads(before, status', after);
    TrimUnpads("", event, "");
    TrimUnpads("", status, "");
    assert "" + event + "" == event && "" + status + "" == status;
  }

  // ------------------------------------------------------------------ the batch

  lemma {:induction false} IdsPrefix(raw: seq<string>, i: nat)
    requires i <= |raw|
    ensures Kept(raw[..i]) <= Kept(raw)
    decreases |raw|
  {
    if i == |raw| {
      assert raw[..i] == raw;
    } else {
      assert raw[..|raw| - 1][..i] == raw[..i];
      IdsPrefix(raw[..|raw| - 1], i);
    }
  }

  /** The next id of the loop, unless it is blank, is the first of those that are left. */
  lemma NextId(raw: seq<string>, i: nat)
    requires i < |raw|
    ensures var n := |Kept(raw[..i])|;
            && n <= |Kept(raw)|
            && if Trim(raw[i]) == "" then |Kept(raw[..i + 1])| == n
               else && |Kept(raw[..i + 1])| == n + 1 <= |Kept(raw)| && Kept(raw)[n..] != []
                       && Kept(raw)[n..][0] == Trim(raw[i])
                    && Kept(raw)[n..][1..] == Kept(raw)[n + 1..]
  {
    IdsStep(raw, i);
    IdsPrefix(raw, i);
    IdsPrefix(raw, i + 1);
    hide Kept, Trim;
    assert Kept(raw)[..|Kept(raw[..i + 1])|] == Kept(raw[..i + 1]);
  }

  lemma IdsStep(raw: seq<string>, i: nat)
    requires i < |raw|
    ensures Kept(raw[..i + 1]) == if Trim(raw[i]) == "" then Kept(raw[..i]) else Kept(raw[..i]) + [Trim(raw[i])]
  {
    assert raw[..i + 1][..i] == raw[..i];
  }

  // ------------------------------------------------------------------- Track

  datatype Result = Unsupported | Broken | Tracked(affected: set<CampaignId>, updated: nat)

  /** A call that still has to look up `ids` and to recalculate `owed`. */
  function Underway(receipt: Receipt, ids: seq<ProviderId>, owed: set<CampaignId>): Track {
    Track(receipt, ids, owed)
  }

  /** The mark of the next id by the Track call in slot `t`. */
  function Mark(t: nat): bool -> Event {
    ok => TrackMark(t, ok)
  }

  /** The others may do anything but play this Track call, or die. */
  predicate LeavesTrack(env: seq<Event>, t: nat) {
    forall i :: 0 <= i < |env| ==>
      && !env[i].Crash? && !(env[i].TrackMark? && env[i].track == t)
      && !(env[i].TrackRecalculate? && env[i].track == t)
  }

  /** The slot of the call is as it was, and no campaign is gone. */
  predicate SlotKept(s: State, t: nat, u: State) {
    t < |s.tracks| && t < |u.tracks| && u.tracks[t] == s.tracks[t] && |s.campaigns| <= |u.campaigns|
  }

  lemma OtherLeavesTrack(cfg: Config, s: State, e: Event, t: nat)
    requires t < |s.tracks| && !e.Crash?
    requires !(e.TrackMark? && e.track == t) && !(e.TrackRecalculate? && e.track == t)
    ensures SlotKept(s, t, Step(cfg, s, e))
  {
    hide CanClaimDue, CanClaimRetries, ReceiveAll, Sweep, CountSweep;
    if e.Work? {
      WorkLeavesTrack(cfg, s, e.ok, e.answer, t);
    }
  }

  lemma WorkLeavesTrack(cfg: Config, s: State, ok: bool, answer: Answer, t: nat)
    requires t < |s.tracks|
    ensures SlotKept(s, t, DoWork(cfg, s, ok, answer))
  {
    hide ShouldRetry, C.Recalculate;
  }

  lemma {:induction false} OthersLeaveTrack(cfg: Config, s: State, env: seq<Event>, t: nat)
    requires t < |s.tracks| && LeavesTrack(env, t)
    ensures SlotKept(s, t, Run(cfg, s, env))
  {
    hide Step;
    if env != [] {
      OthersLeaveTrack(cfg, s, env[..|env| - 1], t);
      OtherLeavesTrack(cfg, Run(cfg, s, env[..|env| - 1]), env[|env| - 1], t);
    }
  }

  /** The recalculations of the call in the order `order`: what the others do before each, and whether it succeeds. */
  function Recounts(t: nat, order: seq<CampaignId>, steps: seq<Push>): seq<Event>
    requires |order| <= |steps|
  {
    if order == [] then []
    else
      var n := |order| - 1;
      Recounts(t, order[..n], steps) + steps[n].env + [TrackRecalculate(t, order[n], steps[n].ok)]
  }

  /** The state after the recalculations from `s` is `u`. */
  ghost predicate Recounted(cfg: Config, s: State, t: nat, order: seq<CampaignId>, steps: seq<Push>, u: State)
    requires |order| <= |steps|
  {
    forall es :: es == Recounts(t, order, steps) ==> u == Run(cfg, s, es)
  }

  lemma OneMoreRecount(cfg: Config, s: State, t: nat, order: seq<CampaignId>, steps: seq<Push>, c: CampaignId, u: State)
    requires |order| < |steps| && Recounted(cfg, s, t, order, steps, u)
    ensures var mid := Run(cfg, u, steps[|order|].env);
            Recounted(cfg, s, t, order + [c], steps, DoTrackRecalculate(mid, t, c, steps[|order|].ok))
  {
    hide DoTrackRecalculate;
    assert (order + [c])[..|order|] == order;
    RunThen(cfg, s, Recounts(t, order, steps), steps[|order|].env, TrackRecalculate(t, c, steps[|order|].ok));
  }

  /** A Track call's effect, from the state `s` in which its slot was opened. */
  ghost predicate TrackRun(cfg: Config, s: State, t: nat, marks: seq<Push>, order: seq<CampaignId>, recounts: seq<Push>,
                           u: State)
    requires |order| <= |recounts|
  {
    exists marked :: Pushed(cfg, s, marks, Mark(t), |marks|, marked) && Recounted(cfg, marked, t, order, recounts, u)
  }

  /** How many of the marks matched a row, in the state each of them met. */
  ghost function Updated(cfg: Config, s: State, t: nat, marks: seq<Push>): nat {
    if marks == [] then 0
    else
      var n := |marks| - 1;
      var mid := Run(cfg, Run(cfg, s, Pushes(marks[..n], Mark(t))), marks[n].env);
      Updated(cfg, s, t, marks[..n]) + (if Matches(mid, t) then 1 else 0)
  }

  predicate Matches(s: State, t: nat) {
    t < |s.tracks| && s.tracks[t].ids != [] && Matched(s.messages, s.tracks[t].ids[0]).Some?
  }

  lemma MatchedIsKnown(cfg: Config, s: State, id: ProviderId)
    requires Core(cfg, s) && Matched(s.messages, id).Some?
    ensures Matched(s.messages, id).value < |s.campaigns|
  {
    MatchedIsOwned(s.messages, id);
    var m :| 0 <= m < |s.messages| && s.messages[m].campaign == Matched(s.messages, id).value;
    assert Dir(s).owner[m] == s.messages[m].campaign;
  }

  lemma {:induction false} MatchedIsOwned(ms: seq<M.Message>, id: ProviderId)
    ensures Matched(ms, id).Some? ==>
              exists m :: 0 <= m < |ms| && ms[m].providerId == Some(id) && ms[m].campaign == Matched(ms, id).value
  {
    if ms != [] && ms[0].providerId != Some(id) {
      MatchedIsOwned(ms[1..], id);
      if Matched(ms, id).Some? {
        var m :| 0 <= m < |ms[1..]| && ms[1..][m].providerId == Some(id)
          && ms[1..][m].campaign == Matched(ms, id).value;
        assert ms[m + 1] == ms[1..][m];
      }
    }
  }

  /** The state that a further mark of the call meets. */
  lemma OneMoreMark(cfg: Config, s: State, t: nat, marks: seq<Push>, n: nat, u: State)
    requires Reachable(cfg, s) && n < |marks| && LeavesTrack(marks[n].env, t)
    requires Pushed(cfg, s, marks, Mark(t), n, u) && t < |u.tracks| && u.tracks[t].ids != []
    ensures var mid := Run(cfg, u, marks[n].env);
            var hit := Matched(mid.messages, u.tracks[t].ids[0]);
            && Pushed(cfg, s, marks, Mark(t), n + 1, DoTrackMark(mid, t, marks[n].ok)) && SlotKept(u, t, mid)
            && (hit.Some? ==> hit.value < |mid.campaigns|)
            && Updated(cfg, s, t, marks[..n + 1]) == Updated(cfg, s, t, marks[..n]) + (if hit.Some? then 1 else 0)
  {
    hide Step, DoTrackMark;
    var mid := Run(cfg, u, marks[n].env);
    OneMorePush(cfg, s, marks, Mark(t), n);
    MarkIsStep(cfg, mid, t, marks[n].ok);
    OthersLeaveTrack(cfg, u, marks[n].env, t);
    StillReachable(cfg, s, Pushes(marks[..n], Mark(t)));
    StillReachable(cfg, u, marks[n].env);
    ReachableIsCore(cfg, mid);
    assert marks[..n + 1][..n] == marks[..n];
    if Matched(mid.messages, u.tracks[t].ids[0]).Some? {
      MatchedIsKnown(cfg, mid, u.tracks[t].ids[0]);
    }
    hide Reachable, Core;
  }

  lemma MarkIsStep(cfg: Config, s: State, t: nat, ok: bool)
    ensures Step(cfg, s, Mark(t)(ok)) == DoTrackMark(s, t, ok)
  {
  }

  /** After the ids of `raw[..i]`, `n` of which are not blank: what the call holds, and where the machine is. */
  ghost predicate Marking(cfg: Config, opening: State, t: nat, receipt: Receipt, raw: seq<string>, marks: seq<Push>,
                          i: nat, n: nat, campaignIds: set<CampaignId>, updated: nat, v: State)
  {
    && i <= |raw| == |marks| && n <= i && n == |Kept(raw[..i])| <= |Kept(raw)| && |campaignIds| <= n
    && (forall j :: 0 <= j < n ==> marks[j].ok)
    && updated == Updated(cfg, opening, t, marks[..n])
    && Pushed(cfg, opening, marks, Mark(t), n, v)
    && t < |v.tracks| && v.tracks[t] == Underway(receipt, Kept(raw)[n..], campaignIds)
    && (forall c :: c in campaignIds ==> c < |v.campaigns|)
  }

  /** The `n`th mark failed, all before it did not. */
  ghost predicate Stopped(cfg: Config, opening: State, t: nat, receipt: Receipt, raw: seq<string>, marks: seq<Push>,
                          n: nat, v: State)
  {
    && 0 < n <= |marks| && n <= |Kept(raw)| && !marks[n - 1].ok && (forall j :: 0 <= j < n - 1 ==> marks[j].ok)
    && Pushed(cfg, opening, marks, Mark(t), n, v)
    && t < |v.tracks| && v.tracks[t] == Underway(receipt, [], {})
  }

  lemma NothingMarkedYet(cfg: Config, opening: State, t: nat, receipt: Receipt, raw: seq<string>, marks: seq<Push>)
    requires |marks| == |raw| && t < |opening.tracks| && opening.tracks[t] == Underway(receipt, Kept(raw), {})
    ensures Marking(cfg, opening, t, receipt, raw, marks, 0, 0, {}, 0, opening)
  {
    hide Step;
    NoPushYet(cfg, opening, marks, Mark(t));
    assert Kept(raw[..0]) == [] && Kept(raw)[0..] == Kept(raw);
  }

  lemma BlankId(cfg: Config, opening: State, t: nat, receipt: Receipt, raw: seq<string>, marks: seq<Push>, i: nat,
                n: nat, campaignIds: set<CampaignId>, updated: nat, v: State)
    requires i < |raw| && Trim(raw[i]) == ""
    requires Marking(cfg, opening, t, receipt, raw, marks, i, n, campaignIds, updated, v)
    ensures Marking(cfg, opening, t, receipt, raw, marks, i + 1, n, campaignIds, updated, v)
  {
    hide Pushed, Updated;
    NextId(raw, i);
  }

  lemma AllMarked(cfg: Config, opening: State, t: nat, receipt: Receipt, raw: seq<string>, marks: seq<Push>, n: nat,
                  campaignIds: set<CampaignId>, updated: nat, v: State)
    requires Marking(cfg, opening, t, receipt, raw, marks, |raw|, n, campaignIds, updated, v)
    ensures n == |Kept(raw)| <= |marks| && |campaignIds| <= n && (forall j :: 0 <= j < n ==> marks[j].ok)
    ensures updated == Updated(cfg, opening, t, marks[..n]) && Pushed(cfg, opening, marks, Mark(t), n, v)
    ensures t < |v.tracks| && v.tracks[t] == Underway(receipt, [], campaignIds)
    ensures forall c :: c in campaignIds ==> c < |v.campaigns|
  {
    hide Pushed, Updated;
    assert raw[..|raw|] == raw;
    assert Kept(raw)[|Kept(raw)|..] == [];
  }

  /** The mark of a further id, made in the state `mid`. */
  lemma OneIdMarked(cfg: Config, opening: State, t: nat, receipt: Receipt, raw: seq<string>, marks: seq<Push>, i: nat,
                    n: nat, campaignIds: set<CampaignId>, updated: nat, v: State, mid: State)
    requires i < |raw| && Trim(raw[i]) != "" && n < |marks|
    requires Marking(cfg, opening, t, receipt, raw, marks, i, n, campaignIds, updated, v) && SlotKept(v, t, mid)
    requires Pushed(cfg, opening, marks, Mark(t), n + 1, DoTrackMark(mid, t, marks[n].ok))
    requires var hit := Matched(mid.messages, Trim(raw[i]));
             && (hit.Some? ==> hit.value < |mid.campaigns|)
             && Updated(cfg, opening, t, marks[..n + 1])
                == Updated(cfg, opening, t, marks[..n]) + (if hit.Some? then 1 else 0)
    ensures var w := DoTrackMark(mid, t, marks[n].ok);
            var hit := Matched(mid.messages, Trim(raw[i]));
            if marks[n].ok then
              Marking(cfg, opening, t, receipt, raw, marks, i + 1, n + 1,
                      if hit.Some? then campaignIds + {hit.value} else campaignIds,
                      if hit.Some? then updated + 1 else updated, w)
            else Stopped(cfg, opening, t, receipt, raw, marks, n + 1, w)
  {
    hide Pushed, Updated, Kept, Trim, Matched, ReceiveAll;
    NextId(raw, i);
  }

  /** After the recalculations of `order`, with those of `rest` to follow. */
  ghost predicate Recounting(cfg: Config, marked: State, t: nat, receipt: Receipt, campaignIds: set<CampaignId>,
                             order: seq<CampaignId>, recounts: seq<Push>, rest: set<CampaignId>, v: State)
  {
    && Distinct(order) && Elements(order) == campaignIds - rest && rest <= campaignIds && |order| + |rest| <= |recounts|
    && Recounted(cfg, marked, t, order, recounts, v)
    && (forall j :: 0 <= j < |order| ==> recounts[j].ok)
    && t < |v.tracks| && v.tracks[t] == Underway(receipt, [], rest)
    && (forall c :: c in campaignIds ==> c < |v.campaigns|)
  }

  /** The last recalculation of `order` failed, and ended the call. */
  ghost predicate RecountFailed(cfg: Config, marked: State, t: nat, receipt: Receipt, campaignIds: set<CampaignId>,
                                order: seq<CampaignId>, recounts: seq<Push>, v: State)
  {
    && Distinct(order) && Elements(order) <= campaignIds && 0 < |order| <= |recounts| && !recounts[|order| - 1].ok
    && Recounted(cfg, marked, t, order, recounts, v)
    && (forall j :: 0 <= j < |order| - 1 ==> recounts[j].ok)
    && t < |v.tracks| && v.tracks[t] == Underway(receipt, [], {})
  }

  lemma NothingRecounted(cfg: Config, marked: State, t: nat, receipt: Receipt, campaignIds: set<CampaignId>,
                         recounts: seq<Push>)
    requires |campaignIds| <= |recounts| && t < |marked.tracks|
             && marked.tracks[t] == Underway(receipt, [], campaignIds)
    requires forall c :: c in campaignIds ==> c < |marked.campaigns|
    ensures Recounting(cfg, marked, t, receipt, campaignIds, [], recounts, campaignIds, marked)
  {
  }

  lemma OneRecounted(cfg: Config, marked: State, t: nat, receipt: Receipt, campaignIds: set<CampaignId>,
                     order: seq<CampaignId>, recounts: seq<Push>, rest: set<CampaignId>, c: CampaignId, v: State,
                     mid: State)
    requires c in rest && Recounting(cfg, marked, t, receipt, campaignIds, order, recounts, rest, v)
    requires SlotKept(v, t, mid) && |order| < |recounts|
    requires Recounted(cfg, marked, t, order + [c], recounts, DoTrackRecalculate(mid, t, c, recounts[|order|].ok))
    ensures var w := DoTrackRecalculate(mid, t, c, recounts[|order|].ok);
            if recounts[|order|].ok then
              Recounting(cfg, marked, t, receipt, campaignIds, order + [c], recounts, rest - {c}, w)
            else RecountFailed(cfg, marked, t, receipt, campaignIds, order + [c], recounts, w)
  {
    hide Recounted;
    OneMoreElement(order, c);
    assert |rest| == |rest - {c}| + 1;
  }

  lemma OneMoreElement(order: seq<CampaignId>, c: CampaignId)
    ensures Elements(order + [c]) == Elements(order) + {c}
    ensures Distinct(order) && c !in Elements(order) ==> Distinct(order + [c])
  {
    assert forall i :: 0 <= i < |order| ==> (order + [c])[i] == order[i];
  }

  /** What a Track call does that opened the slot `t`, whatever the others do meanwhile: it marks the first `issued` of
      its ids and, if no mark fails, recalculates the campaigns `order`. The first failing statement ends it. It
      succeeds exactly if no statement fails; then it reports the campaigns it recalculated and the number of ids that
      matched. */
  ghost predicate Outcome(cfg: Config, opening: State, t: nat, receipt: Receipt, ids: seq<ProviderId>, marks: seq<Push>,
                          recounts: seq<Push>, result: Result, issued: nat, order: seq<CampaignId>, v: State)
  {
    && issued <= |ids| && issued <= |marks| && |order| <= |recounts| && Distinct(order)
    && TrackRun(cfg, opening, t, marks[..issued], order, recounts, v)
    && (forall j :: 0 <= j < issued - 1 ==> marks[j].ok)
    && (forall j :: 0 <= j < |order| - 1 ==> recounts[j].ok)
    && (order != [] ==> issued == |ids| && (issued > 0 ==> marks[issued - 1].ok))
    && (result.Broken? ==> if order == [] then issued > 0 && !marks[issued - 1].ok else !recounts[|order| - 1].ok)
    && (result.Tracked? ==>
          && issued == |ids| && (issued > 0 ==> marks[issued - 1].ok)
          && (order != [] ==> recounts[|order| - 1].ok)
          && result == Tracked(Elements(order), Updated(cfg, opening, t, marks[..issued])))
    && t < |v.tracks| && v.tracks[t] == Underway(receipt, [], {})
  }

  lemma MarkedPrefix(cfg: Config, opening: State, t: nat, marks: seq<Push>, n: nat, v: State)
    requires n <= |marks| && Pushed(cfg, opening, marks, Mark(t), n, v)
    ensures Pushed(cfg, opening, marks[..n], Mark(t), |marks[..n]|, v)
  {
    hide Step;
    assert marks[..n][..n] == marks[..n];
  }

  lemma StoppedOutcome(cfg: Config, opening: State, t: nat, receipt: Receipt, raw: seq<string>, marks: seq<Push>,
                       recounts: seq<Push>, issued: nat, v: State)
    requires Stopped(cfg, opening, t, receipt, raw, marks, issued, v)
    ensures Outcome(cfg, opening, t, receipt, Kept(raw), marks, recounts, Broken, issued, [], v)
  {
    hide Step, Pushed, Kept, Updated;
    MarkedPrefix(cfg, opening, t, marks, issued, v);
    assert Recounted(cfg, v, t, [], recounts, v);
  }

  lemma RecountedOutcome(cfg: Config, opening: State, t: nat, receipt: Receipt, raw: seq<string>, marks: seq<Push>,
                         recounts: seq<Push>, issued: nat, campaignIds: set<CampaignId>, updated: nat, marked: State,
                         order: seq<CampaignId>, broken: bool, v: State)
    requires Marking(cfg, opening, t, receipt, raw, marks, |raw|, issued, campaignIds, updated, marked)
    requires broken ==> RecountFailed(cfg, marked, t, receipt, campaignIds, order, recounts, v)
    requires !broken ==> Recounting(cfg, marked, t, receipt, campaignIds, order, recounts, {}, v)
    ensures Outcome(cfg, opening, t, receipt, Kept(raw), marks, recounts,
                    if broken then Broken else Tracked(campaignIds, updated), issued, order, v)
  {
    hide Step, Pushed, Recounted, Kept, Updated, Marking;
    AllMarked(cfg, opening, t, receipt, raw, marks, issued, campaignIds, updated, marked);
    MarkedPrefix(cfg, opening, t, marks, issued, marked);
  }

  class WebhookService {
    const world: World
    const cfg: Config

    constructor (world: World, cfg: Config)
      ensures this.world == world && this.cfg == cfg
    {
      this.world, this.cfg := world, cfg;
    }

    /** `Track`; `marks` and `recounts` say what the others do before its statements and which of them fail. `issued` is
        the number of marks it makes and `order` the campaigns it recalculates, in the order the map yields them. */
    method Track(event: string, status: string, raw: seq<string>, marks: seq<Push>, recounts: seq<Push>)
      returns (result: Result, issued: nat, order: seq<CampaignId>)
      requires Reachable(cfg, world.View()) && |marks| == |recounts| == |raw|
      requires forall i :: 0 <= i < |marks| ==>
                 LeavesTrack(marks[i].env, |world.View().tracks|) && LeavesTrack(recounts[i].env, |world.View().tracks|)
      modifies world, world.repository, world.redis
      ensures result.Unsupported? <==> NormalizeStatus(event, status).None?
      ensures result.Unsupported? ==> world.View() == old(world.View())
      ensures !result.Unsupported? ==>
                var receipt, ids, t := NormalizeStatus(event, status).value, Kept(raw), |old(world.View().tracks)|;
                var opening := Step(cfg, old(world.View()), TrackStart(receipt, ids));
                Outcome(cfg, opening, t, receipt, ids, marks, recounts, result, issued, order, world.View())
    {
      hide Step, Run, Reachable, Marking, Stopped, Recounting, RecountFailed, Outcome, LeavesTrack, Kept;
      var receipt := NormalizeStatus(event, status);
      if receipt.None? {
        return Unsupported, 0, [];
      }
      var t := Open(receipt.value, Kept(raw));
      ghost var opening := world.View();
      var campaignIds, updated, broken;
      campaignIds, updated, issued, broken := MarkAll(opening, t, receipt.value, raw, marks);
      ghost var marked := world.View();
      if broken {
        StoppedOutcome(cfg, opening, t, receipt.value, raw, marks, recounts, issued, marked);
        return Broken, issued, [];
      }
      AllMarked(cfg, opening, t, receipt.value, raw, marks, issued, campaignIds, updated, marked);
      order, broken := RecalculateEach(marked, t, receipt.value, campaignIds, recounts);
      result := if broken then Broken else Tracked(campaignIds, updated);
      RecountedOutcome(cfg, opening, t, receipt.value, raw, marks, recounts, issued, campaignIds, updated, marked,
                       order, broken, world.View());
    }

    /** The call begins: its slot holds the ids still to look up. */
    method Open(receipt: Receipt, ids: seq<ProviderId>) returns (t: nat)
      requires Reachable(cfg, world.View())
      modifies world`memory
      ensures world.View() == Step(cfg, old(world.View()), TrackStart(receipt, ids)) && t == |old(world.View().tracks)|
      ensures t < |world.View().tracks| && world.View().tracks[t] == Underway(receipt, ids, {})
      ensures Reachable(cfg, world.View())
    {
      OneStepReachable(cfg, world.View(), TrackStart(receipt, ids));
      t := |world.memory.tracks|;
      world.Note(Step(cfg, world.View(), TrackStart(receipt, ids)));
    }

    /** The loop over the message ids. */
    method MarkAll(ghost opening: State, t: nat, receipt: Receipt, raw: seq<string>, marks: seq<Push>)
      returns (campaignIds: set<CampaignId>, updated: nat, issued: nat, broken: bool)
      requires Reachable(cfg, opening) && world.View() == opening && |marks| == |raw|
      requires t < |opening.tracks| && opening.tracks[t] == Underway(receipt, Kept(raw), {})
      requires forall i :: 0 <= i < |marks| ==> LeavesTrack(marks[i].env, t)
      modifies world, world.repository, world.redis
      ensures if broken then Stopped(cfg, opening, t, receipt, raw, marks, issued, world.View())
              else Marking(cfg, opening, t, receipt, raw, marks, |raw|, issued, campaignIds, updated, world.View())
    {
      campaignIds, updated, issued, broken := {}, 0, 0, false;
      NothingMarkedYet(cfg, opening, t, receipt, raw, marks);
      hide Marking, Stopped, Run, Reachable, Updated, Pushed, Kept, Trim;
      for i := 0 to |raw|
        invariant Marking(cfg, opening, t, receipt, raw, marks, i, issued, campaignIds, updated, world.View())
        invariant !broken
      {
        var id := Trim(raw[i]);
        if id != "" {
          var campaign, failed := MarkOne(opening, t, receipt, raw, marks, i, issued, campaignIds, updated);
          issued := issued + 1;
          if failed {
            broken := true;
            return;
          }
          if campaign.Some? {
            updated := updated + 1;
            campaignIds := campaignIds + {campaign.value};
          }
        } else {
          BlankId(cfg, opening, t, receipt, raw, marks, i, issued, campaignIds, updated, world.View());
        }
      }
    }

    /** One iteration with an id that is not blank. */
    method MarkOne(ghost opening: State, t: nat, receipt: Receipt, raw: seq<string>, marks: seq<Push>, i: nat, n: nat,
                   ghost campaignIds: set<CampaignId>, ghost updated: nat)
      returns (campaign: Option<CampaignId>, failed: bool)
      requires Reachable(cfg, opening) && i < |raw| == |marks| && Trim(raw[i]) != ""
      requires forall k :: 0 <= k < |marks| ==> LeavesTrack(marks[k].env, t)
      requires Marking(cfg, opening, t, receipt, raw, marks, i, n, campaignIds, updated, world.View())
      modifies world, world.repository, world.redis
      ensures failed ==> Stopped(cfg, opening, t, receipt, raw, marks, n + 1, world.View())
      ensures !failed ==>
                Marking(cfg, opening, t, receipt, raw, marks, i + 1, n + 1,
                        if campaign.Some? then campaignIds + {campaign.value} else campaignIds,
                        if campaign.Some? then updated + 1 else updated, world.View())
    {
      hide Step, Reachable, Updated, DoTrackMark;
      var id := Trim(raw[i]);
      NextId(raw, i);
      ghost var v := world.View();
      OneMoreMark(cfg, opening, t, marks, n, v);
      world.Others(cfg, marks[n].env);
      ghost var mid := world.View();
      campaign, failed := MarkNow(t, receipt, id, marks[n].ok);
      OneIdMarked(cfg, opening, t, receipt, raw, marks, i, n, campaignIds, updated, v, mid);
    }

    method MarkNow(t: nat, receipt: Receipt, id: ProviderId, ok: bool)
      returns (campaign: Option<CampaignId>, failed: bool)
      requires t < |world.View().tracks| && world.View().tracks[t].receipt == receipt
      requires world.View().tracks[t].ids != [] && world.View().tracks[t].ids[0] == id
      modifies world, world.repository
      ensures failed == !ok && (ok ==> campaign == Matched(old(world.View().messages), id))
      ensures world.View() == DoTrackMark(old(world.View()), t, ok)
    {
      var before := world.View();
      match receipt {
        case DeliveredReceipt =>
          campaign, failed := world.repository.MarkMessageDeliveredByProviderID(id, ok);
        case ReadReceipt =>
          campaign, failed := world.repository.MarkMessageReadByProviderID(id, ok);
      }
      world.Note(DoTrackMark(before, t, ok));
    }

    /** The loop over the touched campaigns, in the order the map yields them. */
    method RecalculateEach(ghost marked: State, t: nat, receipt: Receipt, campaignIds: set<CampaignId>,
                           recounts: seq<Push>)
      returns (order: seq<CampaignId>, broken: bool)
      requires world.View() == marked && |campaignIds| <= |recounts|
      requires t < |marked.tracks| && marked.tracks[t] == Underway(receipt, [], campaignIds)
      requires forall c :: c in campaignIds ==> c < |marked.campaigns|
      requires forall i :: 0 <= i < |recounts| ==> LeavesTrack(recounts[i].env, t)
      modifies world, world.repository, world.redis
      ensures broken ==> RecountFailed(cfg, marked, t, receipt, campaignIds, order, recounts, world.View())
      ensures !broken ==> Recounting(cfg, marked, t, receipt, campaignIds, order, recounts, {}, world.View())
    {
      order, broken := [], false;
      var rest := campaignIds;
      NothingRecounted(cfg, marked, t, receipt, campaignIds, recounts);
      hide Recounting, RecountFailed, LeavesTrack;
      while rest != {}
        invariant Recounting(cfg, marked, t, receipt, campaignIds, order, recounts, rest, world.View()) && !broken
        decreases |rest|
      {
        var c :| c in rest;
        broken := RecountOne(marked, t, receipt, campaignIds, order, rest, c, recounts);
        order, rest := order + [c], rest - {c};
        if broken {
          return;
        }
      }
    }

    /** One iteration: `RecalculateCampaign` for one touched campaign. */
    method RecountOne(ghost marked: State, t: nat, receipt: Receipt, ghost campaignIds: set<CampaignId>,
                      order: seq<CampaignId>, ghost rest: set<CampaignId>, c: CampaignId, recounts: seq<Push>)
      returns (failed: bool)
      requires c in rest && Recounting(cfg, marked, t, receipt, campaignIds, order, recounts, rest, world.View())
      requires forall i :: 0 <= i < |recounts| ==> LeavesTrack(recounts[i].env, t)
      modifies world, world.repository, world.redis
      ensures failed ==> RecountFailed(cfg, marked, t, receipt, campaignIds, order + [c], recounts, world.View())
      ensures !failed ==>
                Recounting(cfg, marked, t, receipt, campaignIds, order + [c], recounts, rest - {c}, world.View())
    {
      hide Step, DoTrackRecalculate;
      ghost var v := world.View();
      var n := |order|;
      OneMoreRecount(cfg, marked, t, order, recounts, c, v);
      OthersLeaveTrack(cfg, v, recounts[n].env, t);
      world.Others(cfg, recounts[n].env);
      ghost var mid := world.View();
      failed := RecountNow(t, c, recounts[n].ok);
      OneRecounted(cfg, marked, t, receipt, campaignIds, order, recounts, rest, c, v, mid);
    }

    method RecountNow(t: nat, c: CampaignId, ok: bool) returns (failed: bool)
      requires t < |world.View().tracks| && world.View().tracks[t].ids == [] && c in world.View().tracks[t].owed
      requires c < |world.View().campaigns|
      modifies world, world.repository
      ensures failed == !ok && world.View() == DoTrackRecalculate(old(world.View()), t, c, ok)
    {
      var before := world.View();
      failed := world.repository.RecalculateCampaign(c, ok);
      world.Note(DoTrackRecalculate(before, t, c, ok));
    }
  }
}
