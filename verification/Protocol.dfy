/**
 The dispatch protocol as a state machine. One step is one SQL statement, one
 Redis command, one provider call, or one purely local decision; the worker,
 retry timers, retry sweeper, scheduler, HTTP requests and webhooks interleave
 freely. A step that is not enabled leaves the state unchanged.
 */
module Protocol {
  import opened Basics
  import M = Messages
  import C = Campaigns

  datatype Config = Config(maxAttempts: int, retryDelay: Time, permanent: string -> bool)

  /** `CampaignMessageJob`, without the recipient and text it copies. */
  datatype Job = Job(message: MessageId, campaign: CampaignId, instance: InstanceId, attempt: int)

  datatype Answer = Accepted(id: ProviderId) | Rejected(error: string)

  /** Where `handleJob` is. `item` is the row as GetMessageByID returned it. */
  datatype Worker =
    | Idle
    | Popped(job: Job)
    | Read(job: Job, item: M.Message)
    | Requeue(job: Job)
    | Admitted(job: Job, item: M.Message)
    | Marked(job: Job, item: M.Message)
    | Waiting(job: Job, item: M.Message)
    | Sending(job: Job, item: M.Message)
    | Answered(job: Job, item: M.Message, answer: Answer)
    | Settled(job: Job, item: M.Message, retry: bool)
    | Rearm(job: Job, item: M.Message)

  datatype Claimed = Claimed(campaign: CampaignId, jobs: seq<Job>)

  /** Where `ReleaseDueScheduled` is. */
  datatype Scheduler = Resting | Publishing(claims: seq<Claimed>) | Reverting(campaign: CampaignId)

  datatype Receipt = DeliveredReceipt | ReadReceipt

  /** An in-flight `Track` call: ids still to look up, campaigns still to recalculate. */
  datatype Track = Track(receipt: Receipt, ids: seq<ProviderId>, owed: set<CampaignId>)

  /** History of one message; never read by the program. */
  datatype Tally = Tally(sends: nat, lost: nat, rearms: nat, retryMarks: nat, sweeps: nat)

  /** History of one campaign; never read by the program. */
  datatype Log = Log(first: MessageId, bornScheduled: bool, createPublishes: nat, releasePublishes: nat,
                     batch: seq<MessageId>, sendCalls: nat)

  datatype State = State(
    clock: Time,
    messages: seq<M.Message>,
    campaigns: seq<C.Campaign>,
    queue: seq<Job>,
    timers: seq<Job>,
    swept: seq<Job>,
    creating: set<CampaignId>,
    scheduler: Scheduler,
    worker: Worker,
    tracks: seq<Track>,
    issued: set<ProviderId>,
    stale: set<CampaignId>,
    tally: seq<Tally>,
    log: seq<Log>)

  datatype Event =
    | Tick(to: Time)
    | Create(instance: InstanceId, at: Option<Time>, contacts: nat)
    | PublishCreated(campaign: CampaignId, ok: bool)
    | SetPaused(campaign: CampaignId, paused: bool)
    | Reschedule(campaign: CampaignId, when: Time)
    | CancelScheduled(campaign: CampaignId)
    | Recalculate(campaign: CampaignId)
    | ClaimDue(batchSize: int, claims: seq<Claimed>)
    | PublishClaimed(ok: bool)
    | RevertRelease(ok: bool)
    | ClaimRetries(limit: int, picked: seq<MessageId>)
    | RequeueSwept(ok: bool)
    | FireTimer(index: nat, ok: bool)
    | Work(ok: bool, answer: Answer)
    | TrackStart(receipt: Receipt, ids: seq<ProviderId>)
    | TrackMark(track: nat, ok: bool)
    | TrackRecalculate(track: nat, campaign: CampaignId, ok: bool)
    | Crash

  function Init(clock: Time): State {
    State(clock, [], [], [], [], [], {}, Resting, Idle, [], {}, {}, [], [])
  }

  // ------------------------------------------------------------ HTTP requests

  function Blank(n: nat): seq<Tally> {
    seq(n, _ => Tally(0, 0, 0, 0, 0))
  }

  function DoCreate(s: State, instance: InstanceId, at: Option<Time>, n: nat): State {
    if n == 0 then s
    else
      var c := |s.campaigns|;
      s.(messages := s.messages + C.FreshRows(c, n),
         tally := s.tally + Blank(n),
         campaigns := s.campaigns + [C.New(instance, at, n)],
         log := s.log + [Log(|s.messages|, at.Some?, 0, 0, [], 0)],
         creating := if at.Some? then s.creating else s.creating + {c})
  }

  /** The jobs `Create` built for the contacts, in contact order. */
  function CreatedJobs(s: State, c: CampaignId): seq<Job>
    requires c < |s.campaigns| && c < |s.log|
  {
    seq(s.campaigns[c].total, (i: nat) => Job(s.log[c].first + i, c, s.campaigns[c].instance, 0))
  }

  function MessagesOf(jobs: seq<Job>): seq<MessageId> {
    seq(|jobs|, i requires 0 <= i < |jobs| => jobs[i].message)
  }

  function DoPublishCreated(s: State, c: CampaignId, ok: bool): State {
    if c !in s.creating || c >= |s.campaigns| || c >= |s.log| then s
    else if !ok then s.(creating := s.creating - {c})
    else
      var jobs := CreatedJobs(s, c);
      s.(creating := s.creating - {c}, queue := s.queue + jobs,
         log := s.log[c := s.log[c].(createPublishes := s.log[c].createPublishes + 1, batch := MessagesOf(jobs))])
  }

  function SetCampaign(s: State, c: CampaignId, row: C.Campaign): State
    requires c < |s.campaigns|
  {
    s.(campaigns := s.campaigns[c := row])
  }

  /** `RecalculateCampaign`; with `ok` false the statement failed and the counters stay behind. */
  function DoRecalculate(s: State, c: CampaignId, ok: bool): State {
    if c >= |s.campaigns| then s
    else if !ok then s.(stale := s.stale + {c})
    else s.(campaigns := s.campaigns[c := C.Recalculate(s.campaigns[c], s.messages, c)], stale := s.stale - {c})
  }

  // ----------------------------------------------------- earliest-first batches

  /** LIMIT arguments below one fall back to a default. */
  function Effective(limit: int, default: nat): nat {
    if limit <= 0 then default else limit
  }

  /** ORDER BY the due time, LIMIT n: ties may be broken either way. */
  predicate EarliestBatch(picked: seq<nat>, due: map<nat, Time>, limit: nat) {
    && Distinct(picked)
    && (forall i :: 0 <= i < |picked| ==> picked[i] in due)
    && |picked| == Min(limit, |due|)
    && (forall i, q :: 0 <= i < |picked| && q in due && q !in picked ==> due[picked[i]] <= due[q])
  }

  function DueCampaigns(cs: seq<C.Campaign>, now: Time): map<nat, Time> {
    map c | 0 <= c < |cs| && C.Due(cs[c], now) :: cs[c].scheduledAt.value
  }

  predicate RetryDue(ms: seq<M.Message>, cs: seq<C.Campaign>, now: Time, m: MessageId)
    requires m < |ms|
  {
    && ms[m].status.Pending? && ms[m].nextRetryAt.Some? && ms[m].nextRetryAt.value <= now
    && ms[m].campaign < |cs| && !cs[ms[m].campaign].paused && cs[ms[m].campaign].cancelledAt.None?
  }

  function DueRetries(ms: seq<M.Message>, cs: seq<C.Campaign>, now: Time): map<nat, Time> {
    map m | 0 <= m < |ms| && RetryDue(ms, cs, now, m) :: ms[m].nextRetryAt.value
  }

  // ---------------------------------------------------------------- scheduler

  function Campaigns(claims: seq<Claimed>): seq<CampaignId> {
    seq(|claims|, i requires 0 <= i < |claims| => claims[i].campaign)
  }

  /** One job per row of `c`, in whatever order the query returned them. */
  predicate Lists(ms: seq<M.Message>, cs: seq<C.Campaign>, c: CampaignId, jobs: seq<Job>) {
    && c < |cs|
    && (forall i :: 0 <= i < |jobs| ==>
          && jobs[i].message < |ms| && ms[jobs[i].message].campaign == c
          && jobs[i] == Job(jobs[i].message, c, cs[c].instance, ms[jobs[i].message].attempts))
    && Distinct(MessagesOf(jobs))
    && (forall m :: 0 <= m < |ms| && ms[m].campaign == c ==> m in MessagesOf(jobs))
  }

  function ReleaseAll(cs: seq<C.Campaign>, picked: seq<CampaignId>, now: Time): seq<C.Campaign> {
    seq(|cs|, c requires 0 <= c < |cs| => if c in picked then C.Release(cs[c], now) else cs[c])
  }

  predicate CanClaimDue(s: State, batchSize: int, claims: seq<Claimed>) {
    && s.scheduler.Resting?
    && EarliestBatch(Campaigns(claims), DueCampaigns(s.campaigns, s.clock), Effective(batchSize, 25))
    && forall i :: 0 <= i < |claims| ==> Lists(s.messages, s.campaigns, claims[i].campaign, claims[i].jobs)
  }

  function NextClaims(claims: seq<Claimed>): Scheduler {
    if claims == [] then Resting else Publishing(claims)
  }

  function DoClaimDue(s: State, batchSize: int, claims: seq<Claimed>): State {
    if !CanClaimDue(s, batchSize, claims) then s
    else s.(campaigns := ReleaseAll(s.campaigns, Campaigns(claims), s.clock), scheduler := NextClaims(claims))
  }

  function DoPublishClaimed(s: State, ok: bool): State {
    if !s.scheduler.Publishing? || s.scheduler.claims == [] || s.scheduler.claims[0].campaign >= |s.log| then s
    else
      var h := s.scheduler.claims[0];
      var l := s.log[h.campaign];
      if !ok then s.(scheduler := Reverting(h.campaign))
      else s.(queue := s.queue + h.jobs, scheduler := NextClaims(s.scheduler.claims[1..]),
              log := s.log[h.campaign := l.(releasePublishes := l.releasePublishes + 1, batch := MessagesOf(h.jobs))])
  }

  function DoRevert(s: State, ok: bool): State {
    if !s.scheduler.Reverting? || s.scheduler.campaign >= |s.campaigns| then s
    else
      var c := s.scheduler.campaign;
      s.(scheduler := Resting, campaigns := if ok then s.campaigns[c := C.Revert(s.campaigns[c])] else s.campaigns)
  }

  // ------------------------------------------------------------ retry sweeper

  function Sweep(ms: seq<M.Message>, picked: seq<MessageId>): seq<M.Message> {
    seq(|ms|, m requires 0 <= m < |ms| => if m in picked then M.ClearRetry(ms[m]) else ms[m])
  }

  function CountSweep(ts: seq<Tally>, picked: seq<MessageId>): seq<Tally> {
    seq(|ts|, m requires 0 <= m < |ts| => if m in picked then ts[m].(sweeps := ts[m].sweeps + 1) else ts[m])
  }

  function SweptJob(ms: seq<M.Message>, cs: seq<C.Campaign>, m: MessageId): Job
    requires m < |ms| && ms[m].campaign < |cs|
  {
    Job(m, ms[m].campaign, cs[ms[m].campaign].instance, ms[m].attempts)
  }

  function SweptJobs(s: State, picked: seq<MessageId>): seq<Job>
    requires forall i :: 0 <= i < |picked| ==> picked[i] < |s.messages|
    requires forall i :: 0 <= i < |picked| ==> s.messages[picked[i]].campaign < |s.campaigns|
  {
    seq(|picked|, i requires 0 <= i < |picked| => SweptJob(s.messages, s.campaigns, picked[i]))
  }

  predicate CanClaimRetries(s: State, limit: int, picked: seq<MessageId>) {
    && s.swept == []
    && EarliestBatch(picked, DueRetries(s.messages, s.campaigns, s.clock), Effective(limit, 100))
  }

  function DoClaimRetries(s: State, limit: int, picked: seq<MessageId>): State {
    if !CanClaimRetries(s, limit, picked) then s
    else s.(messages := Sweep(s.messages, picked), tally := CountSweep(s.tally, picked), swept := SweptJobs(s, picked))
  }

  function DoRequeueSwept(s: State, ok: bool): State {
    if s.swept == [] then s
    else s.(swept := s.swept[1..], queue := if ok then s.queue + [s.swept[0]] else s.queue)
  }

  function DoFireTimer(s: State, i: nat, ok: bool): State {
    if i >= |s.timers| then s
    else s.(timers := s.timers[..i] + s.timers[i + 1..], queue := if ok then s.queue + [s.timers[i]] else s.queue)
  }

  // ------------------------------------------------------------------- worker

  /** `permanent` says which provider errors are final; every result below holds for any such test. */
  predicate ShouldRetry(cfg: Config, error: string, attempt: int) {
    attempt < cfg.maxAttempts && !cfg.permanent(error)
  }

  /** GetMessageByID and the status gate. */
  function DoLookup(s: State, job: Job, ok: bool): State {
    if !ok || job.message >= |s.messages| then s.(worker := Idle)
    else if M.Dispatched(s.messages[job.message].status) then s.(worker := Idle)
    else s.(worker := Read(job, s.messages[job.message]))
  }

  /** GetByID on the campaign and the two campaign gates. */
  function DoGate(s: State, job: Job, item: M.Message, ok: bool): State {
    if !ok || item.campaign >= |s.campaigns| then s.(worker := Idle)
    else
      var c := s.campaigns[item.campaign];
      if c.status.Scheduled? then s.(worker := Idle)
      else if c.paused || c.status.Paused? then s.(worker := Requeue(job))
      else s.(worker := Admitted(job, item))
  }

  function DoMark(s: State, job: Job, item: M.Message, ok: bool): State {
    if !ok || job.message >= |s.messages| then s.(worker := Idle)
    else s.(worker := Marked(job, item),
            messages := s.messages[job.message := M.MarkProcessing(s.messages[job.message])])
  }

  /** SendText. Provider ids are assumed never to be issued twice. */
  function DoSend(s: State, job: Job, item: M.Message, answer: Answer): State {
    if job.message >= |s.tally| || item.campaign >= |s.log| then s
    else
      var l := s.log[item.campaign];
      var called := s.(worker := Answered(job, item, answer),
                       log := s.log[item.campaign := l.(sendCalls := l.sendCalls + 1)]);
      match answer
      case Rejected(_) => called
      case Accepted(id) =>
        if id in s.issued then s
        else called.(issued := s.issued + {id},
                     tally := s.tally[job.message := s.tally[job.message].(sends := s.tally[job.message].sends + 1)])
  }

  function LoseSend(ts: seq<Tally>, m: MessageId): seq<Tally> {
    if m < |ts| then ts[m := ts[m].(lost := ts[m].lost + 1)] else ts
  }

  /** The write that follows the answer; errors of the two failure writes are ignored. */
  function DoSettle(cfg: Config, s: State, job: Job, item: M.Message, answer: Answer, ok: bool): State {
    if job.message >= |s.messages| || job.message >= |s.tally| then s
    else
      var row := s.messages[job.message];
      match answer
      case Accepted(id) =>
        if !ok then s.(worker := Idle, tally := LoseSend(s.tally, job.message))
        else s.(worker := Settled(job, item, false),
                messages := s.messages[job.message := M.MarkSent(row, id, s.clock)])
      case Rejected(error) =>
        var retry := ShouldRetry(cfg, error, item.attempts + 1);
        var next := s.(worker := Settled(job, item, retry));
        if !ok then next
        else if retry then
          var t := s.tally[job.message];
          next.(messages := s.messages[job.message := M.MarkPendingRetry(row, error, s.clock + cfg.retryDelay)],
                tally := s.tally[job.message := t.(retryMarks := t.retryMarks + 1)])
        else next.(messages := s.messages[job.message := M.MarkFailed(row, error, s.clock)])
  }

  /** `scheduleRetry`. */
  function DoRearm(s: State, job: Job): State {
    if job.message >= |s.tally| then s
    else
      var t := s.tally[job.message];
      s.(worker := Idle, timers := s.timers + [job.(attempt := job.attempt + 1)],
         tally := s.tally[job.message := t.(rearms := t.rearms + 1)])
  }

  /** BLPOP; an empty list or an error pops nothing. */
  function DoPop(s: State, ok: bool): State {
    if !ok || s.queue == [] then s else s.(worker := Popped(s.queue[0]), queue := s.queue[1..])
  }

  function DoRequeue(s: State, job: Job, ok: bool): State {
    s.(worker := Idle, queue := if ok then s.queue + [job] else s.queue)
  }

  function DoRecalculateThen(s: State, c: CampaignId, ok: bool, w: Worker): State {
    DoRecalculate(s, c, ok).(worker := w)
  }

  /** `waitForHumanCadence`; not ok when the context is cancelled meanwhile. */
  function DoWait(s: State, job: Job, item: M.Message, ok: bool): State {
    s.(worker := if ok then Sending(job, item) else Idle)
  }

  function DoWork(cfg: Config, s: State, ok: bool, answer: Answer): State {
    match s.worker
    case Idle => DoPop(s, ok)
    case Popped(job) => DoLookup(s, job, ok)
    case Read(job, item) => DoGate(s, job, item, ok)
    case Requeue(job) => DoRequeue(s, job, ok)
    case Admitted(job, item) => DoMark(s, job, item, ok)
    case Marked(job, item) => DoRecalculateThen(s, item.campaign, ok, Waiting(job, item))
    case Waiting(job, item) => DoWait(s, job, item, ok)
    case Sending(job, item) => DoSend(s, job, item, answer)
    case Answered(job, item, a) => DoSettle(cfg, s, job, item, a, ok)
    case Settled(job, item, retry) => DoRecalculateThen(s, item.campaign, ok, if retry then Rearm(job, item) else Idle)
    case Rearm(job, item) => DoRearm(s, job)
  }

  // ----------------------------------------------------------------- webhooks

  function Receive(receipt: Receipt, m: M.Message, now: Time): M.Message {
    match receipt
    case DeliveredReceipt => M.MarkDelivered(m, now)
    case ReadReceipt => M.MarkRead(m, now)
  }

  /** UPDATE ... WHERE provider_message_id = id. */
  function ReceiveAll(ms: seq<M.Message>, receipt: Receipt, id: ProviderId, now: Time): seq<M.Message> {
    seq(|ms|, m requires 0 <= m < |ms| => if ms[m].providerId == Some(id) then Receive(receipt, ms[m], now) else ms[m])
  }

  /** RETURNING campaign_id of the first updated row. */
  function Matched(ms: seq<M.Message>, id: ProviderId): Option<CampaignId> {
    if ms == [] then None
    else if ms[0].providerId == Some(id) then Some(ms[0].campaign)
    else Matched(ms[1..], id)
  }

  function DoTrackMark(s: State, t: nat, ok: bool): State {
    if t >= |s.tracks| || s.tracks[t].ids == [] then s
    else
      var track := s.tracks[t];
      if !ok then s.(stale := s.stale + track.owed, tracks := s.tracks[t := track.(ids := [], owed := {})])
      else
        var hit := Matched(s.messages, track.ids[0]);
        s.(messages := ReceiveAll(s.messages, track.receipt, track.ids[0], s.clock),
           tracks := s.tracks[t := track.(ids := track.ids[1..],
                                          owed := if hit.Some? then track.owed + {hit.value} else track.owed)])
  }

  function DoTrackRecalculate(s: State, t: nat, c: CampaignId, ok: bool): State {
    if t >= |s.tracks| || s.tracks[t].ids != [] || c !in s.tracks[t].owed then s
    else
      var track := s.tracks[t];
      if !ok then s.(stale := s.stale + track.owed, tracks := s.tracks[t := track.(owed := {})])
      else DoRecalculate(s, c, true).(tracks := s.tracks[t := track.(owed := track.owed - {c})])
  }

  // -------------------------------------------------------------------- crash

  predicate WorkerOwes(w: Worker, c: CampaignId) {
    (w.Marked? || w.Settled?) && w.item.campaign == c
  }

  /** Somebody still has to recalculate `c`. */
  predicate Owed(w: Worker, tracks: seq<Track>, c: CampaignId) {
    WorkerOwes(w, c) || exists t :: 0 <= t < |tracks| && c in tracks[t].owed
  }

  /** The process dies: only the tables and the Redis list survive. */
  function DoCrash(s: State): State {
    s.(timers := [], swept := [], creating := {}, scheduler := Resting, worker := Idle, tracks := [],
       stale := s.stale + (set c | 0 <= c < |s.campaigns| && Owed(s.worker, s.tracks, c)),
       tally := if s.worker.Answered? && s.worker.answer.Accepted? then LoseSend(s.tally, s.worker.job.message)
                else s.tally)
  }

  // --------------------------------------------------------------------- runs

  function Step(cfg: Config, s: State, e: Event): State {
    match e
    case Tick(to) => s.(clock := Max(s.clock, to))
    case Create(instance, at, n) => DoCreate(s, instance, at, n)
    case PublishCreated(c, ok) => DoPublishCreated(s, c, ok)
    case SetPaused(c, p) => if c < |s.campaigns| then SetCampaign(s, c, C.SetPaused(s.campaigns[c], p)) else s
    case Reschedule(c, at) => if c < |s.campaigns| then SetCampaign(s, c, C.Reschedule(s.campaigns[c], at)) else s
    case CancelScheduled(c) => if c < |s.campaigns| then SetCampaign(s, c, C.Cancel(s.campaigns[c], s.clock)) else s
    case Recalculate(c) => DoRecalculate(s, c, true)
    case ClaimDue(batchSize, claims) => DoClaimDue(s, batchSize, claims)
    case PublishClaimed(ok) => DoPublishClaimed(s, ok)
    case RevertRelease(ok) => DoRevert(s, ok)
    case ClaimRetries(limit, picked) => DoClaimRetries(s, limit, picked)
    case RequeueSwept(ok) => DoRequeueSwept(s, ok)
    case FireTimer(i, ok) => DoFireTimer(s, i, ok)
    case Work(ok, answer) => DoWork(cfg, s, ok, answer)
    case TrackStart(receipt, ids) => s.(tracks := s.tracks + [Track(receipt, ids, {})])
    case TrackMark(t, ok) => DoTrackMark(s, t, ok)
    case TrackRecalculate(t, c, ok) => DoTrackRecalculate(s, t, c, ok)
    case Crash => DoCrash(s)
  }

  function Run(cfg: Config, s: State, es: seq<Event>): State {
    if es == [] then s else Step(cfg, Run(cfg, s, es[..|es| - 1]), es[|es| - 1])
  }
}
