/** What every reachable state satisfies. */
module Invariants {
  import opened Basics
  import M = Messages
  import C = Campaigns
  import opened Protocol

  // ----------------------------------------------------- who belongs to whom

  /** The columns that never change once a row exists. */
  datatype Directory = Directory(owner: seq<CampaignId>, instance: seq<InstanceId>, total: seq<nat>,
                                 first: seq<MessageId>)

  ghost function Dir(s: State): Directory {
    Directory(seq(|s.messages|, m requires 0 <= m < |s.messages| => s.messages[m].campaign),
              seq(|s.campaigns|, c requires 0 <= c < |s.campaigns| => s.campaigns[c].instance),
              seq(|s.campaigns|, c requires 0 <= c < |s.campaigns| => s.campaigns[c].total),
              seq(|s.log|, c requires 0 <= c < |s.log| => s.log[c].first))
  }

  /** The rows of every campaign are the `total` >= 1 rows inserted with it. */
  ghost predicate DirOk(d: Directory) {
    && |d.first| == |d.total| == |d.instance|
    && (forall m :: 0 <= m < |d.owner| ==> d.owner[m] < |d.total|)
    && (forall c :: 0 <= c < |d.total| ==> d.total[c] >= 1 && d.first[c] + d.total[c] <= |d.owner|)
    && (forall m, c :: 0 <= m < |d.owner| && 0 <= c < |d.total| ==>
          (d.owner[m] == c <==> d.first[c] <= m < d.first[c] + d.total[c]))
  }

  ghost predicate RefersTo(d: Directory, j: Job) {
    && j.message < |d.owner| && j.campaign < |d.instance|
    && j.campaign == d.owner[j.message] && j.instance == d.instance[j.campaign]
  }

  /** One job for every row of `c`, none twice. */
  ghost predicate Covers(d: Directory, c: CampaignId, jobs: seq<Job>) {
    && (forall i :: 0 <= i < |jobs| ==> RefersTo(d, jobs[i]) && jobs[i].campaign == c)
    && Distinct(MessagesOf(jobs))
    && (forall m :: 0 <= m < |d.owner| && d.owner[m] == c ==> m in MessagesOf(jobs))
  }

  /** Some publish of the campaign has succeeded. */
  predicate Published(l: Log) {
    l.createPublishes + l.releasePublishes >= 1
  }

  ghost function Live(log: seq<Log>): set<CampaignId> {
    set c | 0 <= c < |log| && Published(log[c])
  }

  ghost predicate JobOk(d: Directory, live: set<CampaignId>, j: Job) {
    RefersTo(d, j) && j.campaign in live
  }

  ghost predicate JobsOk(d: Directory, live: set<CampaignId>, jobs: seq<Job>) {
    forall i :: 0 <= i < |jobs| ==> JobOk(d, live, jobs[i])
  }

  // ---------------------------------------------------------------- the rows

  ghost predicate RowsOk(ms: seq<M.Message>, clock: Time) {
    forall m :: 0 <= m < |ms| ==> M.RowOk(ms[m], clock)
  }

  /** No attempt is ever made for a campaign that was never published. */
  ghost predicate QuietOk(owner: seq<CampaignId>, live: set<CampaignId>, ms: seq<M.Message>)
    requires |owner| == |ms|
  {
    forall m :: 0 <= m < |ms| && ms[m].attempts > 0 ==> owner[m] in live
  }

  predicate CampaignOk(c: C.Campaign) {
    && !(c.releasedAt.Some? && c.cancelledAt.Some?)
    && (c.status.Scheduled? ==> c.mode.Later? && c.releasedAt.None?)
    && (c.releasedAt.Some? ==> c.mode.Later?)
  }

  ghost predicate CampaignsOk(cs: seq<C.Campaign>) {
    forall c :: 0 <= c < |cs| ==> CampaignOk(cs[c])
  }

  /** Provider ids identify rows. */
  ghost predicate ProvidersOk(ms: seq<M.Message>, issued: set<ProviderId>) {
    && (forall m :: 0 <= m < |ms| && ms[m].providerId.Some? ==> ms[m].providerId.value in issued)
    && (forall m, n :: 0 <= m < n < |ms| && ms[m].providerId.Some? ==> ms[m].providerId != ms[n].providerId)
  }

  ghost predicate Unused(ms: seq<M.Message>, id: ProviderId) {
    forall m :: 0 <= m < |ms| ==> ms[m].providerId != Some(id)
  }

  // -------------------------------------------------------------- the worker

  predicate HasItem(w: Worker) { !w.Idle? && !w.Popped? && !w.Requeue? }

  /** Holding a job that has not used an attempt yet. */
  predicate BeforeMark(w: Worker) { w.Popped? || w.Read? || w.Requeue? || w.Admitted? }

  predicate InFlight(w: Worker) { w.Marked? || w.Waiting? || w.Sending? || w.Answered? }

  predicate AfterMark(w: Worker) { InFlight(w) || w.Settled? || w.Rearm? }

  /** The row agrees with the worker's program counter and with the copy it read. */
  predicate ItemOk(cfg: Config, row: M.Message, w: Worker)
    requires HasItem(w)
  {
    && w.item.campaign == w.job.campaign
    && (w.Read? || w.Admitted? ==> !M.Dispatched(row.status) && row.attempts == w.item.attempts)
    && (InFlight(w) ==> row.status.Processing?)
    && (AfterMark(w) ==> row.attempts == w.item.attempts + 1)
    && ((w.Settled? && w.retry) || w.Rearm? ==> w.item.attempts + 1 < cfg.maxAttempts)
  }

  ghost predicate WorkerOk(cfg: Config, d: Directory, live: set<CampaignId>, ms: seq<M.Message>, w: Worker)
    requires |d.owner| == |ms|
  {
    !w.Idle? ==> JobOk(d, live, w.job) && (HasItem(w) ==> ItemOk(cfg, ms[w.job.message], w))
  }

  ghost predicate AnswerOk(ms: seq<M.Message>, issued: set<ProviderId>, w: Worker) {
    w.Answered? && w.answer.Accepted? ==> w.answer.id in issued && Unused(ms, w.answer.id)
  }

  // ---------------------------------------------------------- the publishers

  /** `ReleaseDueScheduled` still has to publish or revert `c`. */
  ghost predicate Claims(sch: Scheduler, c: CampaignId) {
    || (sch.Publishing? && exists k :: 0 <= k < |sch.claims| && sch.claims[k].campaign == c)
    || (sch.Reverting? && sch.campaign == c)
  }

  ghost predicate ClaimsOk(d: Directory, sch: Scheduler) {
    && (sch.Publishing? ==>
          && sch.claims != []
          && Distinct(Campaigns(sch.claims))
          && forall k :: 0 <= k < |sch.claims| ==>
               sch.claims[k].campaign < |d.total| && Covers(d, sch.claims[k].campaign, sch.claims[k].jobs))
    && (sch.Reverting? ==> sch.campaign < |d.total|)
  }

  /** How often `c` may have been published, and by whom. */
  predicate PublishOk(row: C.Campaign, l: Log, creating: bool, claimed: bool) {
    && l.createPublishes <= 1 && l.releasePublishes <= 1
    && (l.bornScheduled ==> l.createPublishes == 0 && !creating && row.mode.Later?)
    && (creating ==> l.createPublishes == 0)
    && (l.releasePublishes == 1 ==> row.releasedAt.Some?)
    && (claimed ==> row.releasedAt.Some? && l.releasePublishes == 0)
  }

  ghost predicate PublishesOk(cs: seq<C.Campaign>, log: seq<Log>, creating: set<CampaignId>, sch: Scheduler)
    requires |cs| == |log|
  {
    forall c :: 0 <= c < |cs| ==> PublishOk(cs[c], log[c], c in creating, Claims(sch, c))
  }

  ghost predicate Core(cfg: Config, s: State) {
    && |s.tally| == |s.messages| && |s.log| == |s.campaigns|
    && DirOk(Dir(s))
    && (forall c :: c in s.creating ==> c < |s.campaigns|)
    && RowsOk(s.messages, s.clock)
    && CampaignsOk(s.campaigns)
    && ProvidersOk(s.messages, s.issued)
    && QuietOk(Dir(s).owner, Live(s.log), s.messages)
    && JobsOk(Dir(s), Live(s.log), s.queue)
    && JobsOk(Dir(s), Live(s.log), s.timers)
    && JobsOk(Dir(s), Live(s.log), s.swept)
    && WorkerOk(cfg, Dir(s), Live(s.log), s.messages, s.worker)
    && AnswerOk(s.messages, s.issued, s.worker)
    && ClaimsOk(Dir(s), s.scheduler)
    && PublishesOk(s.campaigns, s.log, s.creating, s.scheduler)
  }

  // ------------------------------------------------------------- small facts

  lemma SameDirectory(s: State, t: State)
    requires |s.messages| == |t.messages| && |s.campaigns| == |t.campaigns| && |s.log| == |t.log|
    requires forall m :: 0 <= m < |s.messages| ==> t.messages[m].campaign == s.messages[m].campaign
    requires forall c :: 0 <= c < |s.campaigns| ==>
               t.campaigns[c].instance == s.campaigns[c].instance && t.campaigns[c].total == s.campaigns[c].total
    requires forall c :: 0 <= c < |s.log| ==> t.log[c].first == s.log[c].first
    ensures Dir(t) == Dir(s)
  {
  }

  /** A directory only ever grows. */
  ghost predicate Within(d: Directory, e: Directory) {
    d.owner <= e.owner && d.instance <= e.instance && d.total <= e.total && d.first <= e.first
  }

  lemma JobsGrow(d: Directory, e: Directory, live: set<CampaignId>, more: set<CampaignId>, jobs: seq<Job>)
    requires Within(d, e) && live <= more && JobsOk(d, live, jobs)
    ensures JobsOk(e, more, jobs)
  {
    forall i | 0 <= i < |jobs| ensures JobOk(e, more, jobs[i]) {
      assert JobOk(d, live, jobs[i]);
    }
  }

  lemma JobsAppend(d: Directory, live: set<CampaignId>, a: seq<Job>, b: seq<Job>)
    requires JobsOk(d, live, a) && JobsOk(d, live, b)
    ensures JobsOk(d, live, a + b)
  {
  }
}
