/** Messages of one publish get their first attempt in publish order. */
module Fifo {
  import opened Basics
  import M = Messages
  import C = Campaigns
  import opened Protocol
  import opened Invariants
  import opened CoreSteps
  import opened NoLostWork

  predicate Fresh(ms: seq<M.Message>, m: MessageId) {
    m < |ms| && ms[m].attempts == 0
  }

  /** Holding a job that will use an attempt unless a gate or an error stops it. */
  predicate InLine(w: Worker) {
    w.Popped? || w.Read? || w.Admitted?
  }

  /** The jobs that have not used an attempt, in the order the worker will reach them. */
  function Line(w: Worker, queue: seq<Job>): seq<Job> {
    if InLine(w) then [w.job] + queue else queue
  }

  /** The history of `x`, also before it exists. */
  function Entry(log: seq<Log>, x: CampaignId): Log {
    if x < |log| then log[x] else Log(0, false, 0, 0, [], 0)
  }

  ghost predicate Precedes(batch: seq<MessageId>, a: MessageId, b: MessageId) {
    exists p, q :: 0 <= p < q < |batch| && batch[p] == a && batch[q] == b
  }

  /** Whatever of `x` stands before a never-attempted message of `x` was published before it. */
  ghost predicate LineOk(ms: seq<M.Message>, batch: seq<MessageId>, line: seq<Job>, x: CampaignId) {
    forall i, j :: 0 <= i < j < |line| && line[i].campaign == line[j].campaign == x && Fresh(ms, line[j].message) ==>
      Precedes(batch, line[i].message, line[j].message)
  }

  /** Every never-attempted message of `x` is in line. */
  ghost predicate Listed(ms: seq<M.Message>, line: seq<Job>, x: CampaignId) {
    forall m :: 0 <= m < |ms| && ms[m].campaign == x && ms[m].attempts == 0 ==> Carries(line, m)
  }

  ghost predicate BatchOf(ms: seq<M.Message>, x: CampaignId, batch: seq<MessageId>) {
    && Distinct(batch)
    && (forall p :: 0 <= p < |batch| ==> batch[p] < |ms| && ms[batch[p]].campaign == x)
    && (forall m :: 0 <= m < |ms| && ms[m].campaign == x ==> m in batch)
  }

  /** First attempts respect the order of the batch. */
  ghost predicate InOrder(ms: seq<M.Message>, batch: seq<MessageId>) {
    forall p, q :: 0 <= p < q < |batch| && Fresh(ms, batch[p]) ==> Fresh(ms, batch[q])
  }

  /** Jobs of `x` come back only for messages that were attempted. */
  ghost predicate Attempted(ms: seq<M.Message>, jobs: seq<Job>, x: CampaignId) {
    forall i :: 0 <= i < |jobs| && jobs[i].campaign == x ==> !Fresh(ms, jobs[i].message)
  }

  predicate Bounced(ms: seq<M.Message>, w: Worker, x: CampaignId) {
    w.Requeue? && w.job.campaign == x ==> !Fresh(ms, w.job.message)
  }

  predicate BornOk(cs: seq<C.Campaign>, log: seq<Log>, x: CampaignId) {
    x < |cs| ==> (cs[x].mode.Later? <==> Entry(log, x).bornScheduled)
  }

  /** What holds of the line once `x` is published. */
  ghost predicate InTurn(ms: seq<M.Message>, batch: seq<MessageId>, line: seq<Job>, x: CampaignId) {
    LineOk(ms, batch, line, x) && Listed(ms, line, x) && BatchOf(ms, x, batch) && InOrder(ms, batch)
  }

  ghost predicate Ordered(s: State, x: CampaignId) {
    && (Published(Entry(s.log, x)) ==> InTurn(s.messages, Entry(s.log, x).batch, Line(s.worker, s.queue), x))
    && Attempted(s.messages, s.timers, x) && Attempted(s.messages, s.swept, x)
    && Bounced(s.messages, s.worker, x) && BornOk(s.campaigns, s.log, x)
  }

  ghost predicate Given(cfg: Config, s: State, x: CampaignId) {
    Core(cfg, s) && Ordered(s, x)
  }

  // -------------------------------------------------------------- the frame

  /** Nothing that the order of `x` depends on has changed. */
  ghost predicate SameOrder(s: State, t: State, x: CampaignId) {
    && |t.messages| == |s.messages|
    && (forall m :: 0 <= m < |s.messages| ==>
          t.messages[m].campaign == s.messages[m].campaign && t.messages[m].attempts == s.messages[m].attempts)
    && Published(Entry(t.log, x)) == Published(Entry(s.log, x)) && Entry(t.log, x).batch == Entry(s.log, x).batch
    && Line(t.worker, t.queue) == Line(s.worker, s.queue)
  }

  ghost predicate Returning(t: State, x: CampaignId) {
    && Attempted(t.messages, t.timers, x) && Attempted(t.messages, t.swept, x)
    && Bounced(t.messages, t.worker, x) && BornOk(t.campaigns, t.log, x)
  }

  lemma KeepOrder(s: State, t: State, x: CampaignId)
    requires Ordered(s, x) && SameOrder(s, t, x) && Returning(t, x)
    ensures Ordered(t, x)
  {
  }

  lemma LineRefers(cfg: Config, s: State, j: nat)
    requires Core(cfg, s) && j < |Line(s.worker, s.queue)|
    ensures JobOk(Dir(s), Live(s.log), Line(s.worker, s.queue)[j])
  {
  }

  /** Jobs in line are those of rows that exist, of their own campaign. */
  ghost predicate Refers(ms: seq<M.Message>, line: seq<Job>) {
    forall j :: 0 <= j < |line| ==> line[j].message < |ms| && ms[line[j].message].campaign == line[j].campaign
  }

  lemma LineRefersAll(cfg: Config, s: State)
    requires Core(cfg, s)
    ensures Refers(s.messages, Line(s.worker, s.queue))
  {
    var line := Line(s.worker, s.queue);
    forall j | 0 <= j < |line|
      ensures line[j].message < |s.messages| && s.messages[line[j].message].campaign == line[j].campaign
    {
      LineRefers(cfg, s, j);
      assert Dir(s).owner[line[j].message] == line[j].campaign;
    }
  }

  // ---------------------------------------------------------------- publishes

  /** Rows of other campaigns may be added behind. */
  lemma InsertRows(ms: seq<M.Message>, ms': seq<M.Message>, batch: seq<MessageId>, line: seq<Job>, x: CampaignId)
    requires InTurn(ms, batch, line, x) && Refers(ms, line) && ms <= ms'
    requires forall m :: |ms| <= m < |ms'| ==> ms'[m].campaign != x
    ensures InTurn(ms', batch, line, x)
  {
  }

  lemma OrderCreate(cfg: Config, s: State, instance: InstanceId, at: Option<Time>, n: nat, x: CampaignId)
    requires Given(cfg, s, x)
    ensures Ordered(DoCreate(s, instance, at, n), x)
  {
    var t := DoCreate(s, instance, at, n);
    LineRefersAll(cfg, s);
    CreateKeepsReturning(cfg, s, instance, at, n, x);
    hide Core;
    if n > 0 && Published(Entry(t.log, x)) {
      hide InTurn;
      InsertRows(s.messages, t.messages, Entry(s.log, x).batch, Line(s.worker, s.queue), x);
    }
  }

  lemma CreateKeepsReturning(cfg: Config, s: State, instance: InstanceId, at: Option<Time>, n: nat, x: CampaignId)
    requires Given(cfg, s, x)
    ensures Returning(DoCreate(s, instance, at, n), x)
  {
    forall i | 0 <= i < |s.timers| ensures s.timers[i].message < |s.messages| {
      assert JobOk(Dir(s), Live(s.log), s.timers[i]);
    }
    forall i | 0 <= i < |s.swept| ensures s.swept[i].message < |s.messages| {
      assert JobOk(Dir(s), Live(s.log), s.swept[i]);
    }
  }

  /** `t` is `s` after the jobs of `c` joined the tail. */
  ghost predicate Publish(s: State, c: CampaignId, jobs: seq<Job>, l: Log, t: State) {
    && c < |s.log| && Covers(Dir(s), c, jobs)
    && Published(l) && l.batch == MessagesOf(jobs) && l.bornScheduled == s.log[c].bornScheduled
    && t.messages == s.messages && t.log == s.log[c := l] && t.campaigns == s.campaigns
    && t.queue == s.queue + jobs && t.worker == s.worker && t.timers == s.timers && t.swept == s.swept
  }

  /** The same when `c` was not published before. */
  ghost predicate FirstPublish(cfg: Config, s: State, c: CampaignId, jobs: seq<Job>, l: Log, t: State) {
    Core(cfg, s) && Publish(s, c, jobs, l, t) && !Published(s.log[c])
  }

  lemma PublishLine(cfg: Config, s: State, c: CampaignId, jobs: seq<Job>, l: Log, t: State)
    requires FirstPublish(cfg, s, c, jobs, l, t)
    ensures LineOk(t.messages, l.batch, Line(t.worker, t.queue), c)
  {
    hide Core;
    var before, line := Line(s.worker, s.queue), Line(t.worker, t.queue);
    assert line == before + jobs;
    forall i | 0 <= i < |before| ensures before[i].campaign != c {
      LineRefers(cfg, s, i);
    }
    forall i, j | 0 <= i < j < |line| && line[i].campaign == line[j].campaign == c && Fresh(t.messages, line[j].message)
      ensures Precedes(l.batch, line[i].message, line[j].message)
    {
      assert i >= |before| && j >= |before|;
      assert l.batch[i - |before|] == line[i].message && l.batch[j - |before|] == line[j].message;
    }
  }

  lemma PublishListed(cfg: Config, s: State, c: CampaignId, jobs: seq<Job>, l: Log, t: State)
    requires FirstPublish(cfg, s, c, jobs, l, t)
    ensures Listed(t.messages, Line(t.worker, t.queue), c)
  {
    var before, line := Line(s.worker, s.queue), Line(t.worker, t.queue);
    assert line == before + jobs;
    forall m | 0 <= m < |t.messages| && t.messages[m].campaign == c ensures Carries(line, m) {
      CarriesAppend(before, jobs, m);
      CoveredIsCarried(Dir(s), c, jobs, m);
    }
  }

  lemma PublishBatch(cfg: Config, s: State, c: CampaignId, jobs: seq<Job>, l: Log, t: State)
    requires FirstPublish(cfg, s, c, jobs, l, t)
    ensures BatchOf(t.messages, c, l.batch) && InOrder(t.messages, l.batch)
  {
    UnpublishedIsFresh(cfg, s, c);
    hide Core;
    forall p | 0 <= p < |l.batch| ensures l.batch[p] < |t.messages| && t.messages[l.batch[p]].campaign == c {
      assert RefersTo(Dir(s), jobs[p]);
    }
    forall m | 0 <= m < |t.messages| && t.messages[m].campaign == c ensures m in l.batch {
      assert Dir(s).owner[m] == c;
    }
  }

  lemma UnpublishedIsFresh(cfg: Config, s: State, c: CampaignId)
    requires Core(cfg, s) && c < |s.log| && !Published(s.log[c])
    ensures forall m :: 0 <= m < |s.messages| && s.messages[m].campaign == c ==> s.messages[m].attempts == 0
  {
    forall m | 0 <= m < |s.messages| && s.messages[m].campaign == c ensures s.messages[m].attempts == 0 {
      assert Dir(s).owner[m] == c && c !in Live(s.log);
    }
  }

  /** Jobs that are of other campaigns, or of attempted messages, may join the tail. */
  lemma JoinTail(ms: seq<M.Message>, batch: seq<MessageId>, line: seq<Job>, more: seq<Job>, x: CampaignId)
    requires InTurn(ms, batch, line, x) && Attempted(ms, more, x)
    ensures InTurn(ms, batch, line + more, x)
  {
    forall m | Carries(line, m) ensures Carries(line + more, m) {
      CarriesAppend(line, more, m);
    }
  }

  lemma PublishOther(s: State, c: CampaignId, jobs: seq<Job>, l: Log, t: State, x: CampaignId)
    requires Publish(s, c, jobs, l, t) && Ordered(s, x) && c != x
    ensures Ordered(t, x)
  {
    assert Line(t.worker, t.queue) == Line(s.worker, s.queue) + jobs;
    if Published(Entry(s.log, x)) {
      JoinTail(s.messages, Entry(s.log, x).batch, Line(s.worker, s.queue), jobs, x);
    }
    hide InTurn;
  }

  /** The campaign whose order is followed is published once only, the others any number of times. */
  lemma OrderPublish(cfg: Config, s: State, c: CampaignId, jobs: seq<Job>, l: Log, t: State, x: CampaignId)
    requires Core(cfg, s) && Publish(s, c, jobs, l, t) && Ordered(s, x) && (c == x ==> !Published(s.log[c]))
    ensures Ordered(t, x)
  {
    hide Core;
    if c == x {
      PublishLine(cfg, s, c, jobs, l, t);
      PublishListed(cfg, s, c, jobs, l, t);
      PublishBatch(cfg, s, c, jobs, l, t);
    } else {
      PublishOther(s, c, jobs, l, t, x);
    }
    hide LineOk, Listed, BatchOf, InOrder;
  }

  lemma CreatingIsFirst(cfg: Config, s: State, x: CampaignId)
    requires Given(cfg, s, x) && x < |s.log| && (x in s.creating || Claims(s.scheduler, x))
    ensures !Published(s.log[x])
  {
    assert PublishOk(s.campaigns[x], s.log[x], x in s.creating, Claims(s.scheduler, x));
    assert CampaignOk(s.campaigns[x]);
  }

  lemma OrderPublishCreated(cfg: Config, s: State, c: CampaignId, ok: bool, x: CampaignId)
    requires Given(cfg, s, x)
    ensures Ordered(DoPublishCreated(s, c, ok), x)
  {
    var t := DoPublishCreated(s, c, ok);
    if c in s.creating && ok {
      CreatedJobsRefer(s, c);
      if c == x {
        CreatingIsFirst(cfg, s, x);
      }
      hide Core;
      OrderPublish(cfg, s, c, CreatedJobs(s, c), t.log[c], t, x);
    }
    hide Core, InTurn;
  }

  lemma OrderPublishClaimed(cfg: Config, s: State, ok: bool, x: CampaignId)
    requires Given(cfg, s, x)
    ensures Ordered(DoPublishClaimed(s, ok), x)
  {
    var t := DoPublishClaimed(s, ok);
    if s.scheduler.Publishing? && ok {
      var h := s.scheduler.claims[0];
      assert Claims(s.scheduler, h.campaign) && Covers(Dir(s), h.campaign, h.jobs);
      if h.campaign == x {
        CreatingIsFirst(cfg, s, x);
      }
      hide Core;
      OrderPublish(cfg, s, h.campaign, h.jobs, t.log[h.campaign], t, x);
    }
    hide Core, InTurn;
  }

  // ------------------------------------------------------- jobs that come back

  lemma OrderAppend(s: State, j: Job, t: State, x: CampaignId)
    requires Ordered(s, x) && Attempted(s.messages, [j], x)
    requires t.messages == s.messages && t.log == s.log
    requires Line(t.worker, t.queue) == Line(s.worker, s.queue) + [j]
    requires Returning(t, x)
    ensures Ordered(t, x)
  {
    if Published(Entry(s.log, x)) {
      JoinTail(s.messages, Entry(s.log, x).batch, Line(s.worker, s.queue), [j], x);
    }
    hide InTurn;
  }

  lemma OrderFireTimer(s: State, i: nat, ok: bool, x: CampaignId)
    requires Ordered(s, x)
    ensures Ordered(DoFireTimer(s, i, ok), x)
  {
    if i < |s.timers| && ok {
      var t := DoFireTimer(s, i, ok);
      assert Line(t.worker, t.queue) == Line(s.worker, s.queue) + [s.timers[i]];
      OrderAppend(s, s.timers[i], t, x);
    }
    hide InTurn;
  }

  lemma OrderRequeueSwept(s: State, ok: bool, x: CampaignId)
    requires Ordered(s, x)
    ensures Ordered(DoRequeueSwept(s, ok), x)
  {
    if s.swept != [] && ok {
      var t := DoRequeueSwept(s, ok);
      assert Line(t.worker, t.queue) == Line(s.worker, s.queue) + [s.swept[0]];
      OrderAppend(s, s.swept[0], t, x);
    }
    hide InTurn;
  }

  lemma OrderRequeue(s: State, job: Job, ok: bool, x: CampaignId)
    requires Ordered(s, x) && s.worker == Requeue(job)
    ensures Ordered(DoRequeue(s, job, ok), x)
  {
    if ok {
      OrderAppend(s, job, DoRequeue(s, job, ok), x);
    }
    hide InTurn;
  }

  lemma OrderClaimRetries(cfg: Config, s: State, limit: int, picked: seq<MessageId>, x: CampaignId)
    requires Given(cfg, s, x)
    ensures Ordered(DoClaimRetries(s, limit, picked), x)
  {
    if CanClaimRetries(s, limit, picked) {
      var t := DoClaimRetries(s, limit, picked);
      forall i | 0 <= i < |picked| ensures picked[i] < |s.messages| && s.messages[picked[i]].attempts > 0 {
        PickedIsDue(s, picked, limit, picked[i]);
        assert M.RowOk(s.messages[picked[i]], s.clock);
      }
      hide Core, CanClaimRetries, Ordered;
      OrderSweep(s, t, picked, x);
    }
  }

  lemma OrderSweep(s: State, t: State, picked: seq<MessageId>, x: CampaignId)
    requires Ordered(s, x) && forall i :: 0 <= i < |picked| ==>
               picked[i] < |s.messages| && s.messages[picked[i]].attempts > 0
    requires t == s.(messages := Sweep(s.messages, picked), tally := t.tally, swept := t.swept)
    requires MessagesOf(t.swept) == picked
    ensures Ordered(t, x)
  {
    forall i | 0 <= i < |t.swept| ensures !Fresh(t.messages, t.swept[i].message) {
      assert t.swept[i].message == MessagesOf(t.swept)[i];
    }
    KeepOrder(s, t, x);
  }

  // ------------------------------------------------------------ leaving the line

  /** The head leaves the line, being of another campaign or its message having been attempted. */
  lemma DropHead(ms: seq<M.Message>, batch: seq<MessageId>, line: seq<Job>, x: CampaignId)
    requires line != [] && InTurn(ms, batch, line, x) && Refers(ms, line) && Attempted(ms, line[..1], x)
    ensures InTurn(ms, batch, line[1..], x)
  {
    var rest := line[1..];
    assert line[..1][0] == line[0];
    forall i, j | 0 <= i < j < |rest| && rest[i].campaign == rest[j].campaign == x && Fresh(ms, rest[j].message)
      ensures Precedes(batch, rest[i].message, rest[j].message)
    {
      assert rest[i] == line[i + 1] && rest[j] == line[j + 1];
    }
    forall m | 0 <= m < |ms| && ms[m].campaign == x && ms[m].attempts == 0 ensures Carries(rest, m) {
      var i :| 0 <= i < |line| && line[i].message == m;
      assert rest[i - 1].message == m;
    }
  }

  /** Dropping the head of the line. */
  lemma OrderDrop(cfg: Config, s: State, w: Worker, x: CampaignId)
    requires Given(cfg, s, x) && InLine(s.worker) && !InLine(w) && Attempted(s.messages, [s.worker.job], x)
    requires w.Requeue? ==> w.job == s.worker.job
    ensures Ordered(s.(worker := w), x)
  {
    var line := Line(s.worker, s.queue);
    assert line[1..] == s.queue && line[..1] == [s.worker.job];
    assert w.Requeue? ==> w.job == [s.worker.job][0];
    LineRefersAll(cfg, s);
    hide Core;
    if Published(Entry(s.log, x)) {
      DropHead(s.messages, Entry(s.log, x).batch, line, x);
    }
    hide InTurn;
  }

  /** The worker holds a never-attempted job of `x` before its attempt. */
  predicate HoldsFresh(s: State, x: CampaignId) {
    InLine(s.worker) && s.worker.job.campaign == x && Fresh(s.messages, s.worker.job.message)
  }

  lemma OrderPop(s: State, ok: bool, x: CampaignId)
    requires Ordered(s, x) && s.worker.Idle?
    ensures Ordered(DoPop(s, ok), x)
  {
    var t := DoPop(s, ok);
    assert Line(t.worker, t.queue) == s.queue;
    hide InTurn;
  }

  lemma OrderLookup(cfg: Config, s: State, job: Job, ok: bool, x: CampaignId)
    requires Given(cfg, s, x) && s.worker == Popped(job) && (ok || !HoldsFresh(s, x))
    ensures Ordered(DoLookup(s, job, ok), x)
  {
    var t := DoLookup(s, job, ok);
    assert M.RowOk(s.messages[job.message], s.clock);
    if t.worker.Idle? {
      OrderDrop(cfg, s, Idle, x);
    }
    hide Core, InTurn;
  }

  predicate Bounces(s: State) {
    && s.worker.Read? && s.worker.item.campaign < |s.campaigns|
    && (s.campaigns[s.worker.item.campaign].paused || s.campaigns[s.worker.item.campaign].status.Paused?)
  }

  /** A published campaign that was not rescheduled is never found scheduled here. */
  lemma NotScheduledAtGate(cfg: Config, s: State, job: Job, item: M.Message, x: CampaignId)
    requires Given(cfg, s, x) && s.worker == Read(job, item) && job.campaign == x
    ensures item.campaign == x < |s.campaigns| && !s.campaigns[x].status.Scheduled?
  {
    assert CampaignOk(s.campaigns[x]);
    assert PublishOk(s.campaigns[x], s.log[x], x in s.creating, Claims(s.scheduler, x));
    assert Published(s.log[x]);
  }

  lemma OrderGate(cfg: Config, s: State, job: Job, item: M.Message, ok: bool, x: CampaignId)
    requires Given(cfg, s, x) && s.worker == Read(job, item) && (HoldsFresh(s, x) ==> ok && !Bounces(s))
    ensures Ordered(DoGate(s, job, item, ok), x)
  {
    var t := DoGate(s, job, item, ok);
    if job.campaign == x {
      NotScheduledAtGate(cfg, s, job, item, x);
    }
    if !t.worker.Admitted? {
      OrderDrop(cfg, s, t.worker, x);
    }
    hide Core, InTurn;
  }

  // --------------------------------------------------------- the first attempt

  /** An attempt of a row of another campaign. */
  lemma MarkOther(ms: seq<M.Message>, ms': seq<M.Message>, batch: seq<MessageId>, line: seq<Job>, x: CampaignId)
    requires InTurn(ms, batch, line, x) && Refers(ms, line) && |ms'| == |ms|
    requires forall m :: 0 <= m < |ms| ==> ms'[m].campaign == ms[m].campaign
    requires forall m :: 0 <= m < |ms| && ms[m].campaign == x ==> ms'[m].attempts == ms[m].attempts
    ensures InTurn(ms', batch, line, x)
  {
  }

  /** The head of the line gets its attempt: whatever stands behind it is still in line, in order. */
  lemma MarkLine(ms: seq<M.Message>, ms': seq<M.Message>, batch: seq<MessageId>, line: seq<Job>, x: CampaignId)
    requires line != [] && LineOk(ms, batch, line, x) && Listed(ms, line, x) && line[0].campaign == x
    requires |ms'| == |ms| && line[0].message < |ms| && ms'[line[0].message].attempts > 0
    requires forall m :: 0 <= m < |ms| && m != line[0].message ==> ms'[m] == ms[m]
    requires ms'[line[0].message].campaign == ms[line[0].message].campaign
    ensures LineOk(ms', batch, line[1..], x) && Listed(ms', line[1..], x)
  {
    var rest := line[1..];
    forall i, j | 0 <= i < j < |rest| && rest[i].campaign == rest[j].campaign == x && Fresh(ms', rest[j].message)
      ensures Precedes(batch, rest[i].message, rest[j].message)
    {
      assert rest[i] == line[i + 1] && rest[j] == line[j + 1];
      assert Fresh(ms, line[j + 1].message);
    }
    forall m | 0 <= m < |ms'| && ms'[m].campaign == x && ms'[m].attempts == 0 ensures Carries(rest, m) {
      var i :| 0 <= i < |line| && line[i].message == m;
      assert rest[i - 1].message == m;
    }
  }

  /** Nobody published before it is still waiting for a first attempt. */
  lemma EarlierIsDone(ms: seq<M.Message>, batch: seq<MessageId>, line: seq<Job>, x: CampaignId, p: nat, q: nat)
    requires line != [] && InTurn(ms, batch, line, x) && Refers(ms, line) && line[0].campaign == x
    requires p < q < |batch| && batch[q] == line[0].message
    ensures !Fresh(ms, batch[p])
  {
    NotBoth(batch, p, q);
    forall j | 0 <= j < |line| && line[j].message == batch[p] ensures !Fresh(ms, batch[p]) {
      HeadPrecedes(ms, batch, line, x, j);
    }
  }

  lemma HeadPrecedes(ms: seq<M.Message>, batch: seq<MessageId>, line: seq<Job>, x: CampaignId, j: nat)
    requires LineOk(ms, batch, line, x) && 0 < j < |line| && line[0].campaign == line[j].campaign == x
    ensures Fresh(ms, line[j].message) ==> Precedes(batch, line[0].message, line[j].message)
  {
  }

  lemma NotBoth(batch: seq<MessageId>, p: nat, q: nat)
    requires Distinct(batch) && p < q < |batch|
    ensures !Precedes(batch, batch[q], batch[p])
  {
  }

  lemma MarkBatch(ms: seq<M.Message>, ms': seq<M.Message>, batch: seq<MessageId>, line: seq<Job>, x: CampaignId)
    requires line != [] && InTurn(ms, batch, line, x) && Refers(ms, line) && line[0].campaign == x
    requires |ms'| == |ms| && forall m :: 0 <= m < |ms| ==> ms'[m].campaign == ms[m].campaign
    requires forall m :: 0 <= m < |ms| && m != line[0].message ==> ms'[m] == ms[m]
    requires line[0].message < |ms'| && ms'[line[0].message].attempts > 0
    ensures BatchOf(ms', x, batch) && InOrder(ms', batch)
  {
    forall p, q | 0 <= p < q < |batch| && Fresh(ms', batch[p]) ensures Fresh(ms', batch[q]) {
      if batch[q] == line[0].message {
        EarlierIsDone(ms, batch, line, x, p, q);
      }
    }
  }

  lemma OrderMark(cfg: Config, s: State, job: Job, item: M.Message, ok: bool, x: CampaignId)
    requires Given(cfg, s, x) && s.worker == Admitted(job, item) && (ok || !HoldsFresh(s, x))
    ensures Ordered(DoMark(s, job, item, ok), x)
  {
    var t := DoMark(s, job, item, ok);
    LineRefersAll(cfg, s);
    assert JobOk(Dir(s), Live(s.log), job) && Dir(s).owner[job.message] == job.campaign;
    if !ok {
      OrderDrop(cfg, s, Idle, x);
    } else if Published(Entry(s.log, x)) {
      hide Core;
      OrderMarkRow(s, job, t, x);
    }
    hide Core, InTurn;
  }

  lemma OrderMarkRow(s: State, job: Job, t: State, x: CampaignId)
    requires Ordered(s, x) && Published(Entry(s.log, x)) && InLine(s.worker) && s.worker.job == job
             && t.queue == s.queue
    requires job.message < |s.messages| && Refers(s.messages, Line(s.worker, s.queue))
    requires t.messages == s.messages[job.message := M.MarkProcessing(s.messages[job.message])]
    ensures InTurn(t.messages, Entry(s.log, x).batch, t.queue, x)
  {
    var line, batch := Line(s.worker, s.queue), Entry(s.log, x).batch;
    assert line[1..] == s.queue && line[0] == job;
    if job.campaign == x {
      MarkLine(s.messages, t.messages, batch, line, x);
      MarkBatch(s.messages, t.messages, batch, line, x);
    } else {
      DropHead(s.messages, batch, line, x);
      MarkOther(s.messages, t.messages, batch, s.queue, x);
    }
  }

  // ------------------------------------------------------------- everything else

  lemma OrderSettle(cfg: Config, s: State, job: Job, item: M.Message, a: Answer, ok: bool, x: CampaignId)
    requires Ordered(s, x) && s.worker == Answered(job, item, a)
    ensures Ordered(DoSettle(cfg, s, job, item, a, ok), x)
  {
    KeepOrder(s, DoSettle(cfg, s, job, item, a, ok), x);
  }

  lemma OrderSend(s: State, job: Job, item: M.Message, answer: Answer, x: CampaignId)
    requires Ordered(s, x) && s.worker == Sending(job, item)
    ensures Ordered(DoSend(s, job, item, answer), x)
  {
    KeepOrder(s, DoSend(s, job, item, answer), x);
  }

  lemma OrderWait(s: State, job: Job, item: M.Message, ok: bool, x: CampaignId)
    requires Ordered(s, x) && s.worker == Waiting(job, item)
    ensures Ordered(DoWait(s, job, item, ok), x)
  {
    KeepOrder(s, DoWait(s, job, item, ok), x);
  }

  lemma OrderRearm(cfg: Config, s: State, job: Job, item: M.Message, x: CampaignId)
    requires Given(cfg, s, x) && s.worker == Rearm(job, item)
    ensures Ordered(DoRearm(s, job), x)
  {
    assert s.messages[job.message].attempts == item.attempts + 1;
    hide Core;
    KeepOrder(s, DoRearm(s, job), x);
  }

  lemma OrderRecalculateThen(s: State, c: CampaignId, ok: bool, w: Worker, x: CampaignId)
    requires Ordered(s, x) && Line(w, s.queue) == Line(s.worker, s.queue) && !w.Requeue?
    ensures Ordered(DoRecalculateThen(s, c, ok, w), x)
  {
    KeepOrder(s, DoRecalculateThen(s, c, ok, w), x);
  }

  lemma OrderCampaignRow(s: State, c: CampaignId, row: C.Campaign, x: CampaignId)
    requires Ordered(s, x) && c < |s.campaigns|
    requires c == x ==> row.mode == s.campaigns[c].mode || (row.mode.Later? && Entry(s.log, x).bornScheduled)
    ensures Ordered(SetCampaign(s, c, row), x)
  {
    KeepOrder(s, SetCampaign(s, c, row), x);
  }

  lemma OrderTrackMark(s: State, t: nat, ok: bool, x: CampaignId)
    requires Ordered(s, x)
    ensures Ordered(DoTrackMark(s, t, ok), x)
  {
    KeepOrder(s, DoTrackMark(s, t, ok), x);
  }

  lemma OrderTrackRecalculate(s: State, t: nat, c: CampaignId, ok: bool, x: CampaignId)
    requires Ordered(s, x)
    ensures Ordered(DoTrackRecalculate(s, t, c, ok), x)
  {
    KeepOrder(s, DoTrackRecalculate(s, t, c, ok), x);
  }

  lemma OrderClaimDue(s: State, batchSize: int, claims: seq<Claimed>, x: CampaignId)
    requires Ordered(s, x)
    ensures Ordered(DoClaimDue(s, batchSize, claims), x)
  {
    hide CanClaimDue;
    KeepOrder(s, DoClaimDue(s, batchSize, claims), x);
  }

  lemma OrderRevert(s: State, ok: bool, x: CampaignId)
    requires Ordered(s, x)
    ensures Ordered(DoRevert(s, ok), x)
  {
    KeepOrder(s, DoRevert(s, ok), x);
  }

  lemma OrderCrash(cfg: Config, s: State, x: CampaignId)
    requires Given(cfg, s, x) && !HoldsFresh(s, x)
    ensures Ordered(DoCrash(s), x)
  {
    if InLine(s.worker) {
      OrderDrop(cfg, s, Idle, x);
      hide Core;
      KeepOrder(s.(worker := Idle), DoCrash(s), x);
    } else {
      hide Core;
      KeepOrder(s, DoCrash(s), x);
    }
  }

  // --------------------------------------------------------------------- runs

  /** The worker lets go of a never-attempted job of `x`: a statement fails, the process dies, or a pause bounces it. */
  predicate Skips(s: State, e: Event, x: CampaignId) {
    HoldsFresh(s, x) && (e.Crash? || (e.Work? && (!e.ok || Bounces(s))))
  }

  /** `x` is not skipped, and not rescheduled after having been created to be sent at once. */
  predicate Plain(s: State, e: Event, x: CampaignId) {
    !Skips(s, e, x) && (e.Reschedule? && e.campaign == x ==> Entry(s.log, x).bornScheduled)
  }

  lemma OrderRequestStep(cfg: Config, s: State, e: Event, x: CampaignId)
    requires Given(cfg, s, x) && Plain(s, e, x)
    requires e.Tick? || e.Create? || e.PublishCreated? || e.SetPaused? || e.Reschedule? || e.CancelScheduled?
             || e.Recalculate?
    ensures Ordered(Step(cfg, s, e), x)
  {
    hide Core, Ordered, DoCreate, DoPublishCreated;
    match e
    case Tick(to) => OrderTick(s, to, x);
    case Create(instance, at, n) => OrderCreate(cfg, s, instance, at, n, x);
    case PublishCreated(c, ok) => OrderPublishCreated(cfg, s, c, ok, x);
    case SetPaused(c, p) => if c < |s.campaigns| { OrderCampaignRow(s, c, C.SetPaused(s.campaigns[c], p), x); }
    case Reschedule(c, at) => if c < |s.campaigns| { OrderCampaignRow(s, c, C.Reschedule(s.campaigns[c], at), x); }
    case CancelScheduled(c) => if c < |s.campaigns| { OrderCampaignRow(s, c, C.Cancel(s.campaigns[c], s.clock), x); }
    case Recalculate(c) => OrderRecalculate(s, c, x);
  }

  lemma OrderTick(s: State, to: Time, x: CampaignId)
    requires Ordered(s, x)
    ensures Ordered(s.(clock := Max(s.clock, to)), x)
  {
  }

  lemma OrderRecalculate(s: State, c: CampaignId, x: CampaignId)
    requires Ordered(s, x)
    ensures Ordered(DoRecalculate(s, c, true), x)
  {
    KeepOrder(s, DoRecalculate(s, c, true), x);
  }

  lemma OrderTrackStart(s: State, tracks: seq<Track>, x: CampaignId)
    requires Ordered(s, x)
    ensures Ordered(s.(tracks := tracks), x)
  {
  }

  lemma OrderReleaseStep(cfg: Config, s: State, e: Event, x: CampaignId)
    requires Given(cfg, s, x)
    requires e.ClaimDue? || e.PublishClaimed? || e.RevertRelease? || e.ClaimRetries? || e.RequeueSwept? || e.FireTimer?
    ensures Ordered(Step(cfg, s, e), x)
  {
    hide Core, Ordered, DoClaimDue, DoPublishClaimed, DoRevert, DoClaimRetries, DoRequeueSwept, DoFireTimer;
    match e
    case ClaimDue(batchSize, claims) => OrderClaimDue(s, batchSize, claims, x);
    case PublishClaimed(ok) => OrderPublishClaimed(cfg, s, ok, x);
    case RevertRelease(ok) => OrderRevert(s, ok, x);
    case ClaimRetries(limit, picked) => OrderClaimRetries(cfg, s, limit, picked, x);
    case RequeueSwept(ok) => OrderRequeueSwept(s, ok, x);
    case FireTimer(i, ok) => OrderFireTimer(s, i, ok, x);
  }

  lemma OrderWork(cfg: Config, s: State, ok: bool, answer: Answer, x: CampaignId)
    requires Given(cfg, s, x) && Plain(s, Work(ok, answer), x)
    ensures Ordered(DoWork(cfg, s, ok, answer), x)
  {
    hide Core, Ordered, DoPop, DoLookup, DoGate, DoRequeue, DoMark, DoRecalculateThen, DoWait, DoSend, DoSettle,
          DoRearm;
    match s.worker
    case Idle => OrderPop(s, ok, x);
    case Popped(job) => OrderLookup(cfg, s, job, ok, x);
    case Read(job, item) => OrderGate(cfg, s, job, item, ok, x);
    case Requeue(job) => OrderRequeue(s, job, ok, x);
    case Admitted(job, item) => OrderMark(cfg, s, job, item, ok, x);
    case Marked(job, item) => OrderRecalculateThen(s, item.campaign, ok, Waiting(job, item), x);
    case Waiting(job, item) => OrderWait(s, job, item, ok, x);
    case Sending(job, item) => OrderSend(s, job, item, answer, x);
    case Answered(job, item, a) => OrderSettle(cfg, s, job, item, a, ok, x);
    case Settled(job, item, retry) =>
      OrderRecalculateThen(s, item.campaign, ok, if retry then Rearm(job, item) else Idle, x);
    case Rearm(job, item) => OrderRearm(cfg, s, job, item, x);
  }

  lemma OrderStep(cfg: Config, s: State, e: Event, x: CampaignId)
    requires Given(cfg, s, x) && Plain(s, e, x)
    ensures Ordered(Step(cfg, s, e), x)
  {
    match e
    case Work(ok, answer) =>
      OrderWork(cfg, s, ok, answer, x);
    case TrackStart(receipt, ids) => OrderTrackStart(s, s.tracks + [Track(receipt, ids, {})], x);
    case TrackMark(t, ok) => OrderTrackMark(s, t, ok, x);
    case TrackRecalculate(t, c, ok) => OrderTrackRecalculate(s, t, c, ok, x);
    case Crash => OrderCrash(cfg, s, x);
    case _ =>
      hide Step;
      if e.ClaimDue? || e.PublishClaimed? || e.RevertRelease? || e.ClaimRetries? || e.RequeueSwept? || e.FireTimer? {
        OrderReleaseStep(cfg, s, e, x);
      } else {
        OrderRequestStep(cfg, s, e, x);
      }
  }

  ghost predicate PlainRun(cfg: Config, s: State, es: seq<Event>, x: CampaignId) {
    es == [] || (PlainRun(cfg, s, es[..|es| - 1], x) && Plain(Run(cfg, s, es[..|es| - 1]), es[|es| - 1], x))
  }

  lemma {:induction false} OrderedAlways(cfg: Config, s: State, es: seq<Event>, x: CampaignId)
    requires Given(cfg, s, x) && PlainRun(cfg, s, es, x)
    ensures Given(cfg, Run(cfg, s, es), x)
  {
    hide Step, Core, Ordered, Plain;
    if es != [] {
      var before := es[..|es| - 1];
      OrderedAlways(cfg, s, before, x);
      OrderStep(cfg, Run(cfg, s, before), es[|es| - 1], x);
      KeepStep(cfg, Run(cfg, s, before), es[|es| - 1]);
    }
  }

  /** FIFO first attempts of one campaign: unless the worker lets go of a never-attempted job of it, or it was created
      to be sent at once and is rescheduled, its published batch lists its rows exactly once, and a message that was
      never attempted stands before no attempted one. What happens to other campaigns does not matter. */
  lemma FirstAttemptsInOrder(cfg: Config, clock: Time, es: seq<Event>, x: CampaignId)
    requires PlainRun(cfg, Init(clock), es, x) && x < |Run(cfg, Init(clock), es).log|
    ensures var s := Run(cfg, Init(clock), es);
            Published(s.log[x]) ==> BatchOf(s.messages, x, s.log[x].batch) && InOrder(s.messages, s.log[x].batch)
  {
    hide Step;
    CoreInit(cfg, clock);
    OrderedInit(clock, x);
    OrderedAlways(cfg, Init(clock), es, x);
    hide Core;
  }

  lemma OrderedInit(clock: Time, x: CampaignId)
    ensures Ordered(Init(clock), x)
  {
  }
}
