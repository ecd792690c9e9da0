/** Rows of `campaign_messages` and the UPDATE statements that touch one row. */
module Messages {
  import opened Basics

  datatype Status = Pending | Processing | Sent | Delivered | Read | Failed

  datatype Message = Message(
    campaign: CampaignId,
    status: Status,
    providerId: Option<ProviderId>,
    attempts: nat,
    lastError: Option<string>,
    nextRetryAt: Option<Time>,
    sentAt: Option<Time>,
    deliveredAt: Option<Time>,
    readAt: Option<Time>,
    failedAt: Option<Time>)

  /** The statuses `handleJob` skips: the provider has accepted the message. */
  predicate Dispatched(s: Status) {
    s.Sent? || s.Delivered? || s.Read?
  }

  /** sent < delivered < read; 0 before dispatch. */
  function Rank(s: Status): nat {
    match s
    case Sent => 1
    case Delivered => 2
    case Read => 3
    case _ => 0
  }

  function New(c: CampaignId): Message {
    Message(c, Pending, None, 0, None, None, None, None, None, None)
  }

  function MarkProcessing(m: Message): Message {
    m.(status := Processing, attempts := m.attempts + 1, lastError := None, nextRetryAt := None, failedAt := None)
  }

  function MarkSent(m: Message, id: ProviderId, now: Time): Message {
    m.(status := Sent, providerId := Some(id), lastError := None, nextRetryAt := None,
       sentAt := Some(now), failedAt := None)
  }

  function MarkFailed(m: Message, error: string, now: Time): Message {
    m.(status := Failed, lastError := Some(error), nextRetryAt := None, failedAt := Some(now))
  }

  function MarkPendingRetry(m: Message, error: string, at: Time): Message {
    m.(status := Pending, lastError := Some(error), nextRetryAt := Some(at))
  }

  function MarkDelivered(m: Message, now: Time): Message {
    m.(status := if m.status.Read? then Read else Delivered, deliveredAt := Coalesce(m.deliveredAt, now))
  }

  function MarkRead(m: Message, now: Time): Message {
    m.(status := Read, deliveredAt := Coalesce(m.deliveredAt, now), readAt := Some(now))
  }

  function ClearRetry(m: Message): Message {
    m.(nextRetryAt := None)
  }

  /** What every stored row satisfies, whatever the interleaving. */
  ghost predicate RowOk(m: Message, clock: Time) {
    && (m.failedAt.Some? <==> m.status.Failed?)
    && (m.nextRetryAt.Some? ==> m.status.Pending? && m.attempts >= 1)
    && (m.providerId.Some? <==> Dispatched(m.status))
    && (m.sentAt.Some? <==> Dispatched(m.status))
    && (m.deliveredAt.Some? <==> m.status.Delivered? || m.status.Read?)
    && (m.readAt.Some? <==> m.status.Read?)
    && (m.lastError.Some? ==> m.status.Pending? || m.status.Failed?)
    && (m.status.Failed? ==> m.lastError.Some?)
    && (!m.status.Pending? ==> m.attempts >= 1)
    && (m.failedAt.Some? ==> m.failedAt.value <= clock)
    && (m.sentAt.Some? ==> m.sentAt.value <= clock)
    && (m.deliveredAt.Some? ==> m.sentAt.value <= m.deliveredAt.value <= clock)
    && (m.readAt.Some? ==> m.deliveredAt.value <= m.readAt.value <= clock)
  }
}
