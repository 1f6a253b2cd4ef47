/** Feedback results: their constructors, what they imply and their idempotency scopes. */
module FeedbackRules {
  import opened Common
  import opened Records
  import opened Digest

  datatype FeedbackCommand = FeedbackCommand(
    deliveryId: Id, attemptId: Id, kind: FeedbackKind, reason: string, observedAt: Timestamp,
    externalRef: Id, canonical: seq<Byte>)

  datatype BackendSignal = BackendSignal(
    eventId: Id, sourceRef: Id, deliveryId: Id, attemptId: Id, backendStatus: BackendStatus,
    backendResultRef: Id, idempotencyKey: Id, canonical: seq<Byte>)

  datatype TimeoutSignal = TimeoutSignal(
    eventId: Id, sourceRef: Id, deliveryId: Id, attemptId: Id, occurredAt: Timestamp,
    idempotencyKey: Id, canonical: seq<Byte>)

  // ---------------------------------------------------------------- constructors

  /** A source needs an attempt and an external reference; then the record itself is checked. */
  function Build(deliveryId: Id, status: FeedbackStatus, reason: Option<string>, actor: Actor,
                 observedAt: Timestamp, attemptId: Id, externalRef: Id): Result<Feedback, DomainError>
  {
    if IsBlank(attemptId) then Err(InvalidFeedbackResult("attempt_id"))
    else if IsBlank(externalRef) then Err(InvalidFeedbackResult("external_feedback_ref"))
    else if IsBlank(deliveryId) then Err(InvalidFeedbackResult("delivery_id"))
    else if IsBlank(observedAt) then Err(InvalidFeedbackResult("observed_at"))
    else if reason.Some? && IsBlank(reason.value) then Err(InvalidFeedbackResult("feedback_reason"))
    else
      Ok(Feedback("feedback_" + Sanitize(deliveryId) + "_" + Sanitize(externalRef), deliveryId, status, reason,
                  observedAt, actor, attemptId, externalRef, 0, None))
  }

  function FromCommand(c: FeedbackCommand, actor: Actor): Result<Feedback, DomainError> {
    Build(c.deliveryId, if c.kind == AckKind then Ack else Fail, Some(c.reason), actor, c.observedAt,
          c.attemptId, c.externalRef)
  }

  function BackendStatusName(s: BackendStatus): string {
    if s == BackendDelivered then "delivered" else "failed"
  }

  function FromBackendSignal(deliveryId: Id, s: BackendSignal, actor: Actor, at: Timestamp): Result<Feedback, DomainError> {
    var externalRef := "backend_signal:" + s.attemptId + ":" + BackendStatusName(s.backendStatus) + ":" + s.backendResultRef;
    if s.backendStatus == BackendDelivered then
      Build(deliveryId, Ack, None, actor, at, s.attemptId, externalRef)
    else
      Build(deliveryId, Fail, Some("backend_failed"), actor, at, s.attemptId, externalRef)
  }

  const TIMEOUT_REASON: string := "dispatch_timeout"

  function FromTimeout(deliveryId: Id, s: TimeoutSignal, actor: Actor): Result<Feedback, DomainError> {
    Build(deliveryId, Timeout, Some(TIMEOUT_REASON), actor, s.occurredAt, s.attemptId,
          "timeout_signal:" + s.attemptId + ":" + TIMEOUT_REASON)
  }

  // ---------------------------------------------------------------- meaning

  function ImpliedStatus(f: Feedback): DeliveryStatus {
    match f.status
    case Ack => Completed
    case Fail => Failed
    case Timeout => Failed
    case Duplicate => Delivered
  }

  function FailureReason(f: Feedback): string {
    match f.status
    case Fail => if f.reason.Some? then f.reason.value else "feedback_failed"
    case Timeout => "delivery_timeout"
    case Ack => "feedback_not_failure"
    case Duplicate => "feedback_not_failure"
  }

  // Each constructor fixes the status of what it builds.

  lemma CommandFeedback(c: FeedbackCommand, actor: Actor)
    requires FromCommand(c, actor).Ok?
    ensures var f := FromCommand(c, actor).value;
      && f.status == (if c.kind == AckKind then Ack else Fail)
      && f.deliveryId == c.deliveryId && f.attemptId == c.attemptId && f.auditRef == None
  {
  }

  lemma SignalFeedback(deliveryId: Id, s: BackendSignal, actor: Actor, at: Timestamp)
    requires FromBackendSignal(deliveryId, s, actor, at).Ok?
    ensures var f := FromBackendSignal(deliveryId, s, actor, at).value;
      && f.status == (if s.backendStatus == BackendDelivered then Ack else Fail)
      && f.deliveryId == deliveryId && f.attemptId == s.attemptId && f.auditRef == None
  {
  }

  lemma TimeoutFeedback(deliveryId: Id, s: TimeoutSignal, actor: Actor)
    requires FromTimeout(deliveryId, s, actor).Ok?
    ensures var f := FromTimeout(deliveryId, s, actor).value;
      f.status == Timeout && f.deliveryId == deliveryId && f.attemptId == s.attemptId && f.auditRef == None
  {
  }

  // ---------------------------------------------------------------- scopes

  function CommandScope(c: FeedbackCommand): Scope {
    Scope(CommandEntry, RecordDeliveryFeedback, Some(c.deliveryId))
  }

  function SignalScope(s: BackendSignal): Scope {
    Scope(EventEntry, ConsumeBackendDeliverySignal, Some(s.sourceRef + "::" + s.eventId))
  }

  function TimeoutScope(s: TimeoutSignal): Scope {
    Scope(EventEntry, ConsumeTimeoutSignal, Some(s.sourceRef + "::" + s.eventId))
  }

  /** The status a feedback must have under its scope to be replayed. */
  predicate FitsScope(action: ScopeAction, status: FeedbackStatus) {
    match action
    case RecordDeliveryFeedback => true
    case ConsumeBackendDeliverySignal => status == Ack || status == Fail
    case ConsumeTimeoutSignal => status == Timeout
    case _ => false
  }
}
