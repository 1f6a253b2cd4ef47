/** What recording feedback, backend signals and timeouts does to the committed state. */
module FeedbackSteps {
  import opened Common
  import opened Records
  import opened StoreModel
  import opened Digest
  import opened Steps
  import opened FeedbackRules
  import opened IdempotencySteps
  import Rules = DeliveryRules

  datatype FeedbackReceipt = FeedbackReceipt(feedbackId: Id, deliveryId: Id, deliveryStatus: DeliveryStatus, auditRef: Id)

  datatype ReceiptStatus = RecordedNow | DuplicateSignal | IgnoredSignal

  datatype SignalReceipt = SignalReceipt(deliveryId: Id, attemptId: Id, status: ReceiptStatus,
                                         normalized: Option<FeedbackKind>, feedbackId: Option<Id>, auditRef: Id)

  datatype TimeoutReceipt = TimeoutReceipt(deliveryId: Id, feedbackId: Option<Id>, status: ReceiptStatus,
                                           recoveryCandidate: bool, auditRef: Id)

  // ---------------------------------------------------------------- replayed requests

  function LoadFeedback(c: Committed, a: Anchor): Result<Feedback, ServiceError> {
    match a.bound
    case FeedbackRef(id) => if id in c.feedbacks then Ok(c.feedbacks[id]) else Err(Corrupted)
    case PublicationRef(_) => Err(Corrupted)
  }

  function SignalOutcome(f: Feedback): Result<FeedbackKind, ServiceError> {
    match f.status
    case Ack => Ok(AckKind)
    case Fail => Ok(FailKind)
    case _ => Err(Corrupted)
  }

  function ExistingFeedback(c: Committed, a: Anchor): Result<FeedbackReceipt, ServiceError> {
    var f :- LoadFeedback(c, a);
    if f.auditRef.None? then Err(Corrupted)
    else Ok(FeedbackReceipt(f.feedbackId, f.deliveryId, ImpliedStatus(f), f.auditRef.value))
  }

  function ExistingSignal(c: Committed, a: Anchor, deliveryId: Id, attemptId: Id): Result<SignalReceipt, ServiceError> {
    var f :- LoadFeedback(c, a);
    if f.auditRef.None? then Err(Corrupted)
    else
      var kind :- SignalOutcome(f);
      Ok(SignalReceipt(deliveryId, attemptId, DuplicateSignal, Some(kind), Some(f.feedbackId), f.auditRef.value))
  }

  function ExistingTimeout(c: Committed, a: Anchor, deliveryId: Id): Result<TimeoutReceipt, ServiceError> {
    var f :- LoadFeedback(c, a);
    if f.status != Timeout then Err(Corrupted)
    else if f.auditRef.None? then Err(Corrupted)
    else Ok(TimeoutReceipt(deliveryId, Some(f.feedbackId), DuplicateSignal, true, f.auditRef.value))
  }

  // ---------------------------------------------------------------- checks on the targeted attempt

  function CurrentAttempt(d: Delivery, attemptId: Id, code: string): Result<Attempt, Stop> {
    match Rules.FindAttempt(d.attempts, attemptId)
    case None => Err(RollBack(NotFoundError("not_found.delivery_attempt")))
    case Some(i) =>
      if d.lastAttemptRef != Some(attemptId) then Err(RollBack(ConflictError(code, None))) else Ok(d.attempts[i])
  }

  const UNFINISHED: ServiceError := ConflictError("conflict.delivery_attempt_unfinished", None)

  // ---------------------------------------------------------------- the writes common to all three

  function StageFeedback(c: Committed, f: Feedback, d: Delivery, after: Delivery): Result<Staged, Stop> {
    var s :- StagingUnique(InsertFeedback(c, Some(NOTHING), f), "conflict.feedback_already_recorded");
    Staging(SaveDelivery(c, Some(s), after, d.version))
  }

  /** Inserts the feedback under a new audit reference, saves the delivery, logs it and binds the anchor.
      Identifiers are drawn first; having none rolls back. */
  function WriteFeedback(c: Committed, f: Feedback, d: Delivery, after: Delivery, scope: Scope, key: Id, digest: string,
                         actor: Actor, trace: Id, ports: Ports, faults: Faults): Result<(Staged, Id), Stop>
  {
    var auditRef :- NextIdOrRollBack(ports.auditId);
    var anchorId :- NextIdOrRollBack(ports.anchorId);
    var s :- StageFeedback(c, f.(auditRef := Some(auditRef)), d, after);
    var logged :- Append(s, faults, AuditEntry(auditRef, DeliverySubject(d.deliveryId), FeedbackRecorded(f.status), actor,
                                               f.observedAt, trace));
    var bound :- Staging(BindAnchor(c, Some(logged), Anchor(anchorId, scope, key, digest, FeedbackRef(f.feedbackId),
                                                            ports.later, trace)));
    Ok((bound, auditRef))
  }

  // ---------------------------------------------------------------- feedback commands

  /** The delivery after the feedback is applied to it. */
  function Apply(d: Delivery, f: Feedback): Result<Delivery, DomainError> {
    if f.status == Ack then Rules.AckFlow(d, f)
    else Rules.FailFlow(d, d.status, FailureReason(f), "feedback_fail", f.observedAt)
  }

  function RecordedBody(c: Committed, d: Delivery, m: FeedbackCommand, f: Feedback, after: Delivery, key: Id, actor: Actor,
                        trace: Id, ports: Ports, faults: Faults): Body<FeedbackReceipt>
  {
    var (s, auditRef) :- WriteFeedback(c, f, d, after, CommandScope(m), key, RequestDigest(m.canonical), actor, trace,
                                       ports, faults);
    Ok((s, Ok(FeedbackReceipt(f.feedbackId, f.deliveryId, after.status, auditRef))))
  }

  function FeedbackBody(c: Committed, d: Delivery, m: FeedbackCommand, key: Id, actor: Actor, trace: Id, ports: Ports,
                        faults: Faults): Body<FeedbackReceipt>
  {
    var attempt :- CurrentAttempt(d, m.attemptId, "conflict.late_feedback");
    if !attempt.IsFinished() then Err(RollBack(UNFINISHED))
    else
      var f :- Checked(FromCommand(m, actor));
      var after :- Checked(Apply(d, f));
      RecordedBody(c, d, m, f, after, key, actor, trace, ports, faults)
  }

  function RecordBody(c: Committed, m: FeedbackCommand, key: Id, actor: Actor, trace: Id, ports: Ports, faults: Faults)
    : Body<FeedbackReceipt>
  {
    match Get(c.deliveries, m.deliveryId)
    case None => Err(RollBack(NotFoundError("not_found.delivery")))
    case Some(d) => FeedbackBody(c, d, m, key, actor, trace, ports, faults)
  }

  function RecordFeedback(c: Committed, m: FeedbackCommand, key: Option<Id>, actor: Actor, trace: Id, ports: Ports,
                          faults: Faults): Step<FeedbackReceipt>
  {
    if key.None? then Refuse(ValidationError("validation.idempotency_key_missing", None), faults)
    else
      match FindAnchor(c, CommandScope(m), key.value)
      case Some(a) =>
        if a.digest == RequestDigest(m.canonical) then Step(NeverBegan, ExistingFeedback(c, a), faults)
        else RecordConflict(CommandScope(m), key.value, a, RequestDigest(m.canonical), actor, trace, ports, faults)
      case None => Finish(RecordBody(c, m, key.value, actor, trace, ports, faults), faults)
  }

  // ---------------------------------------------------------------- backend signals

  /** A signal for a delivery the bus does not know is logged and ignored. */
  function IgnoreBody(id: Id, action: Action, actor: Actor, trace: Id, at: Timestamp, auditId: Option<Id>, faults: Faults)
    : Result<(Staged, Id), Stop>
  {
    var auditRef :- NextIdOrRollBack(auditId);
    var s :- Append(NOTHING, faults, AuditEntry(auditRef, DeliverySubject(id), action, actor, at, trace));
    Ok((s, auditRef))
  }

  /** The delivery after the normalized signal settles its open attempt. */
  function SignalFlow(d: Delivery, source: DeliveryStatus, a: Attempt, normalized: BackendResult, f: Feedback,
                      at: Timestamp): Result<Delivery, DomainError>
  {
    if normalized.status == BackendDelivered then Rules.ArriveFlow(d, source, a, at)
    else Rules.FailFlow(d, source, FailureReason(f), "delivery_failed", at)
  }

  function SignalReceived(m: BackendSignal, f: Feedback, auditRef: Id): Result<SignalReceipt, ServiceError> {
    var kind :- SignalOutcome(f);
    Ok(SignalReceipt(f.deliveryId, m.attemptId, RecordedNow, Some(kind), Some(f.feedbackId), auditRef))
  }

  function ReceivedBody(c: Committed, d: Delivery, m: BackendSignal, f: Feedback, after: Delivery, actor: Actor, trace: Id,
                        ports: Ports, faults: Faults): Body<SignalReceipt>
  {
    var (s, auditRef) :- WriteFeedback(c, f, d, after, SignalScope(m), m.idempotencyKey, RequestDigest(m.canonical), actor,
                                       trace, ports, faults);
    Ok((s, SignalReceived(m, f, auditRef)))
  }

  function SettledBody(c: Committed, d: Delivery, m: BackendSignal, normalized: BackendResult, actor: Actor, trace: Id,
                       ports: Ports, faults: Faults): Body<SignalReceipt>
  {
    var _ :- CurrentAttempt(d, m.attemptId, "conflict.backend_signal_attempt_mismatch");
    var (finished, attempt) :- Checked(Rules.FinishAttempt(d, m.attemptId, normalized, ports.now));
    var f :- Checked(FromBackendSignal(d.deliveryId, m, actor, ports.now));
    var after :- Checked(SignalFlow(finished, d.status, attempt, normalized, f, ports.now));
    ReceivedBody(c, d, m, f, after, actor, trace, ports, faults)
  }

  function UnknownSignalBody(m: BackendSignal, actor: Actor, trace: Id, ports: Ports, faults: Faults): Body<SignalReceipt> {
    var (s, auditRef) :- IgnoreBody(m.deliveryId, BackendSignalIgnored, actor, trace, ports.now, ports.auditId, faults);
    Ok((s, Ok(SignalReceipt(m.deliveryId, m.attemptId, IgnoredSignal, None, None, auditRef))))
  }

  function SignalBody(c: Committed, m: BackendSignal, answer: Result<BackendResult, TransportError>, actor: Actor, trace: Id,
                      ports: Ports, faults: Faults): Body<SignalReceipt>
  {
    if answer.Err? then Err(RollBack(FromTransport(answer.error)))
    else
      match Get(c.deliveries, m.deliveryId)
      case None => UnknownSignalBody(m, actor, trace, ports, faults)
      case Some(d) => SettledBody(c, d, m, answer.value, actor, trace, ports, faults)
  }

  function RecordSignal(c: Committed, m: BackendSignal, answer: Result<BackendResult, TransportError>, actor: Actor, trace: Id,
                        ports: Ports, faults: Faults): Step<SignalReceipt>
  {
    match FindAnchor(c, SignalScope(m), m.idempotencyKey)
    case Some(a) =>
      if a.digest == RequestDigest(m.canonical) then Step(NeverBegan, ExistingSignal(c, a, m.deliveryId, m.attemptId), faults)
      else RecordConflict(SignalScope(m), m.idempotencyKey, a, RequestDigest(m.canonical), actor, trace, ports, faults)
    case None => Finish(SignalBody(c, m, answer, actor, trace, ports, faults), faults)
  }

  // ---------------------------------------------------------------- timeouts

  /** What a timeout first does to the targeted attempt. */
  function TimedOut(d: Delivery, m: TimeoutSignal): Result<Delivery, Stop> {
    match d.status
    case Dispatching =>
      var (finished, _) :- Checked(Rules.FinishAttempt(d, m.attemptId, BackendResult(BackendFailed, None), m.occurredAt));
      Ok(finished)
    case Delivered =>
      (match Rules.FindAttempt(d.attempts, m.attemptId)
       case None => Err(RollBack(NotFoundError("not_found.delivery_attempt")))
       case Some(i) => if d.attempts[i].IsFinished() then Ok(d) else Err(RollBack(UNFINISHED)))
    case _ => Err(RollBack(ConflictError("conflict.timeout_not_allowed", None)))
  }

  function ExpiredBody(c: Committed, d: Delivery, m: TimeoutSignal, f: Feedback, after: Delivery, actor: Actor, trace: Id,
                       ports: Ports, faults: Faults): Body<TimeoutReceipt>
  {
    var (s, auditRef) :- WriteFeedback(c, f, d, after, TimeoutScope(m), m.idempotencyKey, RequestDigest(m.canonical), actor,
                                       trace, ports, faults);
    Ok((s, Ok(TimeoutReceipt(f.deliveryId, Some(f.feedbackId), RecordedNow, true, auditRef))))
  }

  function LateBody(c: Committed, d: Delivery, m: TimeoutSignal, actor: Actor, trace: Id, ports: Ports, faults: Faults)
    : Body<TimeoutReceipt>
  {
    var _ :- CurrentAttempt(d, m.attemptId, "conflict.timeout_attempt_mismatch");
    var timedOut :- TimedOut(d, m);
    var f :- Checked(FromTimeout(d.deliveryId, m, actor));
    var after :- Checked(Rules.FailFlow(timedOut, d.status, FailureReason(f), "feedback_timeout", m.occurredAt));
    ExpiredBody(c, d, m, f, after, actor, trace, ports, faults)
  }

  function UnknownTimeoutBody(m: TimeoutSignal, actor: Actor, trace: Id, ports: Ports, faults: Faults): Body<TimeoutReceipt> {
    var (s, auditRef) :- IgnoreBody(m.deliveryId, TimeoutSignalIgnored, actor, trace, ports.now, ports.auditId, faults);
    Ok((s, Ok(TimeoutReceipt(m.deliveryId, None, IgnoredSignal, false, auditRef))))
  }

  function TimeoutBody(c: Committed, m: TimeoutSignal, actor: Actor, trace: Id, ports: Ports, faults: Faults): Body<TimeoutReceipt> {
    match Get(c.deliveries, m.deliveryId)
    case None => UnknownTimeoutBody(m, actor, trace, ports, faults)
    case Some(d) => LateBody(c, d, m, actor, trace, ports, faults)
  }

  function RecordTimeout(c: Committed, m: TimeoutSignal, actor: Actor, trace: Id, ports: Ports, faults: Faults)
    : Step<TimeoutReceipt>
  {
    match FindAnchor(c, TimeoutScope(m), m.idempotencyKey)
    case Some(a) =>
      if a.digest == RequestDigest(m.canonical) then Step(NeverBegan, ExistingTimeout(c, a, m.deliveryId), faults)
      else RecordConflict(TimeoutScope(m), m.idempotencyKey, a, RequestDigest(m.canonical), actor, trace, ports, faults)
    case None => Finish(TimeoutBody(c, m, actor, trace, ports, faults), faults)
  }
}
