/** The values the bus keeps: deliveries, recovery records, feedback,
    publications, idempotency anchors, audit entries and projections. */
module Records {
  import opened Common

  // ---------------------------------------------------------------- status values

  datatype DeliveryStatus = Scheduled | Dispatching | Delivered | Failed | DeadLettered | Completed
  datatype BackendStatus = BackendDelivered | BackendFailed
  datatype RetryPlanStatus = PlanScheduled | PlanExhausted | PlanCancelled
  datatype DeadLetterStatus = Open | Reviewing | Closed
  datatype ReplayStatus = Draft | Ready | Rejected | Superseded
  datatype FeedbackStatus = Ack | Fail | Timeout | Duplicate
  datatype FeedbackKind = AckKind | FailKind
  datatype AcceptanceStatus = Pending | AcceptedPublication | RejectedPublication
  datatype RejectReason = MissingCoreEventRef | PayloadBoundaryViolation

  // ---------------------------------------------------------------- actors and delivery records

  datatype Actor = Actor(actorRef: Id, roleRefs: seq<Id>)

  /** The backend's normalized answer for one attempt. */
  datatype BackendResult = BackendResult(status: BackendStatus, backendRef: Option<Id>)

  datatype Attempt = Attempt(
    attemptId: Id, deliveryId: Id, attemptNo: nat, backendRef: Option<Id>,
    startedAt: Timestamp, finishedAt: Option<Timestamp>, resultStatus: Option<BackendStatus>)
  {
    predicate IsFinished() {
      finishedAt.Some?
    }
  }

  datatype HistoryEntry = HistoryEntry(
    historyId: Id, deliveryId: Id, fromStatus: DeliveryStatus, toStatus: DeliveryStatus,
    reason: string, occurredAt: Timestamp)

  datatype Delivery = Delivery(
    deliveryId: Id, publicationId: Id, subscriberRef: Id, idempotencyKey: Id, capabilityId: Id,
    status: DeliveryStatus, attemptCount: nat, lastAttemptRef: Option<Id>,
    attempts: seq<Attempt>, history: seq<HistoryEntry>, version: nat)

  // ---------------------------------------------------------------- recovery

  datatype RetryPlan = RetryPlan(
    retryPlanId: Id, deliveryId: Id, nextAttemptAt: Timestamp, maxAttempts: nat,
    remainingAttempts: nat, status: RetryPlanStatus, version: nat)

  datatype DeadLetterEntry = DeadLetterEntry(
    deadLetterId: Id, deliveryId: Id, failureReason: string, historyRef: Id, auditChainRef: Id,
    status: DeadLetterStatus, version: nat)

  datatype ReplayPreparation = ReplayPreparation(
    replayId: Id, deadLetterId: Id, status: ReplayStatus, auditChainRef: Id,
    approvalRef: Option<Id>, version: nat)

  datatype FailureMaterial = FailureMaterial(
    failureMaterialId: Id, deliveryId: Id, failureReason: string, deadLetterRef: Option<Id>,
    auditRef: Id, version: nat)

  // ---------------------------------------------------------------- feedback and publications

  datatype Feedback = Feedback(
    feedbackId: Id, deliveryId: Id, status: FeedbackStatus, reason: Option<string>,
    observedAt: Timestamp, actor: Actor, attemptId: Id, externalRef: Id,
    version: nat, auditRef: Option<Id>)

  datatype Material = Material(
    publicationId: Id, sourceSystem: Id, sourceRecordRef: Id, coreEventRef: Id,
    envelopeRef: Option<Id>, payloadRef: string, payloadDigest: Id,
    projectId: Id, topic: Id, outboxFactRef: Option<Id>, actor: Actor, trace: Id)

  datatype Acceptance = Acceptance(
    acceptanceId: Id, publicationId: Id, status: AcceptanceStatus, rejectReason: Option<RejectReason>,
    acceptedAt: Option<Timestamp>, decisionAuditRef: Option<Id>)

  // ---------------------------------------------------------------- idempotency

  datatype EntryKind = CommandEntry | EventEntry
  datatype ScopeAction =
    | AcceptPublication | RecordDeliveryFeedback | ConsumeCommittedOutboxFact
    | ConsumeBackendDeliverySignal | ConsumeTimeoutSignal

  datatype Scope = Scope(entryKind: EntryKind, action: ScopeAction, boundaryRef: Option<Id>)

  datatype RecordRef = PublicationRef(publicationId: Id) | FeedbackRef(feedbackId: Id)

  datatype Anchor = Anchor(
    anchorId: Id, scope: Scope, key: Id, digest: string, bound: RecordRef,
    createdAt: Timestamp, trace: Id)

  datatype Conflict = Conflict(
    scope: Scope, key: Id, existingDigest: string, incomingDigest: string,
    occurredAt: Timestamp, trace: Id)

  // ---------------------------------------------------------------- audit

  datatype Subject =
    | PublicationSubject(publicationId: Id)
    | DeliverySubject(deliveryId: Id)
    | RetryPlanSubject(retryPlanId: Id)
    | DeadLetterSubject(deadLetterId: Id)
    | ReplaySubject(replayId: Id)
    | KeySubject(scope: Scope, key: Id)

  datatype Action =
    | PublicationAccepted | PublicationRejected(why: RejectReason)
    | DeliveryDispatchStarted | DeliveryDelivered | DeliveryFailed(failure: string)
    | FeedbackRecorded(status: FeedbackStatus)
    | RetryRequested | RetryAttempted | RetryExhausted
    | DeadLetterCreated | ReplayPreparationReady | ReplayAccessRejected
    | BackendSignalIgnored | TimeoutSignalIgnored | IdempotencyConflict

  datatype AuditEntry = AuditEntry(
    auditRef: Id, subject: Subject, action: Action, actor: Actor, occurredAt: Timestamp, trace: Id)

  /** The chain reference built from an audit reference. */
  function ChainRef(auditRef: Id): Id {
    "audit_chain_" + Sanitize(auditRef)
  }

  // ---------------------------------------------------------------- projections

  datatype TransportView = TransportView(viewId: Id, version: string, body: string)
  datatype FailureSummary = FailureSummary(summaryId: Id, body: string)
  datatype BackendHealth = BackendHealth(backendId: Id, body: string)

  // ---------------------------------------------------------------- errors

  datatype DomainError =
    | InvalidDeliveryRecord(field: string)
    | InvalidPublicationMaterial(field: string)
    | InvalidFeedbackResult(field: string)
    | InvalidRetryPlan(field: string)
    | InvalidDeadLetterEntry(field: string)
    | InvalidReplayPreparation(field: string)
    | InvalidFailureMaterial(field: string)
    | InvalidDeliveryTransition(source: DeliveryStatus, target: DeliveryStatus)
    | TerminalDeliveryStateReopenRejected
    | AttemptNotFinished | AttemptAlreadyFinished | AttemptDoesNotBelongToDelivery
    | AttemptOutcomeDoesNotDeliver | AttemptRefMismatch | AttemptFinishedBeforeStart
    | InvalidRetryPlanTransition | RetryNotAllowed | RetryExhaustedCannotDispatch
    | InvalidDeadLetterTransition | DeadLetterNotAllowed | DeadLetterClosed
    | InvalidReplayPreparationTransition | ReplayPreparationNotAllowed
    | InvalidStateTransition

  datatype RepositoryError =
    | Unavailable | VersionConflict | UniqueViolation | SequenceConflict | CorruptedRecord

  datatype UnitOfWorkError =
    | BeginFailed | CommitFailed | CommitUncertain | RollbackFailed | InvalidHandle

  datatype TransportError =
    | BackendUnavailable | CapabilityMismatch | DispatchTimeout | PrivateBodyViolation

  /** Protocol failures: category, stable code and the auditable details reference. */
  datatype ServiceError =
    | ValidationError(code: string, details: Option<Id>)
    | NotFoundError(code: string)
    | ConflictError(code: string, details: Option<Id>)
    | BoundaryError(code: string, details: Option<Id>)
    | DependencyError(code: string)
    | InternalError(code: string)
  {
    /** Whether a consumer treats the failure as a decided, rejected item. */
    predicate IsRejectedItem() {
      ValidationError? || ConflictError? || BoundaryError?
    }
  }

  function FromDomain(e: DomainError): ServiceError {
    match e
    case InvalidDeliveryRecord(_) => ValidationError("validation.delivery_record", None)
    case InvalidPublicationMaterial(_) => ValidationError("validation.publication_material", None)
    case InvalidFeedbackResult(_) => ValidationError("validation.feedback_result", None)
    case InvalidRetryPlan(_) => ValidationError("validation.retry_plan", None)
    case InvalidDeadLetterEntry(_) => ValidationError("validation.dead_letter_entry", None)
    case InvalidReplayPreparation(_) => ValidationError("validation.replay_preparation", None)
    case InvalidFailureMaterial(_) => ValidationError("validation.failure_material", None)
    case InvalidStateTransition => ConflictError("conflict.publication_state", None)
    case InvalidRetryPlanTransition | RetryNotAllowed | RetryExhaustedCannotDispatch =>
      ConflictError("conflict.retry_plan_state", None)
    case InvalidDeadLetterTransition | DeadLetterNotAllowed | DeadLetterClosed =>
      ConflictError("conflict.dead_letter_state", None)
    case InvalidReplayPreparationTransition | ReplayPreparationNotAllowed =>
      ConflictError("conflict.replay_preparation_state", None)
    case _ => ConflictError("conflict.delivery_state", None)
  }

  const Corrupted: ServiceError := InternalError("internal.corrupted_record")

  function FromRepository(e: RepositoryError): ServiceError {
    match e
    case Unavailable => DependencyError("dependency.repository_unavailable")
    case VersionConflict => ConflictError("conflict.version", None)
    case UniqueViolation => ConflictError("conflict.unique", None)
    case SequenceConflict => ConflictError("conflict.audit_sequence", None)
    case CorruptedRecord => Corrupted
  }

  function FromUnitOfWork(e: UnitOfWorkError): ServiceError {
    match e
    case BeginFailed => DependencyError("dependency.transaction_unavailable")
    case CommitFailed => DependencyError("dependency.commit_failed")
    case CommitUncertain => InternalError("internal.commit_uncertain")
    case RollbackFailed => InternalError("internal.rollback_failed")
    case InvalidHandle => InternalError("internal.invalid_transaction_handle")
  }

  function FromTransport(e: TransportError): ServiceError {
    match e
    case BackendUnavailable | DispatchTimeout => DependencyError("dependency.transport_backend_unavailable")
    case CapabilityMismatch => ConflictError("conflict.backend_capability_mapping", None)
    case PrivateBodyViolation => BoundaryError("boundary.backend_private_field_rejected", None)
  }

  const IdsExhausted: ServiceError := InternalError("internal.id_generation_failed")
}
