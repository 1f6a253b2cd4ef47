/** What progressing one scheduled delivery does to the committed state. */
module DeliverySteps {
  import opened Common
  import opened Records
  import opened StoreModel
  import opened Steps
  import Rules = DeliveryRules

  datatype Progress = Progress(deliveryId: Id, finalStatus: DeliveryStatus, retryable: bool, manualAction: bool)

  function AuditRefFor(deliveryId: Id, text: string, at: Timestamp): Id {
    "audit_" + Sanitize(deliveryId) + "_" + text + "_" + Sanitize(at)
  }

  predicate Retryable(answer: Result<BackendResult, TransportError>) {
    answer.Err? && (answer.error.BackendUnavailable? || answer.error.DispatchTimeout?)
  }

  predicate NeedsManualAction(answer: Result<BackendResult, TransportError>) {
    answer.Err? && answer.error.PrivateBodyViolation?
  }

  function StartedEntry(id: Id, actor: Actor, at: Timestamp, trace: Id): AuditEntry {
    AuditEntry(AuditRefFor(id, "dispatching", at), DeliverySubject(id), DeliveryDispatchStarted, actor, at, trace)
  }

  function OutcomeEntry(id: Id, answer: Result<BackendResult, TransportError>, actor: Actor, at: Timestamp, trace: Id)
    : AuditEntry
  {
    match answer
    case Ok(_) => AuditEntry(AuditRefFor(id, "delivered", at), DeliverySubject(id), DeliveryDelivered, actor, at, trace)
    case Err(e) =>
      AuditEntry(AuditRefFor(id, "failed", at), DeliverySubject(id), DeliveryFailed(Rules.DispatchFailureReason(e)),
                 actor, at, trace)
  }

  function StageDispatch(c: Committed, d: Delivery, startedAt: Timestamp, answer: Result<BackendResult, TransportError>,
                         finishedAt: Timestamp): Result<(Staged, Delivery), Stop>
  {
    var (after, _) :- Checked(Rules.Dispatch(d, d.status, startedAt, answer, finishedAt));
    var s :- Staging(SaveDelivery(c, Some(NOTHING), after, d.version));
    Ok((s, after))
  }

  function DispatchBody(c: Committed, d: Delivery, actor: Actor, trace: Id, startedAt: Timestamp,
                        answer: Result<BackendResult, TransportError>, finishedAt: Timestamp, faults: Faults): Body<Progress>
  {
    var (s1, after) :- StageDispatch(c, d, startedAt, answer, finishedAt);
    var s2 :- Append(s1, faults, StartedEntry(d.deliveryId, actor, startedAt, trace));
    var s3 :- Append(s2, faults, OutcomeEntry(d.deliveryId, answer, actor, finishedAt, trace));
    Ok((s3, Ok(Progress(d.deliveryId, after.status, Retryable(answer), NeedsManualAction(answer)))))
  }

  function ProgressBody(c: Committed, id: Id, actor: Actor, trace: Id, startedAt: Timestamp,
                        answer: Result<BackendResult, TransportError>, finishedAt: Timestamp, faults: Faults): Body<Progress>
  {
    match Get(c.deliveries, id)
    case None => Err(RollBack(NotFoundError("not_found.delivery")))
    case Some(d) => DispatchBody(c, d, actor, trace, startedAt, answer, finishedAt, faults)
  }

  function ProgressOne(c: Committed, id: Id, actor: Actor, trace: Id, startedAt: Timestamp,
                       answer: Result<BackendResult, TransportError>, finishedAt: Timestamp, faults: Faults): Step<Progress>
  {
    Finish(ProgressBody(c, id, actor, trace, startedAt, answer, finishedAt, faults), faults)
  }
}
