/** What accepting a publication, by command or from an outbox fact, does to the committed state. */
module PublicationSteps {
  import opened Common
  import opened Records
  import opened StoreModel
  import opened Digest
  import opened Steps
  import opened PublicationRules
  import opened IdempotencySteps

  /** A decided publication: accepted, or rejected for a reason. */
  datatype Ruling = Ruling(publicationId: Id, rejection: Option<RejectReason>, auditRef: Id)

  datatype RelayStatus = RelayAccepted | RelayDuplicate

  datatype RelayReceipt = RelayReceipt(publicationId: Id, status: RelayStatus, auditRef: Id)

  function RejectedError(r: Ruling): ServiceError {
    if r.rejection == Some(PayloadBoundaryViolation) then BoundaryError("boundary.payload_body_rejected", Some(r.auditRef))
    else ValidationError("validation.core_event_ref_missing", Some(r.auditRef))
  }

  // ---------------------------------------------------------------- replayed requests

  /** The ruling a stored acceptance stands for. */
  function RulingOf(a: Acceptance): Result<Ruling, ServiceError> {
    match a.status
    case AcceptedPublication =>
      if a.decisionAuditRef.None? then Err(Corrupted) else Ok(Ruling(a.publicationId, None, a.decisionAuditRef.value))
    case RejectedPublication =>
      if a.rejectReason.None? || a.decisionAuditRef.None? then Err(Corrupted)
      else Ok(Ruling(a.publicationId, a.rejectReason, a.decisionAuditRef.value))
    case Pending => Err(Corrupted)
  }

  function ExistingRuling(c: Committed, a: Anchor): Result<Ruling, ServiceError> {
    match a.bound
    case PublicationRef(id) => if id in c.publications then RulingOf(c.publications[id]) else Err(Corrupted)
    case FeedbackRef(_) => Err(Corrupted)
  }

  // ---------------------------------------------------------------- deciding

  function StageDecision(c: Committed, m: Material, decided: Acceptance): Result<Staged, Stop> {
    var s :- Staging(StoreMaterial(c, Some(NOTHING), m));
    Staging(InsertPublication(c, Some(s), decided))
  }

  function DecisionAction(decision: Option<RejectReason>): Action {
    if decision.Some? then PublicationRejected(decision.value) else PublicationAccepted
  }

  function WriteDecision(c: Committed, m: Material, decided: Acceptance, entry: AuditEntry, anchor: Anchor, faults: Faults)
    : Result<Staged, Stop>
  {
    var s :- StageDecision(c, m, decided);
    var logged :- Append(s, faults, entry);
    Staging(BindAnchor(c, Some(logged), anchor))
  }

  function DecideBody(c: Committed, m: Material, a: Acceptance, scope: Scope, key: Id, digest: string, actor: Actor, trace: Id,
                      ports: Ports, faults: Faults): Body<Ruling>
  {
    var auditRef :- NextId(ports.auditId);
    var decided :- Kept(Deciding(a, Decision(m), ports.now, auditRef));
    var anchorId :- NextId(ports.anchorId);
    var s :- WriteDecision(c, m, decided,
      AuditEntry(auditRef, PublicationSubject(decided.publicationId), DecisionAction(Decision(m)), actor, ports.now, trace),
      Anchor(anchorId, scope, key, digest, PublicationRef(decided.publicationId), ports.now, trace), faults);
    Ok((s, RulingOf(decided)))
  }

  /** A refused transition leaves through an early return, without rolling back. */
  function Kept<T>(r: Result<T, DomainError>): Result<T, Stop> {
    match r
    case Ok(v) => Ok(v)
    case Err(e) => Err(LeaveOpen(FromDomain(e)))
  }

  function Decide(c: Committed, material: Result<Material, DomainError>, scope: Scope, key: Id, digest: string, actor: Actor,
                  trace: Id, ports: Ports, faults: Faults): Step<Ruling>
  {
    match material
    case Err(e) => Refuse(FromDomain(e), faults)
    case Ok(m) =>
      match StartPending(m)
      case Err(e) => Refuse(FromDomain(e), faults)
      case Ok(a) => Finish(DecideBody(c, m, a, scope, key, digest, actor, trace, ports, faults), faults)
  }

  /** The ruling on a request: the stored one when it repeats, a refusal when its key is reused, else a new one. */
  function Rule(c: Committed, material: Result<Material, DomainError>, scope: Scope, key: Id, digest: string, actor: Actor,
                trace: Id, ports: Ports, faults: Faults): Step<Ruling>
  {
    match FindAnchor(c, scope, key)
    case Some(a) =>
      if a.digest == digest then Step(NeverBegan, ExistingRuling(c, a), faults)
      else RecordConflict(scope, key, a, digest, actor, trace, ports, faults)
    case None => Decide(c, material, scope, key, digest, actor, trace, ports, faults)
  }

  // ---------------------------------------------------------------- the two entry points

  /** A rejection is reported as an error that names its audit entry. */
  function Announced(r: Result<Ruling, ServiceError>): Result<Ruling, ServiceError> {
    match r
    case Ok(ruling) => if ruling.rejection.None? then Ok(ruling) else Err(RejectedError(ruling))
    case Err(e) => Err(e)
  }

  function Accept(c: Committed, m: PublicationCommand, key: Option<Id>, actor: Actor, trace: Id, ports: Ports, faults: Faults)
    : Step<Ruling>
  {
    if key.None? then Refuse(ValidationError("validation.idempotency_key_missing", None), faults)
    else
      var step := Rule(c, MaterialFromCommand(m, actor, trace), AcceptScope(m), key.value, RequestDigest(m.canonical), actor,
                       trace, ports, faults);
      Step(step.exit, Announced(step.outcome), step.faults)
  }

  function Relayed(repeats: bool, r: Result<Ruling, ServiceError>): Result<RelayReceipt, ServiceError> {
    var ruling :- Announced(r);
    Ok(RelayReceipt(ruling.publicationId, if repeats then RelayDuplicate else RelayAccepted, ruling.auditRef))
  }

  function AcceptFact(c: Committed, f: OutboxFact, actor: Actor, trace: Id, ports: Ports, faults: Faults): Step<RelayReceipt> {
    var step := Rule(c, MaterialFromFact(f, actor, trace), FactScope(f), f.idempotencyKey, RequestDigest(f.canonical), actor,
                     trace, ports, faults);
    Step(step.exit, Relayed(FindAnchor(c, FactScope(f), f.idempotencyKey).Some?, step.outcome), step.faults)
  }
}
