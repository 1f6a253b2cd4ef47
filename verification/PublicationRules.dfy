/** Publication material and acceptance: constructors, decisions and the payload guard. */
module PublicationRules {
  import opened Common
  import opened Records
  import opened Digest

  datatype PublicationCommand = PublicationCommand(
    sourceSystem: Id, sourceRecordRef: Id, coreEventRef: Id, payloadRef: string, payloadDigest: Id,
    projectId: Id, topic: Id, canonical: seq<Byte>)

  datatype OutboxFact = OutboxFact(
    factRef: Id, eventId: Id, sourceRef: Id, idempotencyKey: Id, envelopeRef: Id,
    sourceSystem: Id, sourceRecordRef: Id, coreEventRef: Id, payloadRef: string, payloadDigest: Id,
    projectId: Id, topic: Id, canonical: seq<Byte>)

  function PublicationId(sourceSystem: Id, sourceRecordRef: Id): Id {
    "pub_" + Sanitize(sourceSystem) + "_" + Sanitize(sourceRecordRef)
  }

  // ---------------------------------------------------------------- material

  function MaterialFromCommand(c: PublicationCommand, actor: Actor, trace: Id): Result<Material, DomainError> {
    if IsBlank(c.sourceSystem) then Err(InvalidPublicationMaterial("source_system"))
    else if IsBlank(c.sourceRecordRef) then Err(InvalidPublicationMaterial("source_record_ref"))
    else if IsBlank(c.payloadRef) then Err(InvalidPublicationMaterial("payload_ref"))
    else if IsBlank(c.payloadDigest) then Err(InvalidPublicationMaterial("payload_digest"))
    else if IsBlank(c.projectId) then Err(InvalidPublicationMaterial("target_scope.project_id"))
    else if IsBlank(c.topic) then Err(InvalidPublicationMaterial("target_scope.topic"))
    else
      Ok(Material(PublicationId(c.sourceSystem, c.sourceRecordRef), c.sourceSystem, c.sourceRecordRef, c.coreEventRef,
                  None, c.payloadRef, c.payloadDigest, c.projectId, c.topic, None, actor, trace))
  }

  function MaterialFromFact(f: OutboxFact, actor: Actor, trace: Id): Result<Material, DomainError> {
    if IsBlank(f.sourceSystem) then Err(InvalidPublicationMaterial("source_system"))
    else if IsBlank(f.sourceRecordRef) then Err(InvalidPublicationMaterial("source_record_ref"))
    else if IsBlank(f.envelopeRef) then Err(InvalidPublicationMaterial("core_event_envelope_ref"))
    else if IsBlank(f.payloadRef) then Err(InvalidPublicationMaterial("payload_ref"))
    else if IsBlank(f.payloadDigest) then Err(InvalidPublicationMaterial("payload_digest"))
    else if IsBlank(f.projectId) then Err(InvalidPublicationMaterial("target_scope.project_id"))
    else if IsBlank(f.topic) then Err(InvalidPublicationMaterial("target_scope.topic"))
    else
      Ok(Material(PublicationId(f.sourceSystem, f.sourceRecordRef), f.sourceSystem, f.sourceRecordRef, f.coreEventRef,
                  Some(f.envelopeRef), f.payloadRef, f.payloadDigest, f.projectId, f.topic, Some(f.factRef), actor, trace))
  }

  predicate HasCoreContract(m: Material) {
    !IsBlank(m.coreEventRef)
  }

  /** The payload reference looks like a body instead of a reference. */
  predicate RejectsBody(m: Material) {
    var value := Trim(m.payloadRef);
    || value == []
    || value[0] == '{' || value[0] == '['
    || '\n' in value || '\r' in value
    || Contains(value, "\"secret\"") || Contains(value, "\"payload\"")
  }

  /** The decision the service takes on the material. */
  function Decision(m: Material): Option<RejectReason> {
    if !HasCoreContract(m) then Some(MissingCoreEventRef)
    else if RejectsBody(m) then Some(PayloadBoundaryViolation)
    else None
  }

  // ---------------------------------------------------------------- acceptance

  function StartPending(m: Material): Result<Acceptance, DomainError> {
    if IsBlank(m.payloadRef) then Err(InvalidPublicationMaterial("payload_ref"))
    else Ok(Acceptance("acceptance_" + Sanitize(m.publicationId), m.publicationId, Pending, None, None, None))
  }

  function Accepting(a: Acceptance, at: Timestamp, auditRef: Id): Result<Acceptance, DomainError> {
    if a.status != Pending then Err(InvalidStateTransition)
    else Ok(a.(status := AcceptedPublication, rejectReason := None, acceptedAt := Some(at), decisionAuditRef := Some(auditRef)))
  }

  function Rejecting(a: Acceptance, reason: RejectReason, auditRef: Id): Result<Acceptance, DomainError> {
    if a.status != Pending then Err(InvalidStateTransition)
    else Ok(a.(status := RejectedPublication, rejectReason := Some(reason), acceptedAt := None, decisionAuditRef := Some(auditRef)))
  }

  function Deciding(a: Acceptance, decision: Option<RejectReason>, at: Timestamp, auditRef: Id): Result<Acceptance, DomainError> {
    if decision.Some? then Rejecting(a, decision.value, auditRef) else Accepting(a, at, auditRef)
  }

  // ---------------------------------------------------------------- scopes

  function AcceptScope(c: PublicationCommand): Scope {
    Scope(CommandEntry, AcceptPublication, Some(c.projectId + "::" + c.topic))
  }

  function FactScope(f: OutboxFact): Scope {
    Scope(EventEntry, ConsumeCommittedOutboxFact, Some(f.sourceRef + "::" + f.eventId))
  }

  // ---------------------------------------------------------------- the acceptance updated in place

  class AcceptanceRecord {
    const acceptanceId: Id
    const publicationId: Id
    var status: AcceptanceStatus
    var rejectReason: Option<RejectReason>
    var acceptedAt: Option<Timestamp>
    var decisionAuditRef: Option<Id>

    function Snapshot(): Acceptance
      reads this
    {
      Acceptance(acceptanceId, publicationId, status, rejectReason, acceptedAt, decisionAuditRef)
    }

    constructor (a: Acceptance)
      ensures Snapshot() == a
    {
      acceptanceId, publicationId, status := a.acceptanceId, a.publicationId, a.status;
      rejectReason, acceptedAt, decisionAuditRef := a.rejectReason, a.acceptedAt, a.decisionAuditRef;
    }

    method Accept(at: Timestamp, auditRef: Id) returns (r: Result<(), DomainError>)
      modifies this
      ensures Updated(old(Snapshot()), Snapshot(), Accepting(old(Snapshot()), at, auditRef), r)
    {
      if status != Pending {
        return Err(InvalidStateTransition);
      }
      status := AcceptedPublication;
      rejectReason := None;
      acceptedAt := Some(at);
      decisionAuditRef := Some(auditRef);
      r := Ok(());
    }

    method Reject(reason: RejectReason, auditRef: Id) returns (r: Result<(), DomainError>)
      modifies this
      ensures Updated(old(Snapshot()), Snapshot(), Rejecting(old(Snapshot()), reason, auditRef), r)
    {
      if status != Pending {
        return Err(InvalidStateTransition);
      }
      status := RejectedPublication;
      rejectReason := Some(reason);
      acceptedAt := None;
      decisionAuditRef := Some(auditRef);
      r := Ok(());
    }
  }
}
