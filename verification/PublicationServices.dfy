/** Accepting publications, from commands and from committed outbox facts. */
module PublicationServices {
  import opened Common
  import opened Records
  import opened StoreModel
  import opened Store
  import opened Digest
  import opened Steps
  import opened Adapters
  import opened PublicationRules
  import opened PublicationSteps
  import opened IdempotencySteps
  import opened IdempotencyServices

  class PublicationAcceptanceService {
    const deps: Runtime

    constructor (deps: Runtime)
      ensures this.deps == deps
    {
      this.deps := deps;
    }

    /** Stages the material and its decision. */
    method StageBoth(handle: nat, material: Material, decided: Acceptance) returns (r: Result<(), ServiceError>)
      requires deps.Ready() && Get(deps.store.transactions, handle) == Some(NOTHING)
      modifies deps.store`transactions
      ensures deps.Ready()
      ensures Advanced(old(deps.Seen()), handle, deps.Seen(), Silent(StageDecision(deps.store.committed, material, decided)), r)
    {
      var stored := deps.store.StageMaterial(handle, material);
      if stored.Err? {
        var e := deps.RollbackWith(handle, FromRepository(stored.error));
        return Err(e);
      }
      Replaced(old(deps.store.transactions), handle, deps.store.transactions[handle]);
      label Stored:
      var inserted := deps.store.StagePublication(handle, decided);
      if inserted.Err? {
        var e := deps.RollbackWith(handle, FromRepository(inserted.error));
        return Err(e);
      }
      Replaced(old@Stored(deps.store.transactions), handle, deps.store.transactions[handle]);
      r := Ok(());
    }

    /** Accepts or rejects the pending acceptance in place. */
    method Settle(acceptance: AcceptanceRecord, decision: Option<RejectReason>, at: Timestamp, auditRef: Id)
      returns (r: Result<(), DomainError>)
      modifies acceptance
      ensures Updated(old(acceptance.Snapshot()), acceptance.Snapshot(),
                      Deciding(old(acceptance.Snapshot()), decision, at, auditRef), r)
    {
      match decision {
        case Some(reason) => r := acceptance.Reject(reason, auditRef);
        case None => r := acceptance.Accept(at, auditRef);
      }
    }

    /** Stages the material, the decision, its audit entry and the anchor. */
    method Write(handle: nat, material: Material, decided: Acceptance, entry: AuditEntry, anchor: Anchor)
      returns (r: Result<(), ServiceError>)
      requires deps.Ready() && Get(deps.store.transactions, handle) == Some(NOTHING)
      modifies deps.store`transactions, deps.auditTrail
      ensures deps.Ready()
      ensures Advanced(old(deps.Seen()), handle, deps.Seen(),
        Silent(WriteDecision(deps.store.committed, material, decided, entry, anchor, old(deps.Seen().faults))), r)
    {
      hide StageDecision, Steps.Append, Staging, BindAnchor;
      var staged := StageBoth(handle, material, decided);
      if staged.Err? {
        return Err(staged.error);
      }
      var logged := deps.Append(handle, entry);
      if logged.Err? {
        return Err(logged.error);
      }
      r := Bind(deps, handle, anchor);
    }

    /** Draws the identifiers, then stages material, decision, audit entry and anchor together and commits them. */
    method DecideWithin(handle: nat, material: Material, pending: Acceptance, scope: Scope, key: Id, digest: string,
                        actor: Actor, trace: Id, ports: Ports) returns (r: Result<Ruling, ServiceError>)
      requires deps.Ready() && Get(deps.store.transactions, handle) == Some(NOTHING)
      modifies deps.store`transactions, deps.store`committed, deps.unitOfWork, deps.auditTrail
      ensures deps.Ready()
      ensures Ended(old(deps.Seen()), handle, deps.Seen(),
        Finish(DecideBody(old(deps.store.committed), material, pending, scope, key, digest, actor, trace, ports,
                          old(deps.Seen().faults)), old(deps.Seen().faults)), r)
    {
      hide Overlay, WriteDecision, Deciding, Decision, RulingOf;
      if ports.auditId.None? {
        return Err(IdsExhausted);
      }
      var decision := Decision(material);
      var acceptance := new AcceptanceRecord(pending);
      var settled := Settle(acceptance, decision, ports.now, ports.auditId.value);
      if settled.Err? {
        return Err(FromDomain(settled.error));
      }
      if ports.anchorId.None? {
        return Err(IdsExhausted);
      }
      var decided := acceptance.Snapshot();
      var written := Write(handle, material, decided,
        AuditEntry(ports.auditId.value, PublicationSubject(decided.publicationId), DecisionAction(decision), actor, ports.now, trace),
        Anchor(ports.anchorId.value, scope, key, digest, PublicationRef(decided.publicationId), ports.now, trace));
      if written.Err? {
        return Err(written.error);
      }
      var failure := deps.Commit(handle);
      if failure.Some? {
        return Err(failure.value);
      }
      r := RulingOf(decided);
    }

    method DecideNew(material: Result<Material, DomainError>, scope: Scope, key: Id, digest: string, actor: Actor, trace: Id,
                     ports: Ports) returns (r: Result<Ruling, ServiceError>)
      requires deps.Ready()
      modifies deps.store, deps.unitOfWork, deps.auditTrail
      ensures deps.Ready()
      ensures Performed(old(deps.Seen()), deps.Seen(),
        Decide(old(deps.store.committed), material, scope, key, digest, actor, trace, ports, old(deps.Seen().faults)), r)
    {
      hide DecideBody;
      if material.Err? {
        return Err(FromDomain(material.error));
      }
      var pending := StartPending(material.value);
      if pending.Err? {
        return Err(FromDomain(pending.error));
      }
      var handle := deps.Begin();
      ghost var began := deps.Seen();
      r := DecideWithin(handle, material.value, pending.value, scope, key, digest, actor, trace, ports);
      BegunEnds(old(deps.Seen()), handle, began, deps.Seen(),
                Decide(began.committed, material, scope, key, digest, actor, trace, ports, began.faults), r);
    }

    /** The ruling on a request: the stored one when it repeats, a refusal when its key is reused, else a new one. */
    method Rule(material: Result<Material, DomainError>, scope: Scope, key: Id, digest: string, actor: Actor, trace: Id,
                ports: Ports) returns (r: Result<Ruling, ServiceError>)
      requires deps.Ready()
      modifies deps.store, deps.unitOfWork, deps.auditTrail
      ensures deps.Ready()
      ensures Performed(old(deps.Seen()), deps.Seen(),
        PublicationSteps.Rule(old(deps.store.committed), material, scope, key, digest, actor, trace, ports, old(deps.Seen().faults)), r)
    {
      hide Decide, RecordConflict, ExistingRuling;
      var existing := FindAnchor(deps.store.committed, scope, key);
      match existing {
        case Some(anchor) =>
          if anchor.digest == digest {
            r := ExistingRuling(deps.store.committed, anchor);
          } else {
            r := BeginConflict(deps, scope, key, anchor, digest, actor, trace, ports);
          }
        case None =>
          r := DecideNew(material, scope, key, digest, actor, trace, ports);
      }
    }

    /** Accepts or rejects a publication command. */
    method AcceptCommand(m: PublicationCommand, key: Option<Id>, actor: Actor, trace: Id, ports: Ports)
      returns (r: Result<Ruling, ServiceError>)
      requires deps.Ready()
      modifies deps.store, deps.unitOfWork, deps.auditTrail
      ensures deps.Ready()
      ensures Performed(old(deps.Seen()), deps.Seen(),
        Accept(old(deps.store.committed), m, key, actor, trace, ports, old(deps.Seen().faults)), r)
    {
      hide PublicationSteps.Rule, RequestDigest, MaterialFromCommand;
      if key.None? {
        return Err(ValidationError("validation.idempotency_key_missing", None));
      }
      var ruling := Rule(MaterialFromCommand(m, actor, trace), AcceptScope(m), key.value, RequestDigest(m.canonical), actor, trace, ports);
      r := Announced(ruling);
    }

    /** Consumes a committed outbox fact. */
    method AcceptFromOutboxFact(f: OutboxFact, actor: Actor, trace: Id, ports: Ports) returns (r: Result<RelayReceipt, ServiceError>)
      requires deps.Ready()
      modifies deps.store, deps.unitOfWork, deps.auditTrail
      ensures deps.Ready()
      ensures Performed(old(deps.Seen()), deps.Seen(),
        AcceptFact(old(deps.store.committed), f, actor, trace, ports, old(deps.Seen().faults)), r)
    {
      hide PublicationSteps.Rule, RequestDigest, MaterialFromFact;
      var repeats := FindAnchor(deps.store.committed, FactScope(f), f.idempotencyKey).Some?;
      var ruling := Rule(MaterialFromFact(f, actor, trace), FactScope(f), f.idempotencyKey, RequestDigest(f.canonical), actor, trace, ports);
      r := Relayed(repeats, ruling);
    }
  }
}
