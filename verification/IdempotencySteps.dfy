/** Idempotency anchors: matching a repeated request and recording a reused key. */
module IdempotencySteps {
  import opened Common
  import opened Records
  import opened StoreModel
  import opened Steps

  function FindAnchor(c: Committed, scope: Scope, key: Id): Option<Anchor> {
    Get(c.anchors, (scope, key))
  }

  function Reused(auditRef: Id): ServiceError {
    ConflictError("conflict.idempotency_request_mismatch", Some(auditRef))
  }

  function LogConflict(scope: Scope, key: Id, existing: Anchor, incoming: string, actor: Actor, trace: Id, ports: Ports,
                       faults: Faults): Result<(Staged, Id), Stop>
  {
    var marked := NOTHING.(conflicts := NOTHING.conflicts + [Conflict(scope, key, existing.digest, incoming, ports.now, trace)]);
    Log(marked, ports.auditId, Unsigned(KeySubject(scope, key), IdempotencyConflict, actor, ports.now, trace), faults)
  }

  function ConflictBody<T>(scope: Scope, key: Id, existing: Anchor, incoming: string, actor: Actor, trace: Id,
                           ports: Ports, faults: Faults): Body<T>
  {
    var (s, auditRef) :- LogConflict(scope, key, existing, incoming, actor, trace, ports, faults);
    Ok((s, Err(Reused(auditRef))))
  }

  /** A key reused for a different request is recorded and refused. */
  function RecordConflict<T>(scope: Scope, key: Id, existing: Anchor, incoming: string, actor: Actor, trace: Id,
                             ports: Ports, faults: Faults): Step<T>
  {
    Finish(ConflictBody(scope, key, existing, incoming, actor, trace, ports, faults), faults)
  }

  /** The conflict is committed with its one entry exactly when an identifier is drawn and nothing fails. */
  lemma ConflictOutcome<T>(scope: Scope, key: Id, existing: Anchor, incoming: string, actor: Actor, trace: Id, ports: Ports,
                           faults: Faults)
    ensures var step := RecordConflict<T>(scope, key, existing, incoming, actor, trace, ports, faults);
      && step.outcome.Err? && !step.exit.Appends?
      && (step.exit.Commits? <==> ports.auditId.Some? && faults == NO_FAULTS)
      && (step.exit.Commits? ==>
            && step.exit.staged ==
               NOTHING.(conflicts := [Conflict(scope, key, existing.digest, incoming, ports.now, trace)],
                        audits := [AuditEntry(ports.auditId.value, KeySubject(scope, key), IdempotencyConflict, actor, ports.now, trace)])
            && step.outcome == Err(ConflictError("conflict.idempotency_request_mismatch", ports.auditId)))
  {
  }
}
