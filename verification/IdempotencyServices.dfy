/** Recording a key reused for a different request, shared by every idempotent entry point. */
module IdempotencyServices {
  import opened Common
  import opened Records
  import opened StoreModel
  import opened Store
  import opened Steps
  import opened Adapters
  import opened IdempotencySteps

  /** Stages an anchor. */
  method Bind(deps: Runtime, handle: nat, anchor: Anchor) returns (r: Result<(), ServiceError>)
    requires deps.Ready() && handle in deps.store.transactions
    modifies deps.store`transactions
    ensures deps.Ready()
    ensures Advanced(old(deps.Seen()), handle, deps.Seen(),
      Silent(Staging(BindAnchor(deps.store.committed, Some(old(deps.store.transactions)[handle]), anchor))), r)
  {
    var bound := deps.store.StageAnchor(handle, anchor);
    if bound.Err? {
      var e := deps.RollbackWith(handle, FromRepository(bound.error));
      return Err(e);
    }
    Replaced(old(deps.store.transactions), handle, deps.store.transactions[handle]);
    r := Ok(());
  }

  method LogWithin(deps: Runtime, handle: nat, scope: Scope, key: Id, existing: Anchor, incoming: string, actor: Actor,
                   trace: Id, ports: Ports) returns (r: Result<Id, ServiceError>)
    requires deps.Ready() && Get(deps.store.transactions, handle) == Some(NOTHING)
    modifies deps.store`transactions, deps.auditTrail
    ensures deps.Ready()
    ensures Advanced(old(deps.Seen()), handle, deps.Seen(),
      LogConflict(scope, key, existing, incoming, actor, trace, ports, old(deps.Seen().faults)), r)
  {
    var conflict := Conflict(scope, key, existing.digest, incoming, ports.now, trace);
    var marked := deps.store.StageConflict(handle, conflict);
    Replaced(old(deps.store.transactions), handle, deps.store.transactions[handle]);
    hide Steps.Log;
    r := deps.Log(handle, ports.auditId, Unsigned(KeySubject(scope, key), IdempotencyConflict, actor, ports.now, trace));
  }

  method ConflictWithin<T(!new)>(deps: Runtime, handle: nat, scope: Scope, key: Id, existing: Anchor, incoming: string,
                                 actor: Actor, trace: Id, ports: Ports) returns (r: Result<T, ServiceError>)
    requires deps.Ready() && Get(deps.store.transactions, handle) == Some(NOTHING)
    modifies deps.store`transactions, deps.store`committed, deps.unitOfWork, deps.auditTrail
    ensures deps.Ready()
    ensures Ended(old(deps.Seen()), handle, deps.Seen(),
      RecordConflict<T>(scope, key, existing, incoming, actor, trace, ports, old(deps.Seen().faults)), r)
  {
    hide LogConflict, Overlay;
    var logged := LogWithin(deps, handle, scope, key, existing, incoming, actor, trace, ports);
    if logged.Err? {
      return Err(logged.error);
    }
    var failure := deps.Commit(handle);
    r := Err(if failure.Some? then failure.value else Reused(logged.value));
  }

  /** Records the conflict with the stored anchor and refuses the request. */
  method BeginConflict<T(!new)>(deps: Runtime, scope: Scope, key: Id, existing: Anchor, incoming: string, actor: Actor,
                                trace: Id, ports: Ports) returns (r: Result<T, ServiceError>)
    requires deps.Ready()
    modifies deps.store, deps.unitOfWork, deps.auditTrail
    ensures deps.Ready()
    ensures Performed(old(deps.Seen()), deps.Seen(),
      RecordConflict<T>(scope, key, existing, incoming, actor, trace, ports, old(deps.Seen().faults)), r)
  {
    hide ConflictBody;
    var handle := deps.Begin();
    ghost var began := deps.Seen();
    r := ConflictWithin(deps, handle, scope, key, existing, incoming, actor, trace, ports);
    BegunEnds(old(deps.Seen()), handle, began, deps.Seen(),
              RecordConflict<T>(scope, key, existing, incoming, actor, trace, ports, began.faults), r);
  }
}
