/** The adapters the services run on: unit of work, audit repository and their shared store. */
module Adapters {
  import opened Common
  import opened Records
  import opened StoreModel
  import opened Store
  import opened Steps

  class InMemoryUnitOfWork {
    const store: SharedMemoryStore
    var failNextCommit: Option<UnitOfWorkError>

    constructor (store: SharedMemoryStore)
      ensures this.store == store && failNextCommit == None
    {
      this.store := store;
      failNextCommit := None;
    }

    method FailNextCommit(error: UnitOfWorkError)
      modifies this
      ensures failNextCommit == Some(error)
    {
      failNextCommit := Some(error);
    }

    method Begin() returns (handle: nat)
      requires store.Valid()
      modifies store`nextTransactionId, store`transactions
      ensures store.Valid()
      ensures handle !in old(store.transactions) && handle == old(store.nextTransactionId) + 1 == store.nextTransactionId
      ensures store.transactions == old(store.transactions)[handle := NOTHING]
    {
      handle := store.BeginTransaction();
    }

    /** An armed failure is used up and the transaction stays staged; otherwise the store commits. */
    method Commit(handle: nat) returns (r: Result<nat, UnitOfWorkError>)
      modifies this, store`committed, store`transactions
      ensures failNextCommit == None
      ensures old(failNextCommit).Some? ==>
        && r == Err(old(failNextCommit).value)
        && store.committed == old(store.committed) && store.transactions == old(store.transactions)
      ensures old(failNextCommit).None? ==>
        && r == (if handle in old(store.transactions) then Ok(handle) else Err(InvalidHandle))
        && store.transactions == old(store.transactions) - {handle}
        && store.committed == Committing(old(store.committed), Get(old(store.transactions), handle))
    {
      if failNextCommit.Some? {
        r := Err(failNextCommit.value);
        failNextCommit := None;
      } else {
        r := store.CommitTransaction(handle);
      }
    }

    method Rollback(handle: nat) returns (r: Result<(), UnitOfWorkError>)
      modifies store`transactions
      ensures r == (if handle in old(store.transactions) then Ok(()) else Err(InvalidHandle))
      ensures store.transactions == old(store.transactions) - {handle}
    {
      r := store.RollbackTransaction(handle);
    }
  }

  class InMemoryAuditTrailRepository {
    const store: SharedMemoryStore
    var failNextAppend: Option<RepositoryError>

    constructor (store: SharedMemoryStore)
      ensures this.store == store && failNextAppend == None
    {
      this.store := store;
      failNextAppend := None;
    }

    method FailNextAppend(error: RepositoryError)
      modifies this
      ensures failNextAppend == Some(error)
    {
      failNextAppend := Some(error);
    }

    method Append(entry: AuditEntry, handle: nat) returns (r: Result<nat, RepositoryError>)
      modifies this, store`transactions
      ensures failNextAppend == None
      ensures old(failNextAppend).Some? ==>
        r == Err(old(failNextAppend).value) && store.transactions == old(store.transactions)
      ensures old(failNextAppend).None? ==>
        Stages(old(store.transactions), store.transactions, handle,
               AppendAudit(store.committed, Get(old(store.transactions), handle), entry), r)
    {
      if failNextAppend.Some? {
        r := Err(failNextAppend.value);
        failNextAppend := None;
      } else {
        r := store.StageAuditEntry(handle, entry);
      }
    }

    method AppendAccess(entry: AuditEntry) returns (r: Result<nat, RepositoryError>)
      modifies this, store`committed
      ensures failNextAppend == None
      ensures old(failNextAppend).Some? ==>
        r == Err(old(failNextAppend).value) && store.committed == old(store.committed)
      ensures old(failNextAppend).None? ==>
        && r == Ok(old(store.committed).auditSequence + 1)
        && store.committed == StoreModel.AppendAccess(old(store.committed), entry)
    {
      if failNextAppend.Some? {
        r := Err(failNextAppend.value);
        failNextAppend := None;
      } else {
        r := store.AppendAccessAuditEntry(entry);
      }
    }
  }

  /** Everything a service call can change. */
  datatype View = View(committed: Committed, open: map<nat, Staged>, last: nat, faults: Faults)

  /** The call ended as its step says; an abandoned transaction stays under the handle it was given. */
  ghost predicate Performed<T(!new)>(before: View, after: View, step: Step<T>, r: Result<T, ServiceError>) {
    if step.exit.NeverBegan? || step.exit.Appends? then
      && r == step.outcome
      && after == View(After(before.committed, step.exit), before.open, before.last, step.faults)
    else
      after.last == before.last + 1 && Ended(before.(last := after.last), after.last, after, step, r)
  }

  /** Inside a transaction: the call ended as its step says. */
  ghost predicate Ended<T(!new)>(before: View, handle: nat, after: View, step: Step<T>, r: Result<T, ServiceError>) {
    && r == step.outcome
    && after.committed == After(before.committed, step.exit)
    && after.faults == step.faults
    && after.last == before.last
    && LeftOver(before.open, handle, after.open, step.exit.LeavesOpen?)
  }

  /** The transaction is gone, or abandoned with whatever it had staged. */
  ghost predicate LeftOver(before: map<nat, Staged>, handle: nat, after: map<nat, Staged>, abandoned: bool) {
    && after - {handle} == before - {handle}
    && (handle in after <==> abandoned)
  }

  /** The transaction now holds the staged set; the others are as they were. */
  ghost predicate Holds(before: map<nat, Staged>, handle: nat, after: map<nat, Staged>, s: Staged) {
    Get(after, handle) == Some(s) && after - {handle} == before - {handle}
  }

  lemma Replaced<V>(m: map<nat, V>, h: nat, v: V)
    ensures m[h := v] - {h} == m - {h}
  {
  }

  lemma RemovedTwice<V>(m: map<nat, V>, h: nat)
    ensures m - {h} - {h} == m - {h}
  {
  }

  /** A part of a call inside its transaction: it goes on with what it staged, or stops as it should. */
  ghost predicate Advanced<V(!new)>(before: View, handle: nat, after: View, expected: Result<(Staged, V), Stop>,
                                    r: Result<V, ServiceError>)
  {
    && after.committed == before.committed && after.last == before.last
    && match expected
       case Ok((s, v)) => r == Ok(v) && Holds(before.open, handle, after.open, s) && after.faults == before.faults
       case Err(RollBack(e)) => r == Err(e) && LeftOver(before.open, handle, after.open, false) && after.faults == before.faults
       case Err(LeaveOpen(e)) => r == Err(e) && LeftOver(before.open, handle, after.open, true) && after.faults == before.faults
       case Err(AppendFault(e)) =>
         && r == Err(FromRepository(e)) && LeftOver(before.open, handle, after.open, false)
         && after.faults == before.faults.(append := None)
  }

  /** A call that began a transaction ends where its part inside the transaction ends. */
  lemma BegunEnds<T(!new)>(before: View, handle: nat, during: View, after: View, step: Step<T>, r: Result<T, ServiceError>)
    requires during == before.(open := before.open[handle := NOTHING], last := handle) && handle == before.last + 1
    requires !step.exit.NeverBegan? && !step.exit.Appends?
    requires Ended(during, handle, after, step, r)
    ensures Performed(before, after, step, r)
  {
    Replaced(before.open, handle, NOTHING);
  }

  /** Transactions already open are left as they were. */
  ghost predicate Undisturbed(before: map<nat, Staged>, after: map<nat, Staged>) {
    forall h | h in before :: Get(after, h) == Some(before[h])
  }

  /** No call touches a transaction another call has left open. */
  lemma PerformedUndisturbed<T(!new)>(before: View, after: View, step: Step<T>, r: Result<T, ServiceError>)
    requires Performed(before, after, step, r)
    requires forall h | h in before.open :: h <= before.last
    ensures Undisturbed(before.open, after.open)
  {
    if !step.exit.NeverBegan? && !step.exit.Appends? {
      forall h | h in before.open ensures Get(after.open, h) == Some(before.open[h]) {
        assert h in before.open - {after.last};
        assert h in after.open - {after.last};
      }
    }
  }

  class Runtime {
    const store: SharedMemoryStore
    const unitOfWork: InMemoryUnitOfWork
    const auditTrail: InMemoryAuditTrailRepository

    ghost predicate Ready()
      reads store
    {
      unitOfWork.store == store && auditTrail.store == store && store.Valid()
    }

    ghost function Seen(): View
      reads store, unitOfWork, auditTrail
    {
      View(store.committed, store.transactions, store.nextTransactionId,
           Faults(auditTrail.failNextAppend, unitOfWork.failNextCommit))
    }

    constructor (store: SharedMemoryStore)
      requires store.Valid()
      ensures Ready() && this.store == store && fresh(unitOfWork) && fresh(auditTrail)
      ensures Seen() == View(store.committed, store.transactions, store.nextTransactionId, NO_FAULTS)
    {
      this.store := store;
      unitOfWork := new InMemoryUnitOfWork(store);
      auditTrail := new InMemoryAuditTrailRepository(store);
    }

    method Begin() returns (handle: nat)
      requires Ready()
      modifies store`nextTransactionId, store`transactions
      ensures Ready() && handle == old(Seen()).last + 1 && Get(store.transactions, handle) == Some(NOTHING)
      ensures Seen() == old(Seen()).(open := old(Seen()).open[handle := NOTHING], last := handle)
    {
      handle := unitOfWork.Begin();
    }

    /** Rolls back a transaction and hands the error on; a lost handle replaces the error. */
    method RollbackWith(handle: nat, error: ServiceError) returns (e: ServiceError)
      requires Ready()
      modifies store`transactions
      ensures Ready()
      ensures e == if handle in old(store.transactions) then error else FromUnitOfWork(InvalidHandle)
      ensures LeftOver(old(store.transactions), handle, store.transactions, false)
    {
      var rolledBack := unitOfWork.Rollback(handle);
      RemovedTwice(old(store.transactions), handle);
      e := if rolledBack.Ok? then error else FromUnitOfWork(rolledBack.error);
    }

    /** Stages an audit entry; a failure rolls the transaction back. */
    method Append(handle: nat, entry: AuditEntry) returns (r: Result<nat, ServiceError>)
      requires Ready() && handle in store.transactions
      modifies store`transactions, auditTrail
      ensures Ready()
      ensures Advanced(old(Seen()), handle, Seen(),
        Numbered(Steps.Append(old(store.transactions)[handle], old(Seen().faults), entry), store.committed), r)
    {
      var appended := auditTrail.Append(entry, handle);
      if appended.Err? {
        var e := RollbackWith(handle, FromRepository(appended.error));
        return Err(e);
      }
      Replaced(old(store.transactions), handle, store.transactions[handle]);
      r := Ok(appended.value);
    }

    /** Draws the next audit identifier and stages the entry under it; without one the call leaves at once. */
    method Log(handle: nat, auditId: Option<Id>, entry: AuditEntry) returns (r: Result<Id, ServiceError>)
      requires Ready() && handle in store.transactions
      modifies store`transactions, auditTrail
      ensures Ready()
      ensures Advanced(old(Seen()), handle, Seen(),
        Steps.Log(old(store.transactions)[handle], auditId, entry, old(Seen().faults)), r)
    {
      if auditId.None? {
        return Err(IdsExhausted);
      }
      var logged := Append(handle, entry.(auditRef := auditId.value));
      if logged.Err? {
        return Err(logged.error);
      }
      r := Ok(auditId.value);
    }

    /** Commits; a failing commit leaves the transaction staged. */
    method Commit(handle: nat) returns (failure: Option<ServiceError>)
      requires Ready() && handle in store.transactions
      modifies store`transactions, store`committed, unitOfWork
      ensures Ready() && unitOfWork.failNextCommit == None
      ensures match old(unitOfWork.failNextCommit)
              case Some(e) => failure == Some(FromUnitOfWork(e)) && store.committed == old(store.committed)
                              && store.transactions == old(store.transactions)
              case None => failure == None && LeftOver(old(store.transactions), handle, store.transactions, false)
                           && store.committed == Overlay(old(store.committed), old(store.transactions)[handle])
    {
      ghost var armed := unitOfWork.failNextCommit;
      var committed := unitOfWork.Commit(handle);
      match committed {
        case Ok(_) =>
          assert armed.None?;
          RemovedTwice(old(store.transactions), handle);
          failure := None;
        case Err(e) =>
          assert armed.Some?;
          failure := Some(FromUnitOfWork(e));
      }
    }
  }

  /** Staging that reports nothing but success. */
  function Silent(r: Result<Staged, Stop>): Result<(Staged, ()), Stop> {
    match r
    case Ok(s) => Ok((s, ()))
    case Err(stop) => Err(stop)
  }

  /** A staged entry with its provisional number. */
  function Numbered(r: Result<Staged, Stop>, c: Committed): Result<(Staged, nat), Stop> {
    match r
    case Ok(s) => Ok((s, c.auditSequence + 1))
    case Err(stop) => Err(stop)
  }
}
