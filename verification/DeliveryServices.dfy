/** Dispatching scheduled deliveries through the backend, one by one and in batches. */
module DeliveryServices {
  import opened Common
  import opened Records
  import opened StoreModel
  import opened Store
  import opened Steps
  import opened Adapters
  import opened DeliveryRecords
  import opened DeliverySteps
  import opened DeliveryBatches
  import opened Jobs
  import Flows = DeliveryFlows
  import Rules = DeliveryRules

  class DeliveryProgressionService {
    const deps: Runtime

    constructor (deps: Runtime)
      ensures this.deps == deps
    {
      this.deps := deps;
    }

    /** Dispatches the delivery and stages it as the backend's answer leaves it. */
    method Dispatch(handle: nat, d: Delivery, startedAt: Timestamp, answer: Result<BackendResult, TransportError>,
                    finishedAt: Timestamp) returns (r: Result<Delivery, ServiceError>)
      requires deps.Ready() && Get(deps.store.transactions, handle) == Some(NOTHING)
      modifies deps.store`transactions
      ensures deps.Ready()
      ensures Advanced(old(deps.Seen()), handle, deps.Seen(), StageDispatch(deps.store.committed, d, startedAt, answer, finishedAt), r)
    {
      hide Rules.Dispatch;
      var delivery := new DeliveryRecord(d);
      var attempt := Flows.Dispatch(delivery, delivery.status, startedAt, answer, finishedAt);
      if attempt.Err? {
        var e := deps.RollbackWith(handle, FromDomain(attempt.error));
        return Err(e);
      }
      var saved := deps.store.StageDeliverySave(handle, delivery.Snapshot(), d.version);
      if saved.Err? {
        var e := deps.RollbackWith(handle, FromRepository(saved.error));
        return Err(e);
      }
      Replaced(old(deps.store.transactions), handle, deps.store.transactions[handle]);
      r := Ok(delivery.Snapshot());
    }

    method DispatchWithin(handle: nat, d: Delivery, actor: Actor, trace: Id, startedAt: Timestamp,
                          answer: Result<BackendResult, TransportError>, finishedAt: Timestamp)
      returns (r: Result<Progress, ServiceError>)
      requires deps.Ready() && Get(deps.store.transactions, handle) == Some(NOTHING)
      modifies deps.store`transactions, deps.store`committed, deps.unitOfWork, deps.auditTrail
      ensures deps.Ready()
      ensures Ended(old(deps.Seen()), handle, deps.Seen(),
        Finish(DispatchBody(old(deps.store.committed), d, actor, trace, startedAt, answer, finishedAt, old(deps.Seen().faults)),
               old(deps.Seen().faults)), r)
    {
      hide StageDispatch, Overlay, Steps.Append, StartedEntry, OutcomeEntry;
      var dispatched := Dispatch(handle, d, startedAt, answer, finishedAt);
      if dispatched.Err? {
        return Err(dispatched.error);
      }
      var started := deps.Append(handle, StartedEntry(d.deliveryId, actor, startedAt, trace));
      if started.Err? {
        return Err(started.error);
      }
      var settled := deps.Append(handle, OutcomeEntry(d.deliveryId, answer, actor, finishedAt, trace));
      if settled.Err? {
        return Err(settled.error);
      }
      var failure := deps.Commit(handle);
      if failure.Some? {
        return Err(failure.value);
      }
      r := Ok(Progress(d.deliveryId, dispatched.value.status, Retryable(answer), NeedsManualAction(answer)));
    }

    method ProgressWithin(handle: nat, id: Id, actor: Actor, trace: Id, startedAt: Timestamp,
                          answer: Result<BackendResult, TransportError>, finishedAt: Timestamp)
      returns (r: Result<Progress, ServiceError>)
      requires deps.Ready() && Get(deps.store.transactions, handle) == Some(NOTHING)
      modifies deps.store`transactions, deps.store`committed, deps.unitOfWork, deps.auditTrail
      ensures deps.Ready()
      ensures Ended(old(deps.Seen()), handle, deps.Seen(),
        ProgressOne(old(deps.store.committed), id, actor, trace, startedAt, answer, finishedAt, old(deps.Seen().faults)), r)
    {
      hide DispatchBody;
      if id !in deps.store.committed.deliveries {
        var e := deps.RollbackWith(handle, NotFoundError("not_found.delivery"));
        return Err(e);
      }
      r := DispatchWithin(handle, deps.store.committed.deliveries[id], actor, trace, startedAt, answer, finishedAt);
    }

    /** Dispatches one delivery. */
    method ProgressDelivery(id: Id, actor: Actor, trace: Id, startedAt: Timestamp, answer: Result<BackendResult, TransportError>,
                    finishedAt: Timestamp) returns (r: Result<Progress, ServiceError>)
      requires deps.Ready()
      modifies deps.store, deps.unitOfWork, deps.auditTrail
      ensures deps.Ready()
      ensures Performed(old(deps.Seen()), deps.Seen(),
        ProgressOne(old(deps.store.committed), id, actor, trace, startedAt, answer, finishedAt, old(deps.Seen().faults)), r)
    {
      hide ProgressBody;
      var handle := deps.Begin();
      ghost var began := deps.Seen();
      r := ProgressWithin(handle, id, actor, trace, startedAt, answer, finishedAt);
      BegunEnds(old(deps.Seen()), handle, began, deps.Seen(),
                ProgressOne(began.committed, id, actor, trace, startedAt, answer, finishedAt, began.faults), r);
    }

    ghost function Current(): State
      reads deps.store, deps.unitOfWork, deps.auditTrail
    {
      State(deps.Seen().committed, deps.Seen().faults)
    }

    /** A conflicting or missing delivery was skipped; one that did not arrive has failed. */
    method Tally(result: JobSummary, ghost items: seq<ItemResult>, item: Result<Progress, ServiceError>)
      requires result.Counts(items)
      modifies result`scanned, result`finished, result`setAside
      ensures result.Counts(items + [ItemOf(item)])
    {
      match item {
        case Ok(progress) =>
          if progress.finalStatus == Delivered {
            result.RecordDone(items);
          } else {
            result.RecordFailed(items);
          }
        case Err(error) =>
          if error.ConflictError? || error.NotFoundError? {
            result.RecordSetAside(items);
          } else {
            result.RecordFailed(items);
          }
      }
    }

    /** Dispatches a page of schedulable deliveries; a refused one is skipped or counted as failed. */
    method ProgressBatch(cursor: string, batchSize: nat, job: BatchJob) returns (result: JobSummary)
      requires deps.Ready()
      modifies deps.store, deps.unitOfWork, deps.auditTrail
      ensures deps.Ready() && fresh(result)
      ensures var page := SchedulablePage(old(deps.store.committed), cursor, batchSize);
        && Current() == Batch(old(Current()), page, job)
        && result.Counts(BatchItems(old(Current()), page, job))
        && result.nextCursor == CursorAfter(page, cursor)
      ensures Undisturbed(old(deps.Seen().open), deps.Seen().open)
    {
      hide ProgressOne, Overlay, SchedulablePage;
      var deliveries := deps.store.FindSchedulable(cursor, batchSize);
      var nextCursor := if deliveries == [] then cursor else deliveries[|deliveries| - 1].deliveryId;
      result := new JobSummary(nextCursor);
      for i := 0 to |deliveries|
        invariant deps.Ready() && fresh(result)
        invariant Current() == Batch(old(Current()), deliveries[..i], job)
        invariant result.Counts(BatchItems(old(Current()), deliveries[..i], job))
        invariant Undisturbed(old(deps.Seen().open), deps.Seen().open)
      {
        OneDispatchMore(old(Current()), deliveries, job, i);
        hide Batch, BatchItems;
        ghost var before := deps.Seen();
        var turn := job.answers(i);
        var item := ProgressDelivery(deliveries[i].deliveryId, job.actor, job.trace, turn.startedAt, turn.answer, turn.finishedAt);
        PerformedUndisturbed(before, deps.Seen(), BatchStep(Batch(old(Current()), deliveries[..i], job), deliveries[i], job, i), item);
        Tally(result, BatchItems(old(Current()), deliveries[..i], job), item);
      }
      assert deliveries[..|deliveries|] == deliveries;
      result.SetNextCursor(nextCursor);
    }
  }
}
