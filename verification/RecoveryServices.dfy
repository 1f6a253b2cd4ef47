/** The recovery services: running due plans, requesting retries, dead-lettering, preparing replays. */
module RecoveryServices {
  import opened Common
  import opened Records
  import opened StoreModel
  import opened Store
  import opened Steps
  import opened Adapters
  import opened DeliveryRecords
  import opened RecoveryRules
  import opened RecoverySteps
  import opened Jobs
  import opened RetryCycles
  import Flows = DeliveryFlows
  import Rules = DeliveryRules

  class RecoveryOrchestrationService {
    const deps: Runtime

    constructor (deps: Runtime)
      ensures this.deps == deps
    {
      this.deps := deps;
    }

    // ------------------------------------------------------------ running one plan

    /** Stages the plan as exhausted. */
    method Exhaust(handle: nat, plan: RetryPlan) returns (r: Result<RetryPlan, ServiceError>)
      requires deps.Ready() && Get(deps.store.transactions, handle) == Some(NOTHING)
      modifies deps.store`transactions
      ensures deps.Ready()
      ensures Advanced(old(deps.Seen()), handle, deps.Seen(), StageExhaust(deps.store.committed, plan), r)
    {
      var record := new RetryPlanRecord(plan);
      var marked := record.Exhausted();
      if marked.Err? {
        var e := deps.RollbackWith(handle, FromDomain(marked.error));
        return Err(e);
      }
      var saved := deps.store.StagePlanSave(handle, record.Snapshot(), Some(plan.version));
      if saved.Err? {
        var e := deps.RollbackWith(handle, FromRepository(saved.error));
        return Err(e);
      }
      Replaced(old(deps.store.transactions), handle, deps.store.transactions[handle]);
      r := Ok(record.Snapshot());
    }

    /** Stages the delivery and the plan together. */
    method StageBoth(handle: nat, delivery: DeliveryRecord, plan: RetryPlanRecord, ghost d: Delivery, ghost p: RetryPlan)
      returns (r: Result<(), ServiceError>)
      requires deps.Ready() && Get(deps.store.transactions, handle) == Some(NOTHING)
      requires delivery.version == d.version && plan.version == p.version
      modifies deps.store`transactions
      ensures deps.Ready()
      ensures Advanced(old(deps.Seen()), handle, deps.Seen(),
        Silent(StageRun(deps.store.committed, d, delivery.Snapshot(), p, plan.Snapshot())), r)
    {
      var saved := deps.store.StageDeliverySave(handle, delivery.Snapshot(), delivery.version);
      if saved.Err? {
        var e := deps.RollbackWith(handle, FromRepository(saved.error));
        return Err(e);
      }
      Replaced(old(deps.store.transactions), handle, deps.store.transactions[handle]);
      label Saved:
      var savedPlan := deps.store.StagePlanSave(handle, plan.Snapshot(), Some(plan.version));
      if savedPlan.Err? {
        var e := deps.RollbackWith(handle, FromRepository(savedPlan.error));
        return Err(e);
      }
      Replaced(old@Saved(deps.store.transactions), handle, deps.store.transactions[handle]);
      r := Ok(());
    }

    /** Dispatches the delivery once more and stages the outcome with the plan's spent attempt. */
    method Attempt(handle: nat, plan: RetryPlan, d: Delivery, at: Timestamp, answer: Result<BackendResult, TransportError>)
      returns (r: Result<RetryPlan, ServiceError>)
      requires deps.Ready() && Get(deps.store.transactions, handle) == Some(NOTHING)
      modifies deps.store`transactions
      ensures deps.Ready()
      ensures Advanced(old(deps.Seen()), handle, deps.Seen(), StageAttempt(deps.store.committed, plan, d, at, answer), r)
    {
      var delivery := new DeliveryRecord(d);
      var attempt := Flows.Retry(delivery, at, answer);
      if attempt.Err? {
        var e := deps.RollbackWith(handle, FromDomain(attempt.error));
        return Err(e);
      }
      var record := new RetryPlanRecord(plan);
      var marked := record.Attempted(attempt.value.attemptId);
      if marked.Err? {
        var e := deps.RollbackWith(handle, FromDomain(marked.error));
        return Err(e);
      }
      var staged := StageBoth(handle, delivery, record, d, plan);
      if staged.Err? {
        return Err(staged.error);
      }
      r := Ok(record.Snapshot());
    }

    method RunExhausted(handle: nat, plan: RetryPlan, actor: Actor, trace: Id, at: Timestamp, auditId: Option<Id>)
      returns (r: Result<PlanRun, ServiceError>)
      requires deps.Ready() && Get(deps.store.transactions, handle) == Some(NOTHING)
      modifies deps.store`transactions, deps.store`committed, deps.unitOfWork, deps.auditTrail
      ensures deps.Ready()
      ensures Ended(old(deps.Seen()), handle, deps.Seen(),
        Finish(ExhaustBody(old(deps.store.committed), plan, actor, trace, at, auditId, old(deps.Seen().faults)), old(deps.Seen().faults)), r)
    {
      hide StageExhaust, Steps.Log, Overlay;
      var exhausted := Exhaust(handle, plan);
      if exhausted.Err? {
        return Err(exhausted.error);
      }
      var logged := deps.Log(handle, auditId, Unsigned(RetryPlanSubject(plan.retryPlanId), RetryExhausted, actor, at, trace));
      if logged.Err? {
        return Err(logged.error);
      }
      var failure := deps.Commit(handle);
      if failure.Some? {
        return Err(failure.value);
      }
      r := Ok(PlanRun.Exhausted(exhausted.value));
    }

    method RunAttempt(handle: nat, plan: RetryPlan, delivery: Delivery, actor: Actor, trace: Id, at: Timestamp, ports: RunPorts)
      returns (r: Result<PlanRun, ServiceError>)
      requires deps.Ready() && Get(deps.store.transactions, handle) == Some(NOTHING)
      modifies deps.store`transactions, deps.store`committed, deps.unitOfWork, deps.auditTrail
      ensures deps.Ready()
      ensures Ended(old(deps.Seen()), handle, deps.Seen(),
        Finish(AttemptBody(old(deps.store.committed), plan, delivery, actor, trace, at, ports, old(deps.Seen().faults)),
               old(deps.Seen().faults)), r)
    {
      hide StageAttempt, Steps.Log, Overlay;
      var attempted := Attempt(handle, plan, delivery, at, ports.answer);
      if attempted.Err? {
        return Err(attempted.error);
      }
      var logged := deps.Log(handle, ports.auditId, Unsigned(RetryPlanSubject(plan.retryPlanId), RetryAttempted, actor, at, trace));
      if logged.Err? {
        return Err(logged.error);
      }
      var failure := deps.Commit(handle);
      if failure.Some? {
        return Err(failure.value);
      }
      r := Ok(Retried(attempted.value));
    }

    method RunWithin(handle: nat, plan: RetryPlan, actor: Actor, trace: Id, at: Timestamp, ports: RunPorts)
      returns (r: Result<PlanRun, ServiceError>)
      requires deps.Ready() && Get(deps.store.transactions, handle) == Some(NOTHING)
      modifies deps.store`transactions, deps.store`committed, deps.unitOfWork, deps.auditTrail
      ensures deps.Ready()
      ensures Ended(old(deps.Seen()), handle, deps.Seen(),
        RunPlan(old(deps.store.committed), plan, actor, trace, at, ports, old(deps.Seen().faults)), r)
    {
      hide AttemptBody;
      hide ExhaustBody;
      if plan.deliveryId !in deps.store.committed.deliveries {
        var e := deps.RollbackWith(handle, DELIVERY_MISSING);
        return Err(e);
      }
      var delivery := deps.store.committed.deliveries[plan.deliveryId];
      if HasRemaining(plan) {
        r := RunAttempt(handle, plan, delivery, actor, trace, at, ports);
      } else {
        r := RunExhausted(handle, plan, actor, trace, at, ports.auditId);
      }
    }

    /** Runs one due plan: a plan without attempts left is exhausted, any other dispatches its delivery again. */
    method RunRetryPlan(plan: RetryPlan, actor: Actor, trace: Id, at: Timestamp, ports: RunPorts)
      returns (r: Result<PlanRun, ServiceError>)
      requires deps.Ready()
      modifies deps.store, deps.unitOfWork, deps.auditTrail
      ensures deps.Ready()
      ensures Performed(old(deps.Seen()), deps.Seen(),
        RunPlan(old(deps.store.committed), plan, actor, trace, at, ports, old(deps.Seen().faults)), r)
    {
      hide RunPlanBody;
      var handle := deps.Begin();
      ghost var began := deps.Seen();
      r := RunWithin(handle, plan, actor, trace, at, ports);
      BegunEnds(old(deps.Seen()), handle, began, deps.Seen(),
                RunPlan(began.committed, plan, actor, trace, at, ports, began.faults), r);
    }

    ghost function Current(): State
      reads deps.store, deps.unitOfWork, deps.auditTrail
    {
      State(deps.Seen().committed, deps.Seen().faults)
    }

    /** Runs a page of due plans; a failed run is counted and the cycle goes on. */
    method RunRetryCycle(cursor: string, batchSize: nat, job: CycleJob) returns (result: JobSummary)
      requires deps.Ready()
      modifies deps.store, deps.unitOfWork, deps.auditTrail
      ensures deps.Ready() && fresh(result)
      ensures var page := DueRetryPlans(old(deps.store.committed), cursor, batchSize, job.now);
        && Current() == Cycle(old(Current()), page, job)
        && result.Counts(CycleItems(old(Current()), page, job))
        && result.nextCursor == CursorAfter(page, cursor)
      ensures Undisturbed(old(deps.Seen().open), deps.Seen().open)
    {
      hide RunPlan, Overlay, DueRetryPlans;
      var plans := deps.store.FindDueRetry(cursor, batchSize, job.now);
      result := new JobSummary(cursor);
      if plans != [] {
        result.SetNextCursor(plans[|plans| - 1].retryPlanId);
      }
      for i := 0 to |plans|
        invariant deps.Ready() && fresh(result)
        invariant Current() == Cycle(old(Current()), plans[..i], job)
        invariant result.Counts(CycleItems(old(Current()), plans[..i], job))
        invariant result.nextCursor == CursorAfter(plans, cursor)
        invariant Undisturbed(old(deps.Seen().open), deps.Seen().open)
      {
        OneRunMore(old(Current()), plans, job, i);
        hide Cycle, CycleItems;
        ghost var before := deps.Seen();
        var run := RunRetryPlan(plans[i], job.actor, job.trace, job.now, job.answers(i));
        PerformedUndisturbed(before, deps.Seen(), CycleStep(Cycle(old(Current()), plans[..i], job), plans[i], job, i), run);
        ghost var items := CycleItems(old(Current()), plans[..i], job);
        match run {
          case Ok(Retried(_)) => result.RecordDone(items);
          case Ok(Exhausted(_)) => result.RecordSetAside(items);
          case Err(_) => result.RecordFailed(items);
        }
      }
      assert plans[..|plans|] == plans;
    }

    // ------------------------------------------------------------ requesting a retry

    /** Creates a plan for the failed delivery and stages it. */
    method Schedule(handle: nat, d: Delivery, m: FailureMaterial, request: RetryRequest, now: Timestamp)
      returns (r: Result<RetryPlan, ServiceError>)
      requires deps.Ready() && Get(deps.store.transactions, handle) == Some(NOTHING)
      modifies deps.store`transactions
      ensures deps.Ready()
      ensures Advanced(old(deps.Seen()), handle, deps.Seen(), StageSchedule(deps.store.committed, d, m, request, now), r)
    {
      var plan := CreatePlan(d, m.failureReason, request.policyRef, request.maxAttempts, now);
      if plan.Err? {
        var e := deps.RollbackWith(handle, FromDomain(plan.error));
        return Err(e);
      }
      var allowed := CanRetry(d, plan.value);
      if allowed.Err? {
        var e := deps.RollbackWith(handle, FromDomain(allowed.error));
        return Err(e);
      }
      var saved := deps.store.StagePlanSave(handle, plan.value, None);
      if saved.Err? {
        var e := deps.RollbackWith(handle, UniqueError(saved.error, "conflict.retry_plan_active"));
        return Err(e);
      }
      Replaced(old(deps.store.transactions), handle, deps.store.transactions[handle]);
      r := Ok(plan.value);
    }

    method RequestPlan(handle: nat, d: Delivery, m: FailureMaterial, request: RetryRequest, actor: Actor, trace: Id, ports: Ports)
      returns (r: Result<RetryReceipt, ServiceError>)
      requires deps.Ready() && Get(deps.store.transactions, handle) == Some(NOTHING)
      modifies deps.store`transactions, deps.store`committed, deps.unitOfWork, deps.auditTrail
      ensures deps.Ready()
      ensures Ended(old(deps.Seen()), handle, deps.Seen(),
        Finish(SchedulePlanBody(old(deps.store.committed), d, m, request, actor, trace, ports, old(deps.Seen().faults)),
               old(deps.Seen().faults)), r)
    {
      hide StageSchedule, Steps.Log, Overlay;
      var scheduled := Schedule(handle, d, m, request, ports.now);
      if scheduled.Err? {
        return Err(scheduled.error);
      }
      var plan := scheduled.value;
      var logged := deps.Log(handle, ports.auditId,
                             Unsigned(RetryPlanSubject(plan.retryPlanId), RetryRequested, actor, ports.now, trace));
      if logged.Err? {
        return Err(logged.error);
      }
      var failure := deps.Commit(handle);
      if failure.Some? {
        return Err(failure.value);
      }
      r := Ok(RetryReceipt(plan.retryPlanId, plan.deliveryId, plan.remainingAttempts, plan.nextAttemptAt, logged.value));
    }

    method RequestWithin(handle: nat, request: RetryRequest, actor: Actor, trace: Id, ports: Ports)
      returns (r: Result<RetryReceipt, ServiceError>)
      requires deps.Ready() && Get(deps.store.transactions, handle) == Some(NOTHING)
      modifies deps.store`transactions, deps.store`committed, deps.unitOfWork, deps.auditTrail
      ensures deps.Ready()
      ensures Ended(old(deps.Seen()), handle, deps.Seen(),
        Finish(RequestBody(old(deps.store.committed), request, actor, trace, ports, old(deps.Seen().faults)),
               old(deps.Seen().faults)), r)
    {
      hide SchedulePlanBody;
      if request.deliveryId !in deps.store.committed.deliveries {
        var e := deps.RollbackWith(handle, DELIVERY_MISSING);
        return Err(e);
      }
      if request.materialRef !in deps.store.committed.failureMaterials {
        var e := deps.RollbackWith(handle, MATERIAL_MISSING);
        return Err(e);
      }
      r := RequestPlan(handle, deps.store.committed.deliveries[request.deliveryId],
                       deps.store.committed.failureMaterials[request.materialRef], request, actor, trace, ports);
    }

    /** Schedules a retry plan for a failed delivery. */
    method Request(request: RetryRequest, actor: Actor, trace: Id, ports: Ports) returns (r: Result<RetryReceipt, ServiceError>)
      requires deps.Ready()
      modifies deps.store, deps.unitOfWork, deps.auditTrail
      ensures deps.Ready()
      ensures Performed(old(deps.Seen()), deps.Seen(),
        RequestRetry(old(deps.store.committed), request, actor, trace, ports, old(deps.Seen().faults)), r)
    {
      hide RequestBody;
      var invalid := InvalidRequest(request);
      if invalid.Some? {
        return Err(invalid.value);
      }
      var handle := deps.Begin();
      ghost var began := deps.Seen();
      r := RequestWithin(handle, request, actor, trace, ports);
      BegunEnds(old(deps.Seen()), handle, began, deps.Seen(),
                RequestRetry(began.committed, request, actor, trace, ports, began.faults), r);
    }

    // ------------------------------------------------------------ moving to dead letter

    /** Stages the entry, its linked material and the delivery. */
    method StageThree(handle: nat, d: Delivery, m: FailureMaterial, entry: DeadLetterEntry, delivery: DeliveryRecord)
      returns (r: Result<(), ServiceError>)
      requires deps.Ready() && Get(deps.store.transactions, handle) == Some(NOTHING)
      modifies deps.store`transactions
      ensures deps.Ready()
      ensures Advanced(old(deps.Seen()), handle, deps.Seen(),
        Silent(StageMove(deps.store.committed, d, m, entry, delivery.Snapshot())), r)
    {
      var saved := deps.store.StageDeadLetterSave(handle, entry, m);
      if saved.Err? {
        var e := deps.RollbackWith(handle, UniqueError(saved.error, "conflict.dead_letter_active"));
        return Err(e);
      }
      Replaced(old(deps.store.transactions), handle, deps.store.transactions[handle]);
      label Saved:
      var savedDelivery := deps.store.StageDeliverySave(handle, delivery.Snapshot(), d.version);
      if savedDelivery.Err? {
        var e := deps.RollbackWith(handle, FromRepository(savedDelivery.error));
        return Err(e);
      }
      Replaced(old@Saved(deps.store.transactions), handle, deps.store.transactions[handle]);
      r := Ok(());
    }

    method DeadLetter(handle: nat, d: Delivery, m: FailureMaterial, now: Timestamp) returns (r: Result<DeadLetterEntry, ServiceError>)
      requires deps.Ready() && Get(deps.store.transactions, handle) == Some(NOTHING)
      modifies deps.store`transactions
      ensures deps.Ready()
      ensures Advanced(old(deps.Seen()), handle, deps.Seen(), StageDeadLetter(deps.store.committed, d, m, now), r)
    {
      hide StageMove, Rules.DeadLetterFlow;
      var allowed := CanDeadLetter(d, m);
      if allowed.Err? {
        var e := deps.RollbackWith(handle, FromDomain(allowed.error));
        return Err(e);
      }
      var entry := DeadLetterFrom(d, m);
      if entry.Err? {
        var e := deps.RollbackWith(handle, FromDomain(entry.error));
        return Err(e);
      }
      var delivery := new DeliveryRecord(d);
      var marked := Flows.DeadLetter(delivery, entry.value.deadLetterId, now);
      if marked.Err? {
        var e := deps.RollbackWith(handle, FromDomain(marked.error));
        return Err(e);
      }
      var staged := StageThree(handle, d, m, entry.value, delivery);
      if staged.Err? {
        return Err(staged.error);
      }
      r := Ok(entry.value);
    }

    method MoveFailed(handle: nat, d: Delivery, m: FailureMaterial, actor: Actor, trace: Id, ports: Ports)
      returns (r: Result<DeadLetterReceipt, ServiceError>)
      requires deps.Ready() && Get(deps.store.transactions, handle) == Some(NOTHING)
      modifies deps.store`transactions, deps.store`committed, deps.unitOfWork, deps.auditTrail
      ensures deps.Ready()
      ensures Ended(old(deps.Seen()), handle, deps.Seen(),
        Finish(DeadLetterBody(old(deps.store.committed), d, m, actor, trace, ports, old(deps.Seen().faults)),
               old(deps.Seen().faults)), r)
    {
      hide StageDeadLetter, Steps.Log, Overlay;
      var entry := DeadLetter(handle, d, m, ports.now);
      if entry.Err? {
        return Err(entry.error);
      }
      var logged := deps.Log(handle, ports.auditId,
                             Unsigned(DeadLetterSubject(entry.value.deadLetterId), DeadLetterCreated, actor, ports.now, trace));
      if logged.Err? {
        return Err(logged.error);
      }
      var failure := deps.Commit(handle);
      if failure.Some? {
        return Err(failure.value);
      }
      r := Ok(DeadLetterReceipt(entry.value.deadLetterId, d.deliveryId, m.failureMaterialId, logged.value));
    }

    method MoveWithin(handle: nat, move: DeadLetterMove, actor: Actor, trace: Id, ports: Ports)
      returns (r: Result<DeadLetterReceipt, ServiceError>)
      requires deps.Ready() && Get(deps.store.transactions, handle) == Some(NOTHING)
      modifies deps.store`transactions, deps.store`committed, deps.unitOfWork, deps.auditTrail
      ensures deps.Ready()
      ensures Ended(old(deps.Seen()), handle, deps.Seen(),
        Finish(MoveBody(old(deps.store.committed), move, actor, trace, ports, old(deps.Seen().faults)),
               old(deps.Seen().faults)), r)
    {
      hide DeadLetterBody;
      if move.deliveryId !in deps.store.committed.deliveries {
        var e := deps.RollbackWith(handle, DELIVERY_MISSING);
        return Err(e);
      }
      var delivery := deps.store.committed.deliveries[move.deliveryId];
      if move.materialRef !in deps.store.committed.failureMaterials {
        var e := deps.RollbackWith(handle, MATERIAL_MISSING);
        return Err(e);
      }
      if !LastFailed(delivery.history) {
        var e := deps.RollbackWith(handle, HISTORY_MISSING);
        return Err(e);
      }
      r := MoveFailed(handle, delivery, deps.store.committed.failureMaterials[move.materialRef], actor, trace, ports);
    }

    /** Dead-letters a failed delivery. */
    method Move(move: DeadLetterMove, actor: Actor, trace: Id, ports: Ports) returns (r: Result<DeadLetterReceipt, ServiceError>)
      requires deps.Ready()
      modifies deps.store, deps.unitOfWork, deps.auditTrail
      ensures deps.Ready()
      ensures Performed(old(deps.Seen()), deps.Seen(),
        MoveToDeadLetter(old(deps.store.committed), move, actor, trace, ports, old(deps.Seen().faults)), r)
    {
      hide MoveBody;
      var invalid := InvalidMove(move);
      if invalid.Some? {
        return Err(invalid.value);
      }
      var handle := deps.Begin();
      ghost var began := deps.Seen();
      r := MoveWithin(handle, move, actor, trace, ports);
      BegunEnds(old(deps.Seen()), handle, began, deps.Seen(),
                MoveToDeadLetter(began.committed, move, actor, trace, ports, began.faults), r);
    }
  }

  class ReplayPreparationService {
    const deps: Runtime

    constructor (deps: Runtime)
      ensures this.deps == deps
    {
      this.deps := deps;
    }

    /** Drafts a preparation for the dead letter, makes it ready and stages it. */
    method Ready(handle: nat, entry: DeadLetterEntry, request: ReplayRequest) returns (r: Result<ReplayPreparation, ServiceError>)
      requires deps.Ready() && Get(deps.store.transactions, handle) == Some(NOTHING)
      modifies deps.store`transactions
      ensures deps.Ready()
      ensures Advanced(old(deps.Seen()), handle, deps.Seen(), StageReady(deps.store.committed, entry, request), r)
    {
      var allowed := CanPrepareReplay(entry, request.auditChainRef);
      if allowed.Err? {
        var e := deps.RollbackWith(handle, FromDomain(allowed.error));
        return Err(e);
      }
      var draft := PrepareDraft(entry);
      if draft.Err? {
        var e := deps.RollbackWith(handle, FromDomain(draft.error));
        return Err(e);
      }
      var preparation := new ReplayRecord(draft.value);
      var marked := preparation.Ready(request.approvalRef);
      if marked.Err? {
        var e := deps.RollbackWith(handle, FromDomain(marked.error));
        return Err(e);
      }
      var saved := deps.store.StageReplaySave(handle, preparation.Snapshot());
      if saved.Err? {
        var e := deps.RollbackWith(handle, UniqueError(saved.error, "conflict.replay_preparation_exists"));
        return Err(e);
      }
      Replaced(old(deps.store.transactions), handle, deps.store.transactions[handle]);
      r := Ok(preparation.Snapshot());
    }

    method PrepareReady(handle: nat, entry: DeadLetterEntry, request: ReplayRequest, actor: Actor, trace: Id, ports: Ports)
      returns (r: Result<ReplayReceipt, ServiceError>)
      requires deps.Ready() && Get(deps.store.transactions, handle) == Some(NOTHING)
      modifies deps.store`transactions, deps.store`committed, deps.unitOfWork, deps.auditTrail
      ensures deps.Ready()
      ensures Ended(old(deps.Seen()), handle, deps.Seen(),
        Finish(ReadyBody(old(deps.store.committed), entry, request, actor, trace, ports, old(deps.Seen().faults)),
               old(deps.Seen().faults)), r)
    {
      hide StageReady, Steps.Log, Overlay;
      var ready := Ready(handle, entry, request);
      if ready.Err? {
        return Err(ready.error);
      }
      var logged := deps.Log(handle, ports.auditId,
                             Unsigned(ReplaySubject(ready.value.replayId), ReplayPreparationReady, actor, ports.now, trace));
      if logged.Err? {
        return Err(logged.error);
      }
      var failure := deps.Commit(handle);
      if failure.Some? {
        return Err(failure.value);
      }
      r := Ok(ReplayReceipt(ready.value.replayId, ready.value.deadLetterId, logged.value));
    }

    method PrepareWithin(handle: nat, request: ReplayRequest, actor: Actor, trace: Id, ports: Ports)
      returns (r: Result<ReplayReceipt, ServiceError>)
      requires deps.Ready() && Get(deps.store.transactions, handle) == Some(NOTHING)
      modifies deps.store`transactions, deps.store`committed, deps.unitOfWork, deps.auditTrail
      ensures deps.Ready()
      ensures Ended(old(deps.Seen()), handle, deps.Seen(),
        Finish(ReplayBody(old(deps.store.committed), request, actor, trace, ports, old(deps.Seen().faults)),
               old(deps.Seen().faults)), r)
    {
      hide ReadyBody;
      if request.deadLetterId !in deps.store.committed.deadLetters {
        var e := deps.RollbackWith(handle, DEAD_LETTER_MISSING);
        return Err(e);
      }
      if AuditChain(deps.store.committed.audits, request.auditChainRef) == [] {
        var e := deps.RollbackWith(handle, CHAIN_MISSING);
        return Err(e);
      }
      r := PrepareReady(handle, deps.store.committed.deadLetters[request.deadLetterId], request, actor, trace, ports);
    }

    /** Logs the refusal of a caller without roles. */
    method Refuse(request: ReplayRequest, actor: Actor, trace: Id, requestedAt: Timestamp, auditId: Option<Id>)
      returns (r: Result<ReplayReceipt, ServiceError>)
      requires deps.Ready()
      modifies deps.store, deps.auditTrail
      ensures deps.Ready()
      ensures Performed(old(deps.Seen()), deps.Seen(),
        RefuseUnprivileged(request, actor, trace, requestedAt, auditId, old(deps.Seen().faults)), r)
    {
      if auditId.None? {
        return Err(IdsExhausted);
      }
      var logged := deps.auditTrail.AppendAccess(
        AuditEntry(auditId.value, DeadLetterSubject(request.deadLetterId), ReplayAccessRejected, actor, requestedAt, trace));
      r := Err(if logged.Err? then FromRepository(logged.error) else ROLE_MISSING);
    }

    /** Prepares a replay of a dead letter whose audit chain the caller can name. */
    method Prepare(request: ReplayRequest, actor: Actor, trace: Id, requestedAt: Timestamp, ports: Ports)
      returns (r: Result<ReplayReceipt, ServiceError>)
      requires deps.Ready()
      modifies deps.store, deps.unitOfWork, deps.auditTrail
      ensures deps.Ready()
      ensures Performed(old(deps.Seen()), deps.Seen(),
        PrepareReplay(old(deps.store.committed), request, actor, trace, requestedAt, ports, old(deps.Seen().faults)), r)
    {
      hide ReplayBody, RefuseUnprivileged;
      var invalid := InvalidReplay(request);
      if invalid.Some? {
        return Err(invalid.value);
      }
      if actor.roleRefs == [] {
        r := Refuse(request, actor, trace, requestedAt, ports.auditId);
        return;
      }
      var handle := deps.Begin();
      ghost var began := deps.Seen();
      r := PrepareWithin(handle, request, actor, trace, ports);
      BegunEnds(old(deps.Seen()), handle, began, deps.Seen(),
                PrepareReplay(began.committed, request, actor, trace, requestedAt, ports, began.faults), r);
    }
  }
}
