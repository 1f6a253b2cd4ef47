/** What the recovery services do to the committed state, call by call. */
module RecoverySteps {
  import opened Common
  import opened Records
  import opened StoreModel
  import opened Steps
  import opened RecoveryRules
  import Rules = DeliveryRules

  const DELIVERY_MISSING: ServiceError := NotFoundError("not_found.delivery")
  const MATERIAL_MISSING: ServiceError := NotFoundError("not_found.failure_material")
  const DEAD_LETTER_MISSING: ServiceError := NotFoundError("not_found.dead_letter")
  const HISTORY_MISSING: ServiceError := ConflictError("conflict.dead_letter_history", None)
  const CHAIN_MISSING: ServiceError := BoundaryError("boundary.audit_chain_missing", None)
  const ROLE_MISSING: ServiceError := BoundaryError("boundary.privileged_role_hint_required", None)

  function Found<V>(row: Option<V>, missing: ServiceError): Result<V, Stop> {
    match row
    case Some(v) => Ok(v)
    case None => Err(RollBack(missing))
  }

  // ---------------------------------------------------------------- one due plan

  datatype PlanRun = Retried(plan: RetryPlan) | Exhausted(plan: RetryPlan)

  /** The backend's answer, should the run dispatch, and the next audit identifier. */
  datatype RunPorts = RunPorts(answer: Result<BackendResult, TransportError>, auditId: Option<Id>)

  function StageExhaust(c: Committed, p: RetryPlan): Result<(Staged, RetryPlan), Stop> {
    var exhausted :- Checked(MarkExhausted(p));
    var s :- Staging(SavePlan(c, Some(NOTHING), exhausted, Some(p.version)));
    Ok((s, exhausted))
  }

  function ExhaustBody(c: Committed, p: RetryPlan, actor: Actor, trace: Id, at: Timestamp, auditId: Option<Id>,
                       faults: Faults): Body<PlanRun>
  {
    var (s, exhausted) :- StageExhaust(c, p);
    var (done, _) :- Log(s, auditId, Unsigned(RetryPlanSubject(p.retryPlanId), RetryExhausted, actor, at, trace), faults);
    Ok((done, Ok(Exhausted(exhausted))))
  }

  /** Both records of a run are staged together. */
  function StageRun(c: Committed, d: Delivery, after: Delivery, p: RetryPlan, attempted: RetryPlan): Result<Staged, Stop> {
    var s :- Staging(SaveDelivery(c, Some(NOTHING), after, d.version));
    Staging(SavePlan(c, Some(s), attempted, Some(p.version)))
  }

  function StageAttempt(c: Committed, p: RetryPlan, d: Delivery, at: Timestamp, answer: Result<BackendResult, TransportError>)
    : Result<(Staged, RetryPlan), Stop>
  {
    var (after, attempt) :- Checked(Rules.Retry(d, at, answer));
    var attempted :- Checked(MarkAttempted(p, attempt.attemptId));
    var s :- StageRun(c, d, after, p, attempted);
    Ok((s, attempted))
  }

  function AttemptBody(c: Committed, p: RetryPlan, d: Delivery, actor: Actor, trace: Id, at: Timestamp, ports: RunPorts,
                       faults: Faults): Body<PlanRun>
  {
    var (s, attempted) :- StageAttempt(c, p, d, at, ports.answer);
    var (done, _) :- Log(s, ports.auditId, Unsigned(RetryPlanSubject(p.retryPlanId), RetryAttempted, actor, at, trace), faults);
    Ok((done, Ok(Retried(attempted))))
  }

  function RunPlanBody(c: Committed, p: RetryPlan, actor: Actor, trace: Id, at: Timestamp, ports: RunPorts,
                       faults: Faults): Body<PlanRun>
  {
    match Get(c.deliveries, p.deliveryId)
    case None => Err(RollBack(DELIVERY_MISSING))
    case Some(d) =>
      if HasRemaining(p) then AttemptBody(c, p, d, actor, trace, at, ports, faults)
      else ExhaustBody(c, p, actor, trace, at, ports.auditId, faults)
  }

  function RunPlan(c: Committed, p: RetryPlan, actor: Actor, trace: Id, at: Timestamp, ports: RunPorts,
                   faults: Faults): Step<PlanRun>
  {
    Finish(RunPlanBody(c, p, actor, trace, at, ports, faults), faults)
  }

  // ---------------------------------------------------------------- requesting a retry

  datatype RetryRequest = RetryRequest(deliveryId: Id, materialRef: Id, policyRef: Id, reason: string, maxAttempts: nat)

  datatype RetryReceipt = RetryReceipt(retryPlanId: Id, deliveryId: Id, remainingAttempts: nat, nextRunAt: Timestamp,
                                       auditRef: Id)

  function InvalidRequest(r: RetryRequest): Option<ServiceError> {
    if IsBlank(r.materialRef) then Some(ValidationError("validation.failure_material_ref", None))
    else if IsBlank(r.policyRef) then Some(ValidationError("validation.retry_policy_ref", None))
    else if IsBlank(r.reason) then Some(ValidationError("validation.retry_request_reason", None))
    else None
  }

  function StageSchedule(c: Committed, d: Delivery, m: FailureMaterial, r: RetryRequest, now: Timestamp)
    : Result<(Staged, RetryPlan), Stop>
  {
    var plan :- Checked(CreatePlan(d, m.failureReason, r.policyRef, r.maxAttempts, now));
    var _ :- Checked(CanRetry(d, plan));
    var s :- StagingUnique(SavePlan(c, Some(NOTHING), plan, None), "conflict.retry_plan_active");
    Ok((s, plan))
  }

  function SchedulePlanBody(c: Committed, d: Delivery, m: FailureMaterial, r: RetryRequest, actor: Actor, trace: Id,
                            ports: Ports, faults: Faults): Body<RetryReceipt>
  {
    var (s, plan) :- StageSchedule(c, d, m, r, ports.now);
    var (done, auditRef) :- Log(s, ports.auditId, Unsigned(RetryPlanSubject(plan.retryPlanId), RetryRequested, actor, ports.now, trace),
                                faults);
    Ok((done, Ok(RetryReceipt(plan.retryPlanId, plan.deliveryId, plan.remainingAttempts, plan.nextAttemptAt, auditRef))))
  }

  function RequestBody(c: Committed, r: RetryRequest, actor: Actor, trace: Id, ports: Ports, faults: Faults)
    : Body<RetryReceipt>
  {
    var d :- Found(Get(c.deliveries, r.deliveryId), DELIVERY_MISSING);
    var m :- Found(Get(c.failureMaterials, r.materialRef), MATERIAL_MISSING);
    SchedulePlanBody(c, d, m, r, actor, trace, ports, faults)
  }

  function RequestRetry(c: Committed, r: RetryRequest, actor: Actor, trace: Id, ports: Ports, faults: Faults)
    : Step<RetryReceipt>
  {
    match InvalidRequest(r)
    case Some(e) => Refuse(e, faults)
    case None => Finish(RequestBody(c, r, actor, trace, ports, faults), faults)
  }

  // ---------------------------------------------------------------- moving to dead letter

  datatype DeadLetterMove = DeadLetterMove(deliveryId: Id, materialRef: Id, reason: string, operatorNote: Option<string>)

  datatype DeadLetterReceipt = DeadLetterReceipt(deadLetterId: Id, deliveryId: Id, materialRef: Id, auditRef: Id)

  function InvalidMove(m: DeadLetterMove): Option<ServiceError> {
    if IsBlank(m.materialRef) then Some(ValidationError("validation.failure_material_ref", None))
    else if IsBlank(m.reason) then Some(ValidationError("validation.dead_letter_reason", None))
    else if m.operatorNote.Some? && IsBlank(m.operatorNote.value) then
      Some(ValidationError("validation.operator_note_ref", None))
    else None
  }

  predicate LastFailed(history: seq<HistoryEntry>) {
    history != [] && history[|history| - 1].toStatus == Failed
  }

  /** The entry, its linked material and the delivery are staged together. */
  function StageMove(c: Committed, d: Delivery, m: FailureMaterial, entry: DeadLetterEntry, dead: Delivery)
    : Result<Staged, Stop>
  {
    var s :- StagingUnique(SaveDeadLetter(c, Some(NOTHING), entry, m), "conflict.dead_letter_active");
    Staging(SaveDelivery(c, Some(s), dead, d.version))
  }

  function StageDeadLetter(c: Committed, d: Delivery, m: FailureMaterial, now: Timestamp): Result<(Staged, DeadLetterEntry), Stop> {
    var _ :- Checked(CanDeadLetter(d, m));
    var entry :- Checked(DeadLetterFrom(d, m));
    var dead :- Checked(Rules.DeadLetterFlow(d, entry.deadLetterId, now));
    var s :- StageMove(c, d, m, entry, dead);
    Ok((s, entry))
  }

  function DeadLetterBody(c: Committed, d: Delivery, m: FailureMaterial, actor: Actor, trace: Id, ports: Ports, faults: Faults)
    : Body<DeadLetterReceipt>
  {
    var (s, entry) :- StageDeadLetter(c, d, m, ports.now);
    var (done, auditRef) :- Log(s, ports.auditId, Unsigned(DeadLetterSubject(entry.deadLetterId), DeadLetterCreated, actor,
                                                        ports.now, trace), faults);
    Ok((done, Ok(DeadLetterReceipt(entry.deadLetterId, d.deliveryId, m.failureMaterialId, auditRef))))
  }

  function MoveBody(c: Committed, move: DeadLetterMove, actor: Actor, trace: Id, ports: Ports, faults: Faults)
    : Body<DeadLetterReceipt>
  {
    var d :- Found(Get(c.deliveries, move.deliveryId), DELIVERY_MISSING);
    var m :- Found(Get(c.failureMaterials, move.materialRef), MATERIAL_MISSING);
    if !LastFailed(d.history) then Err(RollBack(HISTORY_MISSING))
    else DeadLetterBody(c, d, m, actor, trace, ports, faults)
  }

  function MoveToDeadLetter(c: Committed, move: DeadLetterMove, actor: Actor, trace: Id, ports: Ports, faults: Faults)
    : Step<DeadLetterReceipt>
  {
    match InvalidMove(move)
    case Some(e) => Refuse(e, faults)
    case None => Finish(MoveBody(c, move, actor, trace, ports, faults), faults)
  }

  // ---------------------------------------------------------------- preparing a replay

  datatype ReplayRequest = ReplayRequest(deadLetterId: Id, auditChainRef: Id, approvalRef: Id, reason: string)

  datatype ReplayReceipt = ReplayReceipt(replayId: Id, deadLetterId: Id, auditRef: Id)

  function InvalidReplay(r: ReplayRequest): Option<ServiceError> {
    if IsBlank(r.auditChainRef) then Some(ValidationError("validation.audit_chain_ref", None))
    else if IsBlank(r.approvalRef) then Some(ValidationError("validation.replay_approval_ref", None))
    else if IsBlank(r.reason) then Some(ValidationError("validation.replay_reason", None))
    else None
  }

  function StageReady(c: Committed, e: DeadLetterEntry, r: ReplayRequest): Result<(Staged, ReplayPreparation), Stop> {
    var _ :- Checked(CanPrepareReplay(e, r.auditChainRef));
    var draft :- Checked(PrepareDraft(e));
    var ready :- Checked(MarkReady(draft, r.approvalRef));
    var s :- StagingUnique(SaveReplay(c, Some(NOTHING), ready), "conflict.replay_preparation_exists");
    Ok((s, ready))
  }

  function ReadyBody(c: Committed, e: DeadLetterEntry, r: ReplayRequest, actor: Actor, trace: Id, ports: Ports, faults: Faults)
    : Body<ReplayReceipt>
  {
    var (s, ready) :- StageReady(c, e, r);
    var (done, auditRef) :- Log(s, ports.auditId, Unsigned(ReplaySubject(ready.replayId), ReplayPreparationReady, actor,
                                                        ports.now, trace), faults);
    Ok((done, Ok(ReplayReceipt(ready.replayId, ready.deadLetterId, auditRef))))
  }

  function ReplayBody(c: Committed, r: ReplayRequest, actor: Actor, trace: Id, ports: Ports, faults: Faults)
    : Body<ReplayReceipt>
  {
    var e :- Found(Get(c.deadLetters, r.deadLetterId), DEAD_LETTER_MISSING);
    if AuditChain(c.audits, r.auditChainRef) == [] then Err(RollBack(CHAIN_MISSING))
    else ReadyBody(c, e, r, actor, trace, ports, faults)
  }

  /** A caller without roles is refused, and the refusal is logged outside any transaction. */
  function RefuseUnprivileged(r: ReplayRequest, actor: Actor, trace: Id, requestedAt: Timestamp, auditId: Option<Id>,
                              faults: Faults): Step<ReplayReceipt>
  {
    if auditId.None? then Refuse(IdsExhausted, faults)
    else if faults.append.Some? then Refuse(FromRepository(faults.append.value), faults.(append := None))
    else
      Step(Appends(AuditEntry(auditId.value, DeadLetterSubject(r.deadLetterId), ReplayAccessRejected, actor, requestedAt, trace)),
           Err(ROLE_MISSING), faults)
  }

  function PrepareReplay(c: Committed, r: ReplayRequest, actor: Actor, trace: Id, requestedAt: Timestamp, ports: Ports,
                         faults: Faults): Step<ReplayReceipt>
  {
    match InvalidReplay(r)
    case Some(e) => Refuse(e, faults)
    case None =>
      if actor.roleRefs == [] then RefuseUnprivileged(r, actor, trace, requestedAt, ports.auditId, faults)
      else Finish(ReplayBody(c, r, actor, trace, ports, faults), faults)
  }
}
