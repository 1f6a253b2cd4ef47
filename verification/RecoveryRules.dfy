/** Retry plans, dead letters and replay preparations: constructors, guards and transitions. */
module RecoveryRules {
  import opened Common
  import opened Records

  // ---------------------------------------------------------------- retry plans

  function PlanId(deliveryId: Id, policyRef: Id, now: Timestamp): Id {
    "retry_plan_" + Sanitize(deliveryId) + "_" + Sanitize(policyRef) + "_" + Sanitize(now)
  }

  function CreatePlan(d: Delivery, reason: string, policyRef: Id, maxAttempts: nat, now: Timestamp)
    : Result<RetryPlan, DomainError>
  {
    if d.status != Failed then Err(RetryNotAllowed)
    else if IsBlank(reason) then Err(InvalidRetryPlan("failure_reason"))
    else if IsBlank(policyRef) then Err(InvalidRetryPlan("retry_policy_ref"))
    else if maxAttempts == 0 then Err(InvalidRetryPlan("max_attempts"))
    else if IsBlank(now) then Err(InvalidRetryPlan("next_attempt_at"))
    else Ok(RetryPlan(PlanId(d.deliveryId, policyRef, now), d.deliveryId, now, maxAttempts, maxAttempts, PlanScheduled, 0))
  }

  predicate HasRemaining(p: RetryPlan) {
    p.status == PlanScheduled && p.remainingAttempts > 0
  }

  function MarkAttempted(p: RetryPlan, attemptId: Id): Result<RetryPlan, DomainError> {
    if p.status != PlanScheduled then Err(RetryNotAllowed)
    else if IsBlank(attemptId) then Err(InvalidRetryPlan("attempt_id"))
    else if p.remainingAttempts == 0 then Err(RetryExhaustedCannotDispatch)
    else Ok(p.(remainingAttempts := p.remainingAttempts - 1))
  }

  function MarkExhausted(p: RetryPlan): Result<RetryPlan, DomainError> {
    if p.status != PlanScheduled || p.remainingAttempts > 0 then Err(InvalidRetryPlanTransition)
    else Ok(p.(status := PlanExhausted))
  }

  function CanRetry(d: Delivery, p: RetryPlan): Result<(), DomainError> {
    if d.status != Failed || p.deliveryId != d.deliveryId then Err(RetryNotAllowed)
    else if p.status != PlanScheduled then Err(RetryNotAllowed)
    else if p.maxAttempts == 0 then Err(InvalidRetryPlan("max_attempts"))
    else if p.remainingAttempts > p.maxAttempts then Err(InvalidRetryPlan("remaining_attempts"))
    else if !HasRemaining(p) then Err(RetryExhaustedCannotDispatch)
    else Ok(())
  }

  /** Runs a plan can still commit: one per remaining attempt and one that exhausts it. */
  function RunsLeft(p: RetryPlan): nat {
    p.remainingAttempts + (if p.status == PlanScheduled then 1 else 0)
  }

  // ---------------------------------------------------------------- dead letters

  function DeadLetterId(deliveryId: Id, materialId: Id): Id {
    "dead_letter_" + Sanitize(deliveryId) + "_" + Sanitize(materialId)
  }

  function CanDeadLetter(d: Delivery, m: FailureMaterial): Result<(), DomainError> {
    if d.status != Failed || m.deliveryId != d.deliveryId then Err(DeadLetterNotAllowed)
    else if IsBlank(m.auditRef) then Err(InvalidFailureMaterial("audit_ref"))
    else Ok(())
  }

  function DeadLetterFrom(d: Delivery, m: FailureMaterial): Result<DeadLetterEntry, DomainError> {
    if d.status != Failed then Err(DeadLetterNotAllowed)
    else if m.deliveryId != d.deliveryId then Err(DeadLetterNotAllowed)
    else if d.history == [] then Err(InvalidDeadLetterEntry("history_ref"))
    else
      var historyRef := d.history[|d.history| - 1].historyId;
      var chainRef := ChainRef(m.auditRef);
      if IsBlank(historyRef) then Err(InvalidDeadLetterEntry("history_ref"))
      else if IsBlank(chainRef) then Err(InvalidDeadLetterEntry("audit_chain_ref"))
      else
        Ok(DeadLetterEntry(DeadLetterId(d.deliveryId, m.failureMaterialId), d.deliveryId, m.failureReason,
                           historyRef, chainRef, Open, 0))
  }

  predicate HasTrustedChain(e: DeadLetterEntry) {
    !IsBlank(e.historyRef) && !IsBlank(e.auditChainRef)
  }

  // ---------------------------------------------------------------- replay preparations

  function CanPrepareReplay(e: DeadLetterEntry, chainRef: Id): Result<(), DomainError> {
    if e.status == Closed then Err(DeadLetterClosed)
    else if !HasTrustedChain(e) then Err(ReplayPreparationNotAllowed)
    else if IsBlank(chainRef) || e.auditChainRef != chainRef then Err(ReplayPreparationNotAllowed)
    else Ok(())
  }

  function PrepareDraft(e: DeadLetterEntry): Result<ReplayPreparation, DomainError> {
    if e.status == Closed then Err(DeadLetterClosed)
    else if !HasTrustedChain(e) then Err(ReplayPreparationNotAllowed)
    else Ok(ReplayPreparation("replay_preparation_" + Sanitize(e.deadLetterId), e.deadLetterId, Draft,
                              e.auditChainRef, None, 0))
  }

  function MarkReady(r: ReplayPreparation, approvalRef: Id): Result<ReplayPreparation, DomainError> {
    if IsBlank(approvalRef) then Err(InvalidReplayPreparation("approval_ref"))
    else if r.status != Draft then Err(InvalidReplayPreparationTransition)
    else if IsBlank(r.auditChainRef) then Err(InvalidReplayPreparation("audit_chain_ref"))
    else Ok(r.(status := Ready, approvalRef := Some(approvalRef)))
  }

  // ---------------------------------------------------------------- the same records updated in place

  class RetryPlanRecord {
    const retryPlanId: Id
    const deliveryId: Id
    const nextAttemptAt: Timestamp
    const maxAttempts: nat
    const version: nat
    var remainingAttempts: nat
    var status: RetryPlanStatus

    function Snapshot(): RetryPlan
      reads this
    {
      RetryPlan(retryPlanId, deliveryId, nextAttemptAt, maxAttempts, remainingAttempts, status, version)
    }

    constructor (p: RetryPlan)
      ensures Snapshot() == p
    {
      retryPlanId, deliveryId, nextAttemptAt, maxAttempts := p.retryPlanId, p.deliveryId, p.nextAttemptAt, p.maxAttempts;
      version, remainingAttempts, status := p.version, p.remainingAttempts, p.status;
    }

    method Attempted(attemptId: Id) returns (r: Result<(), DomainError>)
      modifies this
      ensures Updated(old(Snapshot()), Snapshot(), MarkAttempted(old(Snapshot()), attemptId), r)
    {
      if status != PlanScheduled {
        return Err(RetryNotAllowed);
      }
      if IsBlank(attemptId) {
        return Err(InvalidRetryPlan("attempt_id"));
      }
      if remainingAttempts == 0 {
        return Err(RetryExhaustedCannotDispatch);
      }
      remainingAttempts := remainingAttempts - 1;
      r := Ok(());
    }

    method Exhausted() returns (r: Result<(), DomainError>)
      modifies this
      ensures Updated(old(Snapshot()), Snapshot(), MarkExhausted(old(Snapshot())), r)
    {
      if status != PlanScheduled || remainingAttempts > 0 {
        return Err(InvalidRetryPlanTransition);
      }
      status := PlanExhausted;
      r := Ok(());
    }
  }

  class ReplayRecord {
    const replayId: Id
    const deadLetterId: Id
    const auditChainRef: Id
    const version: nat
    var status: ReplayStatus
    var approvalRef: Option<Id>

    function Snapshot(): ReplayPreparation
      reads this
    {
      ReplayPreparation(replayId, deadLetterId, status, auditChainRef, approvalRef, version)
    }

    constructor (r: ReplayPreparation)
      ensures Snapshot() == r
    {
      replayId, deadLetterId, auditChainRef, version := r.replayId, r.deadLetterId, r.auditChainRef, r.version;
      status, approvalRef := r.status, r.approvalRef;
    }

    method Ready(approval: Id) returns (r: Result<(), DomainError>)
      modifies this
      ensures Updated(old(Snapshot()), Snapshot(), MarkReady(old(Snapshot()), approval), r)
    {
      if IsBlank(approval) {
        return Err(InvalidReplayPreparation("approval_ref"));
      }
      if status != Draft {
        return Err(InvalidReplayPreparationTransition);
      }
      if IsBlank(auditChainRef) {
        return Err(InvalidReplayPreparation("audit_chain_ref"));
      }
      status := ReplayStatus.Ready;
      approvalRef := Some(approval);
      r := Ok(());
    }
  }
}
