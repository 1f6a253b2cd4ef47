/** The delivery aggregate updated in place, operation by operation. */
module DeliveryRecords {
  import opened Common
  import opened Records
  import Rules = DeliveryRules

  /** An attempt owned by the caller of a dispatch. */
  class DeliveryAttempt {
    const attemptId: Id
    const deliveryId: Id
    const attemptNo: nat
    const startedAt: Timestamp
    var backendRef: Option<Id>
    var finishedAt: Option<Timestamp>
    var resultStatus: Option<BackendStatus>

    function Snapshot(): Attempt
      reads this
    {
      Attempt(attemptId, deliveryId, attemptNo, backendRef, startedAt, finishedAt, resultStatus)
    }

    constructor (a: Attempt)
      ensures Snapshot() == a
    {
      attemptId, deliveryId, attemptNo, startedAt := a.attemptId, a.deliveryId, a.attemptNo, a.startedAt;
      backendRef, finishedAt, resultStatus := a.backendRef, a.finishedAt, a.resultStatus;
    }

    method Finish(result: BackendResult, at: Timestamp) returns (r: Result<(), DomainError>)
      modifies this
      ensures Updated(old(Snapshot()), Snapshot(), Rules.FinishedAttempt(old(Snapshot()), result, at), r)
    {
      if finishedAt.Some? {
        return Err(AttemptAlreadyFinished);
      }
      if Before(at, startedAt) {
        return Err(AttemptFinishedBeforeStart);
      }
      backendRef := result.backendRef;
      resultStatus := Some(result.status);
      finishedAt := Some(at);
      r := Ok(());
    }
  }

  class DeliveryRecord {
    const deliveryId: Id
    const publicationId: Id
    const subscriberRef: Id
    const idempotencyKey: Id
    const capabilityId: Id
    const version: nat
    var status: DeliveryStatus
    var attemptCount: nat
    var lastAttemptRef: Option<Id>
    var attempts: seq<Attempt>
    var history: seq<HistoryEntry>

    function Snapshot(): Delivery
      reads this
    {
      Delivery(deliveryId, publicationId, subscriberRef, idempotencyKey, capabilityId, status, attemptCount,
               lastAttemptRef, attempts, history, version)
    }

    constructor (d: Delivery)
      ensures Snapshot() == d
    {
      deliveryId, publicationId, subscriberRef := d.deliveryId, d.publicationId, d.subscriberRef;
      idempotencyKey, capabilityId, version := d.idempotencyKey, d.capabilityId, d.version;
      status, attemptCount, lastAttemptRef := d.status, d.attemptCount, d.lastAttemptRef;
      attempts, history := d.attempts, d.history;
    }

    method StartAttempt(capability: Id, at: Timestamp) returns (r: Result<Attempt, DomainError>)
      modifies this
      ensures UpdatedWith(old(Snapshot()), Snapshot(), Rules.StartAttempt(old(Snapshot()), capability, at), r)
    {
      if IsBlank(capability) {
        return Err(InvalidDeliveryRecord("backend_capability_ref"));
      }
      if Rules.IsTerminal(status) {
        return Err(TerminalDeliveryStateReopenRejected);
      }
      if status != Scheduled {
        return Err(InvalidDeliveryTransition(status, Dispatching));
      }
      attemptCount := attemptCount + 1;
      var attempt := Rules.BeginAttempt(deliveryId, attemptCount, at);
      lastAttemptRef := Some(attempt.attemptId);
      status := Dispatching;
      attempts := attempts + [attempt];
      r := Ok(attempt);
    }

    method AppendHistory(entry: HistoryEntry) returns (r: Result<(), DomainError>)
      modifies this
      ensures Updated(old(Snapshot()), Snapshot(), Rules.AppendHistory(old(Snapshot()), entry), r)
    {
      if entry.deliveryId != deliveryId {
        return Err(InvalidDeliveryRecord("history.delivery_id"));
      }
      if !Rules.RequiresHistory(entry.fromStatus, entry.toStatus) {
        return Err(InvalidDeliveryRecord("history.transition"));
      }
      history := history + [entry];
      r := Ok(());
    }

    method SyncAttempt(attempt: Attempt) returns (r: Result<(), DomainError>)
      modifies this
      ensures Updated(old(Snapshot()), Snapshot(), Rules.SyncAttempt(old(Snapshot()), attempt), r)
    {
      if attempt.deliveryId != deliveryId {
        return Err(AttemptDoesNotBelongToDelivery);
      }
      var position := Rules.FindAttempt(attempts, attempt.attemptId);
      if position.None? {
        return Err(AttemptRefMismatch);
      }
      attempts := attempts[position.value := attempt];
      r := Ok(());
    }

    method FinishAttempt(attemptId: Id, result: BackendResult, at: Timestamp) returns (r: Result<Attempt, DomainError>)
      modifies this
      ensures UpdatedWith(old(Snapshot()), Snapshot(), Rules.FinishAttempt(old(Snapshot()), attemptId, result, at), r)
    {
      if lastAttemptRef != Some(attemptId) {
        return Err(AttemptRefMismatch);
      }
      var position := Rules.FindAttempt(attempts, attemptId);
      if position.None? {
        return Err(AttemptRefMismatch);
      }
      var attempt := new DeliveryAttempt(attempts[position.value]);
      var finished := attempt.Finish(result, at);
      if finished.Err? {
        return Err(finished.error);
      }
      attempts := attempts[position.value := attempt.Snapshot()];
      r := Ok(attempt.Snapshot());
    }

    method MarkDelivered(attempt: Attempt) returns (r: Result<(), DomainError>)
      modifies this
      ensures Updated(old(Snapshot()), Snapshot(), Rules.MarkDelivered(old(Snapshot()), attempt), r)
    {
      if status != Dispatching {
        return Err(InvalidDeliveryTransition(status, Delivered));
      }
      if attempt.deliveryId != deliveryId {
        return Err(AttemptDoesNotBelongToDelivery);
      }
      if lastAttemptRef != Some(attempt.attemptId) {
        return Err(AttemptRefMismatch);
      }
      if !attempt.IsFinished() {
        return Err(AttemptNotFinished);
      }
      if attempt.resultStatus != Some(BackendDelivered) {
        return Err(AttemptOutcomeDoesNotDeliver);
      }
      r := SyncAttempt(attempt);
      if r.Ok? {
        status := Delivered;
      }
    }

    method MarkFailed(reason: string) returns (r: Result<(), DomainError>)
      modifies this
      ensures Updated(old(Snapshot()), Snapshot(), Rules.MarkFailed(old(Snapshot()), reason), r)
    {
      if IsBlank(reason) {
        return Err(InvalidDeliveryRecord("failure_reason"));
      }
      if Rules.IsTerminal(status) {
        return Err(TerminalDeliveryStateReopenRejected);
      }
      if !Rules.CanTransition(status, Failed) {
        return Err(InvalidDeliveryTransition(status, Failed));
      }
      status := Failed;
      r := Ok(());
    }

    method RescheduleForRetry() returns (r: Result<(), DomainError>)
      modifies this
      ensures Updated(old(Snapshot()), Snapshot(), Rules.RescheduleForRetry(old(Snapshot())), r)
    {
      if status != Failed {
        return Err(RetryNotAllowed);
      }
      status := Scheduled;
      r := Ok(());
    }

    method MarkDeadLettered(deadLetterId: Id) returns (r: Result<(), DomainError>)
      modifies this
      ensures Updated(old(Snapshot()), Snapshot(), Rules.MarkDeadLettered(old(Snapshot()), deadLetterId), r)
    {
      if IsBlank(deadLetterId) {
        return Err(InvalidDeliveryRecord("dead_letter_id"));
      }
      if status != Failed {
        return Err(DeadLetterNotAllowed);
      }
      status := DeadLettered;
      r := Ok(());
    }

    method MarkCompleted(feedback: Feedback) returns (r: Result<(), DomainError>)
      modifies this
      ensures Updated(old(Snapshot()), Snapshot(), Rules.MarkCompleted(old(Snapshot()), feedback), r)
    {
      if feedback.deliveryId != deliveryId {
        return Err(InvalidFeedbackResult("feedback.delivery_id"));
      }
      if feedback.status != Ack {
        return Err(InvalidFeedbackResult("feedback.status"));
      }
      if Rules.IsTerminal(status) {
        return Err(TerminalDeliveryStateReopenRejected);
      }
      if status != Delivered {
        return Err(InvalidDeliveryTransition(status, Completed));
      }
      if lastAttemptRef != Some(feedback.attemptId) {
        return Err(AttemptRefMismatch);
      }
      var position := Rules.FindAttempt(attempts, feedback.attemptId);
      if position.None? {
        return Err(AttemptRefMismatch);
      }
      if !attempts[position.value].IsFinished() {
        return Err(AttemptNotFinished);
      }
      if attempts[position.value].resultStatus != Some(BackendDelivered) {
        return Err(AttemptOutcomeDoesNotDeliver);
      }
      status := Completed;
      r := Ok(());
    }
  }
}
