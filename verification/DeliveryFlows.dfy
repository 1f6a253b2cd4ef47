/** The steps the services take on a delivery record, in place; a failed step abandons the record. */
module DeliveryFlows {
  import opened Common
  import opened Records
  import opened DeliveryRecords
  import Rules = DeliveryRules

  /** Records the dispatch's answer: delivered with a successful attempt, else failed. */
  method Settle(delivery: DeliveryRecord, attempt: DeliveryAttempt, answer: Result<BackendResult, TransportError>, at: Timestamp)
    returns (r: Result<(), DomainError>)
    modifies delivery, attempt
    ensures match Rules.Settle(old(delivery.Snapshot()), old(attempt.Snapshot()), answer, at)
            case Ok((d, a)) => r == Ok(()) && delivery.Snapshot() == d && attempt.Snapshot() == a
            case Err(e) => r == Err(e)
  {
    match answer {
      case Ok(result) =>
        var _ :- attempt.Finish(result, at);
        var _ :- delivery.MarkDelivered(attempt.Snapshot());
        var _ :- delivery.AppendHistory(Rules.Transition(delivery.deliveryId, Dispatching, Delivered, "delivery_arrived", at));
      case Err(error) =>
        var _ :- attempt.Finish(BackendResult(BackendFailed, None), at);
        var _ :- delivery.SyncAttempt(attempt.Snapshot());
        var _ :- delivery.MarkFailed(Rules.DispatchFailureReason(error));
        var _ :- delivery.AppendHistory(Rules.Transition(delivery.deliveryId, Dispatching, Failed, "delivery_failed", at));
    }
    r := Ok(());
  }

  /** Starts an attempt, records it, and settles it with the backend's answer. */
  method Dispatch(delivery: DeliveryRecord, source: DeliveryStatus, startedAt: Timestamp,
                  answer: Result<BackendResult, TransportError>, finishedAt: Timestamp) returns (r: Result<Attempt, DomainError>)
    modifies delivery
    ensures match Rules.Dispatch(old(delivery.Snapshot()), source, startedAt, answer, finishedAt)
            case Ok((d, a)) => r == Ok(a) && delivery.Snapshot() == d
            case Err(e) => r == Err(e)
  {
    var started :- delivery.StartAttempt(delivery.capabilityId, startedAt);
    var _ :- delivery.AppendHistory(Rules.Transition(delivery.deliveryId, source, Dispatching, "dispatching_started", startedAt));
    var attempt := new DeliveryAttempt(started);
    var _ :- Settle(delivery, attempt, answer, finishedAt);
    r := Ok(attempt.Snapshot());
  }

  /** A retry first puts a failed delivery back to scheduled. */
  method Retry(delivery: DeliveryRecord, at: Timestamp, answer: Result<BackendResult, TransportError>)
    returns (r: Result<Attempt, DomainError>)
    modifies delivery
    ensures match Rules.Retry(old(delivery.Snapshot()), at, answer)
            case Ok((d, a)) => r == Ok(a) && delivery.Snapshot() == d
            case Err(e) => r == Err(e)
  {
    if delivery.status == Failed {
      var rescheduled := delivery.RescheduleForRetry();
      if rescheduled.Ok? {
        var _ := delivery.AppendHistory(Rules.Transition(delivery.deliveryId, Failed, Scheduled, "retry_rescheduled", at));
      }
    }
    r := Dispatch(delivery, Scheduled, at, answer, at);
  }

  method Acknowledge(delivery: DeliveryRecord, feedback: Feedback) returns (r: Result<(), DomainError>)
    modifies delivery
    ensures match Rules.AckFlow(old(delivery.Snapshot()), feedback)
            case Ok(d) => r == Ok(()) && delivery.Snapshot() == d
            case Err(e) => r == Err(e)
  {
    var source := delivery.status;
    var _ :- delivery.MarkCompleted(feedback);
    r := delivery.AppendHistory(Rules.Transition(delivery.deliveryId, source, Completed, "feedback_ack", feedback.observedAt));
  }

  method Fail(delivery: DeliveryRecord, source: DeliveryStatus, failure: string, reason: string, at: Timestamp)
    returns (r: Result<(), DomainError>)
    modifies delivery
    ensures match Rules.FailFlow(old(delivery.Snapshot()), source, failure, reason, at)
            case Ok(d) => r == Ok(()) && delivery.Snapshot() == d
            case Err(e) => r == Err(e)
  {
    var _ :- delivery.MarkFailed(failure);
    r := delivery.AppendHistory(Rules.Transition(delivery.deliveryId, source, Failed, reason, at));
  }

  method Arrive(delivery: DeliveryRecord, source: DeliveryStatus, attempt: Attempt, at: Timestamp)
    returns (r: Result<(), DomainError>)
    modifies delivery
    ensures match Rules.ArriveFlow(old(delivery.Snapshot()), source, attempt, at)
            case Ok(d) => r == Ok(()) && delivery.Snapshot() == d
            case Err(e) => r == Err(e)
  {
    var _ :- delivery.MarkDelivered(attempt);
    r := delivery.AppendHistory(Rules.Transition(delivery.deliveryId, source, Delivered, "delivery_arrived", at));
  }

  method DeadLetter(delivery: DeliveryRecord, deadLetterId: Id, at: Timestamp) returns (r: Result<(), DomainError>)
    modifies delivery
    ensures match Rules.DeadLetterFlow(old(delivery.Snapshot()), deadLetterId, at)
            case Ok(d) => r == Ok(()) && delivery.Snapshot() == d
            case Err(e) => r == Err(e)
  {
    var _ :- delivery.MarkDeadLettered(deadLetterId);
    r := delivery.AppendHistory(Rules.Transition(delivery.deliveryId, Failed, DeadLettered, "dead_lettered", at));
  }
}
