/** Recording delivery feedback, backend signals and timeouts. */
module FeedbackServices {
  import opened Common
  import opened Records
  import opened StoreModel
  import opened Store
  import opened Digest
  import opened Steps
  import opened Adapters
  import opened DeliveryRecords
  import opened FeedbackRules
  import opened FeedbackSteps
  import opened IdempotencySteps
  import opened IdempotencyServices
  import Flows = DeliveryFlows
  import Rules = DeliveryRules

  class FeedbackRecordingService {
    const deps: Runtime

    constructor (deps: Runtime)
      ensures this.deps == deps
    {
      this.deps := deps;
    }

    // ------------------------------------------------------------ the writes common to all three

    /** Stages the feedback and the delivery. */
    method StageBoth(handle: nat, feedback: Feedback, d: Delivery, delivery: DeliveryRecord) returns (r: Result<(), ServiceError>)
      requires deps.Ready() && Get(deps.store.transactions, handle) == Some(NOTHING)
      modifies deps.store`transactions
      ensures deps.Ready()
      ensures Advanced(old(deps.Seen()), handle, deps.Seen(),
        Silent(StageFeedback(deps.store.committed, feedback, d, delivery.Snapshot())), r)
    {
      var inserted := deps.store.StageFeedback(handle, feedback);
      if inserted.Err? {
        var e := deps.RollbackWith(handle, UniqueError(inserted.error, "conflict.feedback_already_recorded"));
        return Err(e);
      }
      Replaced(old(deps.store.transactions), handle, deps.store.transactions[handle]);
      label Inserted:
      var saved := deps.store.StageDeliverySave(handle, delivery.Snapshot(), d.version);
      if saved.Err? {
        var e := deps.RollbackWith(handle, FromRepository(saved.error));
        return Err(e);
      }
      Replaced(old@Inserted(deps.store.transactions), handle, deps.store.transactions[handle]);
      r := Ok(());
    }

    /** Draws the identifiers, then stages the feedback, the delivery, the audit entry and the anchor. */
    method Write(handle: nat, f: Feedback, d: Delivery, delivery: DeliveryRecord, scope: Scope, key: Id, digest: string,
                 actor: Actor, trace: Id, ports: Ports) returns (r: Result<Id, ServiceError>)
      requires deps.Ready() && Get(deps.store.transactions, handle) == Some(NOTHING)
      modifies deps.store`transactions, deps.auditTrail
      ensures deps.Ready()
      ensures Advanced(old(deps.Seen()), handle, deps.Seen(),
        WriteFeedback(deps.store.committed, f, d, delivery.Snapshot(), scope, key, digest, actor, trace, ports,
                      old(deps.Seen().faults)), r)
    {
      hide StageFeedback, Staging, Steps.Append, BindAnchor;
      if ports.auditId.None? || ports.anchorId.None? {
        var e := deps.RollbackWith(handle, IdsExhausted);
        return Err(e);
      }
      var auditRef := ports.auditId.value;
      var feedback := f.(auditRef := Some(auditRef));
      var anchor := Anchor(ports.anchorId.value, scope, key, digest, FeedbackRef(f.feedbackId), ports.later, trace);
      var staged := StageBoth(handle, feedback, d, delivery);
      if staged.Err? {
        return Err(staged.error);
      }
      var logged := deps.Append(handle, AuditEntry(auditRef, DeliverySubject(d.deliveryId), FeedbackRecorded(f.status), actor,
                                                   f.observedAt, trace));
      if logged.Err? {
        return Err(logged.error);
      }
      var bound := Bind(deps, handle, anchor);
      if bound.Err? {
        return Err(bound.error);
      }
      r := Ok(auditRef);
    }

    /** Logs a report about an unknown delivery. */
    method Ignore(handle: nat, id: Id, action: Action, actor: Actor, trace: Id, at: Timestamp, auditId: Option<Id>)
      returns (r: Result<Id, ServiceError>)
      requires deps.Ready() && Get(deps.store.transactions, handle) == Some(NOTHING)
      modifies deps.store`transactions, deps.auditTrail
      ensures deps.Ready()
      ensures Advanced(old(deps.Seen()), handle, deps.Seen(), IgnoreBody(id, action, actor, trace, at, auditId, old(deps.Seen().faults)), r)
    {
      hide Steps.Append;
      if auditId.None? {
        var e := deps.RollbackWith(handle, IdsExhausted);
        return Err(e);
      }
      var logged := deps.Append(handle, AuditEntry(auditId.value, DeliverySubject(id), action, actor, at, trace));
      if logged.Err? {
        return Err(logged.error);
      }
      r := Ok(auditId.value);
    }

    // ------------------------------------------------------------ feedback commands

    /** Applies the feedback to the delivery. */
    method Settle(delivery: DeliveryRecord, feedback: Feedback) returns (r: Result<(), DomainError>)
      modifies delivery
      ensures match Apply(old(delivery.Snapshot()), feedback)
              case Ok(d) => r == Ok(()) && delivery.Snapshot() == d
              case Err(e) => r == Err(e)
    {
      hide Rules.AckFlow, Rules.FailFlow;
      if feedback.status == Ack {
        r := Flows.Acknowledge(delivery, feedback);
      } else {
        r := Flows.Fail(delivery, delivery.status, FailureReason(feedback), "feedback_fail", feedback.observedAt);
      }
    }

    method WriteRecorded(handle: nat, d: Delivery, m: FeedbackCommand, f: Feedback, delivery: DeliveryRecord, key: Id,
                         actor: Actor, trace: Id, ports: Ports) returns (r: Result<FeedbackReceipt, ServiceError>)
      requires deps.Ready() && Get(deps.store.transactions, handle) == Some(NOTHING)
      modifies deps.store`transactions, deps.store`committed, deps.unitOfWork, deps.auditTrail
      ensures deps.Ready()
      ensures Ended(old(deps.Seen()), handle, deps.Seen(),
        Finish(RecordedBody(old(deps.store.committed), d, m, f, delivery.Snapshot(), key, actor, trace, ports, old(deps.Seen().faults)),
               old(deps.Seen().faults)), r)
    {
      hide Overlay, WriteFeedback, RequestDigest;
      var written := Write(handle, f, d, delivery, CommandScope(m), key, RequestDigest(m.canonical), actor, trace, ports);
      if written.Err? {
        return Err(written.error);
      }
      var failure := deps.Commit(handle);
      if failure.Some? {
        return Err(failure.value);
      }
      r := Ok(FeedbackReceipt(f.feedbackId, f.deliveryId, delivery.status, written.value));
    }

    method RecordOn(handle: nat, d: Delivery, m: FeedbackCommand, key: Id, actor: Actor, trace: Id, ports: Ports)
      returns (r: Result<FeedbackReceipt, ServiceError>)
      requires deps.Ready() && Get(deps.store.transactions, handle) == Some(NOTHING)
      modifies deps.store`transactions, deps.store`committed, deps.unitOfWork, deps.auditTrail
      ensures deps.Ready()
      ensures Ended(old(deps.Seen()), handle, deps.Seen(),
        Finish(FeedbackBody(old(deps.store.committed), d, m, key, actor, trace, ports, old(deps.Seen().faults)),
               old(deps.Seen().faults)), r)
    {
      hide Overlay, Apply, RecordedBody, Rules.FindAttempt, FromCommand;
      var attempt := CurrentAttempt(d, m.attemptId, "conflict.late_feedback");
      if attempt.Err? {
        var e := deps.RollbackWith(handle, attempt.error.error);
        return Err(e);
      }
      if !attempt.value.IsFinished() {
        var e := deps.RollbackWith(handle, UNFINISHED);
        return Err(e);
      }
      var feedback := FromCommand(m, actor);
      if feedback.Err? {
        var e := deps.RollbackWith(handle, FromDomain(feedback.error));
        return Err(e);
      }
      var delivery := new DeliveryRecord(d);
      var settled := Settle(delivery, feedback.value);
      if settled.Err? {
        var e := deps.RollbackWith(handle, FromDomain(settled.error));
        return Err(e);
      }
      r := WriteRecorded(handle, d, m, feedback.value, delivery, key, actor, trace, ports);
    }

    method RecordWithin(handle: nat, m: FeedbackCommand, key: Id, actor: Actor, trace: Id, ports: Ports)
      returns (r: Result<FeedbackReceipt, ServiceError>)
      requires deps.Ready() && Get(deps.store.transactions, handle) == Some(NOTHING)
      modifies deps.store`transactions, deps.store`committed, deps.unitOfWork, deps.auditTrail
      ensures deps.Ready()
      ensures Ended(old(deps.Seen()), handle, deps.Seen(),
        Finish(RecordBody(old(deps.store.committed), m, key, actor, trace, ports, old(deps.Seen().faults)),
               old(deps.Seen().faults)), r)
    {
      hide FeedbackBody;
      if m.deliveryId !in deps.store.committed.deliveries {
        var e := deps.RollbackWith(handle, NotFoundError("not_found.delivery"));
        return Err(e);
      }
      r := RecordOn(handle, deps.store.committed.deliveries[m.deliveryId], m, key, actor, trace, ports);
    }

    /** Records feedback on a delivery, or answers a repeated command as it was answered first. */
    method Record(m: FeedbackCommand, key: Option<Id>, actor: Actor, trace: Id, ports: Ports)
      returns (r: Result<FeedbackReceipt, ServiceError>)
      requires deps.Ready()
      modifies deps.store, deps.unitOfWork, deps.auditTrail
      ensures deps.Ready()
      ensures Performed(old(deps.Seen()), deps.Seen(),
        RecordFeedback(old(deps.store.committed), m, key, actor, trace, ports, old(deps.Seen().faults)), r)
    {
      hide RecordBody, RecordConflict, ExistingFeedback, RequestDigest;
      if key.None? {
        return Err(ValidationError("validation.idempotency_key_missing", None));
      }
      var existing := FindAnchor(deps.store.committed, CommandScope(m), key.value);
      var digest := RequestDigest(m.canonical);
      match existing {
        case Some(anchor) =>
          if anchor.digest == digest {
            r := ExistingFeedback(deps.store.committed, anchor);
          } else {
            r := BeginConflict(deps, CommandScope(m), key.value, anchor, digest, actor, trace, ports);
          }
        case None =>
          var handle := deps.Begin();
          ghost var began := deps.Seen();
          r := RecordWithin(handle, m, key.value, actor, trace, ports);
          BegunEnds(old(deps.Seen()), handle, began, deps.Seen(),
                    RecordFeedback(began.committed, m, key, actor, trace, ports, began.faults), r);
      }
    }

    // ------------------------------------------------------------ backend signals

    /** Moves the delivery as the normalized signal says. */
    method Follow(delivery: DeliveryRecord, source: DeliveryStatus, attempt: Attempt, normalized: BackendResult, f: Feedback,
                  at: Timestamp) returns (r: Result<(), DomainError>)
      modifies delivery
      ensures match SignalFlow(old(delivery.Snapshot()), source, attempt, normalized, f, at)
              case Ok(d) => r == Ok(()) && delivery.Snapshot() == d
              case Err(e) => r == Err(e)
    {
      hide Rules.ArriveFlow, Rules.FailFlow;
      if normalized.status == BackendDelivered {
        r := Flows.Arrive(delivery, source, attempt, at);
      } else {
        r := Flows.Fail(delivery, source, FailureReason(f), "delivery_failed", at);
      }
    }

    method WriteReceived(handle: nat, d: Delivery, m: BackendSignal, f: Feedback, delivery: DeliveryRecord, actor: Actor,
                         trace: Id, ports: Ports) returns (r: Result<SignalReceipt, ServiceError>)
      requires deps.Ready() && Get(deps.store.transactions, handle) == Some(NOTHING)
      modifies deps.store`transactions, deps.store`committed, deps.unitOfWork, deps.auditTrail
      ensures deps.Ready()
      ensures Ended(old(deps.Seen()), handle, deps.Seen(),
        Finish(ReceivedBody(old(deps.store.committed), d, m, f, delivery.Snapshot(), actor, trace, ports, old(deps.Seen().faults)),
               old(deps.Seen().faults)), r)
    {
      hide Overlay, WriteFeedback, RequestDigest;
      var written := Write(handle, f, d, delivery, SignalScope(m), m.idempotencyKey, RequestDigest(m.canonical), actor, trace, ports);
      if written.Err? {
        return Err(written.error);
      }
      var failure := deps.Commit(handle);
      if failure.Some? {
        return Err(failure.value);
      }
      r := SignalReceived(m, f, written.value);
    }

    method SettleOn(handle: nat, d: Delivery, m: BackendSignal, normalized: BackendResult, actor: Actor, trace: Id, ports: Ports)
      returns (r: Result<SignalReceipt, ServiceError>)
      requires deps.Ready() && Get(deps.store.transactions, handle) == Some(NOTHING)
      modifies deps.store`transactions, deps.store`committed, deps.unitOfWork, deps.auditTrail
      ensures deps.Ready()
      ensures Ended(old(deps.Seen()), handle, deps.Seen(),
        Finish(SettledBody(old(deps.store.committed), d, m, normalized, actor, trace, ports, old(deps.Seen().faults)),
               old(deps.Seen().faults)), r)
    {
      hide Overlay, SignalFlow, ReceivedBody, Rules.FindAttempt, Rules.FinishAttempt, FromBackendSignal;
      var current := CurrentAttempt(d, m.attemptId, "conflict.backend_signal_attempt_mismatch");
      if current.Err? {
        var e := deps.RollbackWith(handle, current.error.error);
        return Err(e);
      }
      var delivery := new DeliveryRecord(d);
      var attempt := delivery.FinishAttempt(m.attemptId, normalized, ports.now);
      if attempt.Err? {
        var e := deps.RollbackWith(handle, FromDomain(attempt.error));
        return Err(e);
      }
      var feedback := FromBackendSignal(d.deliveryId, m, actor, ports.now);
      if feedback.Err? {
        var e := deps.RollbackWith(handle, FromDomain(feedback.error));
        return Err(e);
      }
      var moved := Follow(delivery, d.status, attempt.value, normalized, feedback.value, ports.now);
      if moved.Err? {
        var e := deps.RollbackWith(handle, FromDomain(moved.error));
        return Err(e);
      }
      r := WriteReceived(handle, d, m, feedback.value, delivery, actor, trace, ports);
    }

    method IgnoreSignal(handle: nat, m: BackendSignal, actor: Actor, trace: Id, ports: Ports)
      returns (r: Result<SignalReceipt, ServiceError>)
      requires deps.Ready() && Get(deps.store.transactions, handle) == Some(NOTHING)
      modifies deps.store`transactions, deps.store`committed, deps.unitOfWork, deps.auditTrail
      ensures deps.Ready()
      ensures Ended(old(deps.Seen()), handle, deps.Seen(),
        Finish(UnknownSignalBody(m, actor, trace, ports, old(deps.Seen().faults)), old(deps.Seen().faults)), r)
    {
      hide Overlay, IgnoreBody;
      var logged := Ignore(handle, m.deliveryId, BackendSignalIgnored, actor, trace, ports.now, ports.auditId);
      if logged.Err? {
        return Err(logged.error);
      }
      var failure := deps.Commit(handle);
      if failure.Some? {
        return Err(failure.value);
      }
      r := Ok(SignalReceipt(m.deliveryId, m.attemptId, IgnoredSignal, None, None, logged.value));
    }

    method SignalWithin(handle: nat, m: BackendSignal, answer: Result<BackendResult, TransportError>, actor: Actor, trace: Id,
                        ports: Ports) returns (r: Result<SignalReceipt, ServiceError>)
      requires deps.Ready() && Get(deps.store.transactions, handle) == Some(NOTHING)
      modifies deps.store`transactions, deps.store`committed, deps.unitOfWork, deps.auditTrail
      ensures deps.Ready()
      ensures Ended(old(deps.Seen()), handle, deps.Seen(),
        Finish(SignalBody(old(deps.store.committed), m, answer, actor, trace, ports, old(deps.Seen().faults)),
               old(deps.Seen().faults)), r)
    {
      hide SettledBody, UnknownSignalBody;
      if answer.Err? {
        var e := deps.RollbackWith(handle, FromTransport(answer.error));
        return Err(e);
      }
      if m.deliveryId !in deps.store.committed.deliveries {
        r := IgnoreSignal(handle, m, actor, trace, ports);
        return;
      }
      r := SettleOn(handle, deps.store.committed.deliveries[m.deliveryId], m, answer.value, actor, trace, ports);
    }

    /** Settles a delivery's open attempt with the backend's signal, or answers a repeated signal as a duplicate. */
    method RecordBackendSignal(m: BackendSignal, answer: Result<BackendResult, TransportError>, actor: Actor, trace: Id,
                               ports: Ports) returns (r: Result<SignalReceipt, ServiceError>)
      requires deps.Ready()
      modifies deps.store, deps.unitOfWork, deps.auditTrail
      ensures deps.Ready()
      ensures Performed(old(deps.Seen()), deps.Seen(),
        RecordSignal(old(deps.store.committed), m, answer, actor, trace, ports, old(deps.Seen().faults)), r)
    {
      hide SignalBody, RecordConflict, ExistingSignal, RequestDigest;
      var existing := FindAnchor(deps.store.committed, SignalScope(m), m.idempotencyKey);
      var digest := RequestDigest(m.canonical);
      match existing {
        case Some(anchor) =>
          if anchor.digest == digest {
            r := ExistingSignal(deps.store.committed, anchor, m.deliveryId, m.attemptId);
          } else {
            r := BeginConflict(deps, SignalScope(m), m.idempotencyKey, anchor, digest, actor, trace, ports);
          }
        case None =>
          var handle := deps.Begin();
          ghost var began := deps.Seen();
          r := SignalWithin(handle, m, answer, actor, trace, ports);
          BegunEnds(old(deps.Seen()), handle, began, deps.Seen(),
                    RecordSignal(began.committed, m, answer, actor, trace, ports, began.faults), r);
      }
    }

    // ------------------------------------------------------------ timeouts

    /** Closes the open attempt of a dispatching delivery; a delivered one must be finished already. */
    method Expire(delivery: DeliveryRecord, m: TimeoutSignal) returns (r: Result<(), ServiceError>)
      modifies delivery
      ensures match TimedOut(old(delivery.Snapshot()), m)
              case Ok(d) => r == Ok(()) && delivery.Snapshot() == d
              case Err(stop) => stop.RollBack? && r == Err(stop.error)
    {
      match delivery.status {
        case Dispatching =>
          var finished := delivery.FinishAttempt(m.attemptId, BackendResult(BackendFailed, None), m.occurredAt);
          if finished.Err? {
            return Err(FromDomain(finished.error));
          }
        case Delivered =>
          var position := Rules.FindAttempt(delivery.attempts, m.attemptId);
          if position.None? {
            return Err(NotFoundError("not_found.delivery_attempt"));
          }
          if !delivery.attempts[position.value].IsFinished() {
            return Err(UNFINISHED);
          }
        case _ =>
          return Err(ConflictError("conflict.timeout_not_allowed", None));
      }
      r := Ok(());
    }

    method WriteExpired(handle: nat, d: Delivery, m: TimeoutSignal, f: Feedback, delivery: DeliveryRecord, actor: Actor,
                        trace: Id, ports: Ports) returns (r: Result<TimeoutReceipt, ServiceError>)
      requires deps.Ready() && Get(deps.store.transactions, handle) == Some(NOTHING)
      modifies deps.store`transactions, deps.store`committed, deps.unitOfWork, deps.auditTrail
      ensures deps.Ready()
      ensures Ended(old(deps.Seen()), handle, deps.Seen(),
        Finish(ExpiredBody(old(deps.store.committed), d, m, f, delivery.Snapshot(), actor, trace, ports, old(deps.Seen().faults)),
               old(deps.Seen().faults)), r)
    {
      hide Overlay, WriteFeedback, RequestDigest;
      var written := Write(handle, f, d, delivery, TimeoutScope(m), m.idempotencyKey, RequestDigest(m.canonical), actor, trace, ports);
      if written.Err? {
        return Err(written.error);
      }
      var failure := deps.Commit(handle);
      if failure.Some? {
        return Err(failure.value);
      }
      r := Ok(TimeoutReceipt(f.deliveryId, Some(f.feedbackId), RecordedNow, true, written.value));
    }

    method ExpireOn(handle: nat, d: Delivery, m: TimeoutSignal, actor: Actor, trace: Id, ports: Ports)
      returns (r: Result<TimeoutReceipt, ServiceError>)
      requires deps.Ready() && Get(deps.store.transactions, handle) == Some(NOTHING)
      modifies deps.store`transactions, deps.store`committed, deps.unitOfWork, deps.auditTrail
      ensures deps.Ready()
      ensures Ended(old(deps.Seen()), handle, deps.Seen(),
        Finish(LateBody(old(deps.store.committed), d, m, actor, trace, ports, old(deps.Seen().faults)),
               old(deps.Seen().faults)), r)
    {
      hide Overlay, TimedOut, ExpiredBody, Rules.FindAttempt, Rules.FailFlow, FromTimeout;
      var current := CurrentAttempt(d, m.attemptId, "conflict.timeout_attempt_mismatch");
      if current.Err? {
        var e := deps.RollbackWith(handle, current.error.error);
        return Err(e);
      }
      var delivery := new DeliveryRecord(d);
      var expired := Expire(delivery, m);
      if expired.Err? {
        var e := deps.RollbackWith(handle, expired.error);
        return Err(e);
      }
      var feedback := FromTimeout(d.deliveryId, m, actor);
      if feedback.Err? {
        var e := deps.RollbackWith(handle, FromDomain(feedback.error));
        return Err(e);
      }
      var failed := Flows.Fail(delivery, d.status, FailureReason(feedback.value), "feedback_timeout", m.occurredAt);
      if failed.Err? {
        var e := deps.RollbackWith(handle, FromDomain(failed.error));
        return Err(e);
      }
      r := WriteExpired(handle, d, m, feedback.value, delivery, actor, trace, ports);
    }

    method IgnoreTimeout(handle: nat, m: TimeoutSignal, actor: Actor, trace: Id, ports: Ports)
      returns (r: Result<TimeoutReceipt, ServiceError>)
      requires deps.Ready() && Get(deps.store.transactions, handle) == Some(NOTHING)
      modifies deps.store`transactions, deps.store`committed, deps.unitOfWork, deps.auditTrail
      ensures deps.Ready()
      ensures Ended(old(deps.Seen()), handle, deps.Seen(),
        Finish(UnknownTimeoutBody(m, actor, trace, ports, old(deps.Seen().faults)), old(deps.Seen().faults)), r)
    {
      hide Overlay, IgnoreBody;
      var logged := Ignore(handle, m.deliveryId, TimeoutSignalIgnored, actor, trace, ports.now, ports.auditId);
      if logged.Err? {
        return Err(logged.error);
      }
      var failure := deps.Commit(handle);
      if failure.Some? {
        return Err(failure.value);
      }
      r := Ok(TimeoutReceipt(m.deliveryId, None, IgnoredSignal, false, logged.value));
    }

    method TimeoutWithin(handle: nat, m: TimeoutSignal, actor: Actor, trace: Id, ports: Ports)
      returns (r: Result<TimeoutReceipt, ServiceError>)
      requires deps.Ready() && Get(deps.store.transactions, handle) == Some(NOTHING)
      modifies deps.store`transactions, deps.store`committed, deps.unitOfWork, deps.auditTrail
      ensures deps.Ready()
      ensures Ended(old(deps.Seen()), handle, deps.Seen(),
        Finish(TimeoutBody(old(deps.store.committed), m, actor, trace, ports, old(deps.Seen().faults)),
               old(deps.Seen().faults)), r)
    {
      hide LateBody, UnknownTimeoutBody;
      if m.deliveryId !in deps.store.committed.deliveries {
        r := IgnoreTimeout(handle, m, actor, trace, ports);
        return;
      }
      r := ExpireOn(handle, deps.store.committed.deliveries[m.deliveryId], m, actor, trace, ports);
    }

    /** Fails a delivery whose attempt timed out, or answers a repeated timeout as a duplicate. */
    method RecordDeliveryTimeout(m: TimeoutSignal, actor: Actor, trace: Id, ports: Ports)
      returns (r: Result<TimeoutReceipt, ServiceError>)
      requires deps.Ready()
      modifies deps.store, deps.unitOfWork, deps.auditTrail
      ensures deps.Ready()
      ensures Performed(old(deps.Seen()), deps.Seen(),
        RecordTimeout(old(deps.store.committed), m, actor, trace, ports, old(deps.Seen().faults)), r)
    {
      hide TimeoutBody, RecordConflict, ExistingTimeout, RequestDigest;
      var existing := FindAnchor(deps.store.committed, TimeoutScope(m), m.idempotencyKey);
      var digest := RequestDigest(m.canonical);
      match existing {
        case Some(anchor) =>
          if anchor.digest == digest {
            r := ExistingTimeout(deps.store.committed, anchor, m.deliveryId);
          } else {
            r := BeginConflict(deps, TimeoutScope(m), m.idempotencyKey, anchor, digest, actor, trace, ports);
          }
        case None =>
          var handle := deps.Begin();
          ghost var began := deps.Seen();
          r := TimeoutWithin(handle, m, actor, trace, ports);
          BegunEnds(old(deps.Seen()), handle, began, deps.Seen(),
                    RecordTimeout(began.committed, m, actor, trace, ports, began.faults), r);
      }
    }
  }
}
