/** What feedback, backend signals and timeouts commit, and exactly when they do, read off the stored delivery and
    the report's own fields. */
module ReportOutcomes {
  import opened Common
  import opened Records
  import opened StoreModel
  import opened Steps
  import opened Digest
  import opened Indexes
  import opened Invariants
  import opened ServiceEffects
  import opened FeedbackRules
  import opened FeedbackSteps
  import opened IdempotencySteps
  import Rules = DeliveryRules

  // ---------------------------------------------------------------- what a report says

  /** A report on one attempt of a delivery, whatever its channel. */
  datatype Report = Report(deliveryId: Id, attemptId: Id, externalRef: Id, status: FeedbackStatus, reason: Option<string>,
                           observedAt: Timestamp, scope: Scope, key: Id)

  function CommandReport(m: FeedbackCommand, key: Id): Report {
    Report(m.deliveryId, m.attemptId, m.externalRef, if m.kind == AckKind then Ack else Fail, Some(m.reason), m.observedAt,
           CommandScope(m), key)
  }

  /** A signal reports the status it carries itself. */
  function SignalReport(m: BackendSignal, at: Timestamp): Report {
    var delivered := m.backendStatus == BackendDelivered;
    Report(m.deliveryId, m.attemptId,
           "backend_signal:" + m.attemptId + ":" + (if delivered then "delivered" else "failed") + ":" + m.backendResultRef,
           if delivered then Ack else Fail, if delivered then None else Some("backend_failed"), at, SignalScope(m), m.idempotencyKey)
  }

  function TimeoutReport(m: TimeoutSignal): Report {
    Report(m.deliveryId, m.attemptId, "timeout_signal:" + m.attemptId + ":dispatch_timeout", Timeout, Some("dispatch_timeout"),
           m.occurredAt, TimeoutScope(m), m.idempotencyKey)
  }

  ghost predicate Filled(r: Report) {
    && !IsBlank(r.attemptId) && !IsBlank(r.externalRef) && !IsBlank(r.deliveryId) && !IsBlank(r.observedAt)
    && (r.reason.Some? ==> !IsBlank(r.reason.value))
  }

  function FeedbackIdOf(r: Report): Id {
    "feedback_" + Sanitize(r.deliveryId) + "_" + Sanitize(r.externalRef)
  }

  function FeedbackOf(r: Report, actor: Actor): Feedback {
    Feedback(FeedbackIdOf(r), r.deliveryId, r.status, r.reason, r.observedAt, actor, r.attemptId, r.externalRef, 0, None)
  }

  /** No feedback is stored under the report's identifier or from its source, and its key is unused. */
  ghost predicate Unrecorded(c: Committed, r: Report) {
    && FeedbackIdOf(r) !in c.feedbacks
    && (forall id :: !SourceOf(c.feedbacks, (r.deliveryId, r.externalRef), id))
    && (r.scope, r.key) !in c.anchors
  }

  /** Both identifiers are drawn and nothing is made to fail. */
  ghost predicate Smooth(ports: Ports, faults: Faults) {
    ports.auditId.Some? && ports.anchorId.Some? && faults == NO_FAULTS
  }

  // ---------------------------------------------------------------- what a report does to the delivery

  /** The delivery reaches the status by one entry; its earlier attempts and identity stay. */
  ghost predicate Reaches(before: Delivery, after: Delivery, target: DeliveryStatus, reason: string, at: Timestamp) {
    && after == before.(status := target, attempts := after.attempts, history := after.history, version := before.version + 1)
    && |after.attempts| == |before.attempts|
    && (forall i | 0 <= i < |before.attempts| - 1 :: after.attempts[i] == before.attempts[i])
    && Lengthens(before.history, after.history)
    && var e := after.history[|before.history|];
       && e.fromStatus == before.status && e.toStatus == target && e.reason == reason
       && e.occurredAt == at && e.deliveryId == before.deliveryId
  }

  /** The open attempt is closed with the result at that time. */
  ghost predicate Closes(before: Delivery, after: Delivery, result: BackendResult, at: Timestamp) {
    && before.attempts != [] && |after.attempts| == |before.attempts|
    && var last := |before.attempts| - 1;
       after.attempts[last] ==
       before.attempts[last].(backendRef := result.backendRef, finishedAt := Some(at), resultStatus := Some(result.status))
  }

  ghost predicate OnLastAttempt(d: Delivery, attemptId: Id) {
    d.attempts != [] && d.attempts[|d.attempts| - 1].attemptId == attemptId
  }

  ghost predicate OpenSince(d: Delivery, attemptId: Id, at: Timestamp) {
    && d.status == Dispatching && OnLastAttempt(d, attemptId)
    && AtMost(d.attempts[|d.attempts| - 1].startedAt, at)
  }

  function SettledReason(result: BackendResult): string {
    if result.status == BackendDelivered then "delivery_arrived" else "delivery_failed"
  }

  lemma FinishOutcome(d: Delivery, attemptId: Id, result: BackendResult, at: Timestamp)
    requires Rules.WellFormed(d)
    ensures Rules.FinishAttempt(d, attemptId, result, at).Ok? <==> OpenSince(d, attemptId, at)
    ensures Rules.FinishAttempt(d, attemptId, result, at).Ok? ==>
      var (after, a) := Rules.FinishAttempt(d, attemptId, result, at).value;
      var last := |d.attempts| - 1;
      && d.lastAttemptRef == Some(attemptId)
      && a == d.attempts[last].(backendRef := result.backendRef, finishedAt := Some(at), resultStatus := Some(result.status))
      && after == d.(attempts := d.attempts[last := a])
      && a.deliveryId == d.deliveryId && a.attemptId == attemptId
  {
    if d.attempts != [] {
      var last := |d.attempts| - 1;
      Rules.FindsOwn(d, last);
      assert Rules.AttemptOk(d, last);
    }
  }

  lemma FailOutcome(d: Delivery, failure: string, reason: string, at: Timestamp)
    requires d.status == Dispatching || d.status == Delivered
    requires !IsBlank(failure)
    ensures Rules.FailFlow(d, d.status, failure, reason, at) ==
            Ok(d.(status := Failed, history := d.history + [Rules.Transition(d.deliveryId, d.status, Failed, reason, at)]))
  {
  }

  lemma ArriveOutcome(d: Delivery, a: Attempt, at: Timestamp)
    requires d.status == Dispatching && d.attempts != [] && d.lastAttemptRef == Some(a.attemptId) && a.deliveryId == d.deliveryId
    requires d.attempts[|d.attempts| - 1] == a && a.finishedAt.Some? && a.resultStatus == Some(BackendDelivered)
    requires Rules.FindAttempt(d.attempts, a.attemptId) == Some(|d.attempts| - 1)
    ensures Rules.ArriveFlow(d, Dispatching, a, at) ==
            Ok(d.(status := Delivered,
                  history := d.history + [Rules.Transition(d.deliveryId, Dispatching, Delivered, "delivery_arrived", at)]))
  {
    assert d.attempts[|d.attempts| - 1 := a] == d.attempts;
  }

  lemma AckOutcome(d: Delivery, f: Feedback)
    requires Rules.WellFormed(d) && f.deliveryId == d.deliveryId && f.status == Ack
    ensures Rules.AckFlow(d, f).Ok? <==> d.status == Delivered && OnLastAttempt(d, f.attemptId)
    ensures Rules.AckFlow(d, f).Ok? ==>
      var e := Rules.Transition(d.deliveryId, Delivered, Completed, "feedback_ack", f.observedAt);
      Rules.AckFlow(d, f).value == d.(status := Completed, history := d.history + [e])
  {
    if d.attempts != [] {
      var last := |d.attempts| - 1;
      Rules.FindsOwn(d, last);
      assert Rules.AttemptOk(d, last);
    }
  }

  lemma FixedTexts()
    ensures !IsBlank("backend_failed") && !IsBlank("feedback_not_failure") && !IsBlank("delivery_timeout")
    ensures !IsBlank("dispatch_timeout")
  {
    assert !IsSpace("backend_failed"[0]) && !IsSpace("feedback_not_failure"[0]) && !IsSpace("delivery_timeout"[0]);
    assert !IsSpace("dispatch_timeout"[0]);
  }

  /** A normalized answer settles the open attempt: delivered when it says so, failed otherwise. */
  lemma SignalFlowOutcome(d: Delivery, m: BackendSignal, result: BackendResult, f: Feedback, at: Timestamp)
    requires Rules.WellFormed(d) && OpenSince(d, m.attemptId, at)
    requires f.status == Ack || (f.status == Fail && f.reason == Some("backend_failed"))
    ensures Rules.FinishAttempt(d, m.attemptId, result, at).Ok?
    ensures var (finished, a) := Rules.FinishAttempt(d, m.attemptId, result, at).value;
      var flow := SignalFlow(finished, d.status, a, result, f, at);
      && flow.Ok?
      && Reaches(d, Rules.Saved(d, flow.value), if result.status == BackendDelivered then Delivered else Failed, SettledReason(result), at)
      && Closes(d, Rules.Saved(d, flow.value), result, at)
  {
    FinishOutcome(d, m.attemptId, result, at);
    Rules.FinishesLast(d, m.attemptId, result, at);
    var (finished, a) := Rules.FinishAttempt(d, m.attemptId, result, at).value;
    if result.status == BackendDelivered {
      ArriveOutcome(finished, a, at);
    } else {
      FixedTexts();
      FailOutcome(finished, FailureReason(f), "delivery_failed", at);
    }
  }

  lemma TimedOutOutcome(d: Delivery, m: TimeoutSignal)
    requires Rules.WellFormed(d) && OnLastAttempt(d, m.attemptId)
    ensures TimedOut(d, m).Ok? <==> OpenSince(d, m.attemptId, m.occurredAt) || d.status == Delivered
    ensures TimedOut(d, m).Ok? && d.status == Delivered ==> TimedOut(d, m).value == d
    ensures TimedOut(d, m).Ok? && d.status == Dispatching ==>
      var last := |d.attempts| - 1;
      var closed := d.attempts[last].(backendRef := None, finishedAt := Some(m.occurredAt), resultStatus := Some(BackendFailed));
      TimedOut(d, m).value == d.(attempts := d.attempts[last := closed])
  {
    hide Rules.FinishAttempt;
    var last := |d.attempts| - 1;
    Rules.FindsOwn(d, last);
    assert Rules.AttemptOk(d, last);
    FinishOutcome(d, m.attemptId, BackendResult(BackendFailed, None), m.occurredAt);
  }

  /** Failing a delivery whose last attempt at most has changed. */
  lemma FailReaches(d: Delivery, t: Delivery, failure: string, reason: string, at: Timestamp)
    requires d.status == Dispatching || d.status == Delivered
    requires t == d.(attempts := t.attempts) && |t.attempts| == |d.attempts| && !IsBlank(failure)
    requires forall i | 0 <= i < |d.attempts| - 1 :: t.attempts[i] == d.attempts[i]
    ensures var flow := Rules.FailFlow(t, d.status, failure, reason, at);
      flow.Ok? && Reaches(d, Rules.Saved(d, flow.value), Failed, reason, at) && flow.value.attempts == t.attempts
  {
    hide Rules.FailFlow;
    FailOutcome(t, failure, reason, at);
  }

  /** A timeout fails the delivery: a dispatching one with its open attempt closed as failed, a delivered one as it is. */
  lemma TimeoutFlowOutcome(d: Delivery, m: TimeoutSignal, f: Feedback)
    requires Rules.WellFormed(d) && OnLastAttempt(d, m.attemptId) && f.status == Timeout
    ensures TimedOut(d, m).Ok? <==> OpenSince(d, m.attemptId, m.occurredAt) || d.status == Delivered
    ensures TimedOut(d, m).Ok? ==>
      var flow := Rules.FailFlow(TimedOut(d, m).value, d.status, FailureReason(f), "feedback_timeout", m.occurredAt);
      && flow.Ok? && Reaches(d, Rules.Saved(d, flow.value), Failed, "feedback_timeout", m.occurredAt)
      && (d.status == Dispatching ==> Closes(d, Rules.Saved(d, flow.value), BackendResult(BackendFailed, None), m.occurredAt))
      && (d.status == Delivered ==> flow.value.attempts == d.attempts)
  {
    hide Rules.FailFlow, Rules.WellFormed, TimedOut, Reaches;
    FixedTexts();
    TimedOutOutcome(d, m);
    if TimedOut(d, m).Ok? {
      FailReaches(d, TimedOut(d, m).value, FailureReason(f), "feedback_timeout", m.occurredAt);
    }
  }

  /** Feedback on the last attempt completes a delivered delivery when it acknowledges, and fails it otherwise. */
  lemma ApplyOutcome(d: Delivery, f: Feedback)
    requires Rules.WellFormed(d) && f.deliveryId == d.deliveryId && OnLastAttempt(d, f.attemptId)
    requires d.status != Scheduled && d.status != Dispatching
    requires f.status == Ack || (f.status == Fail && f.reason.Some? && !IsBlank(f.reason.value))
    ensures Apply(d, f).Ok? <==> d.status == Delivered
    ensures Apply(d, f).Ok? ==>
      && Reaches(d, Rules.Saved(d, Apply(d, f).value), if f.status == Ack then Completed else Failed,
                 if f.status == Ack then "feedback_ack" else "feedback_fail", f.observedAt)
      && Apply(d, f).value.attempts == d.attempts
  {
    hide Rules.AckFlow;
    if f.status == Ack {
      AckOutcome(d, f);
    } else if d.status == Delivered {
      FailOutcome(d, FailureReason(f), "feedback_fail", f.observedAt);
    }
  }

  lemma CurrentAttemptOutcome(d: Delivery, attemptId: Id, code: string)
    requires Rules.WellFormed(d)
    ensures CurrentAttempt(d, attemptId, code).Ok? <==> OnLastAttempt(d, attemptId)
    ensures CurrentAttempt(d, attemptId, code).Ok? ==>
      && CurrentAttempt(d, attemptId, code).value == d.attempts[|d.attempts| - 1]
      && (d.attempts[|d.attempts| - 1].IsFinished() <==> d.status != Dispatching) && d.status != Scheduled
  {
    if d.attempts != [] {
      Rules.FindsOwn(d, |d.attempts| - 1);
      assert Rules.AttemptOk(d, |d.attempts| - 1);
    }
  }

  // ---------------------------------------------------------------- what a report becomes

  lemma CommandBuilt(m: FeedbackCommand, key: Id, actor: Actor)
    ensures FromCommand(m, actor).Ok? <==> Filled(CommandReport(m, key))
    ensures FromCommand(m, actor).Ok? ==> FromCommand(m, actor).value == FeedbackOf(CommandReport(m, key), actor)
  {
    hide IsBlank, Sanitize;
  }

  lemma SignalBuilt(m: BackendSignal, actor: Actor, at: Timestamp)
    ensures FromBackendSignal(m.deliveryId, m, actor, at).Ok? <==> Filled(SignalReport(m, at))
    ensures FromBackendSignal(m.deliveryId, m, actor, at).Ok? ==>
      FromBackendSignal(m.deliveryId, m, actor, at).value == FeedbackOf(SignalReport(m, at), actor)
  {
    hide IsBlank, Sanitize;
  }

  lemma TimeoutBuilt(m: TimeoutSignal, actor: Actor)
    ensures FromTimeout(m.deliveryId, m, actor).Ok? <==> Filled(TimeoutReport(m))
    ensures FromTimeout(m.deliveryId, m, actor).Ok? ==> FromTimeout(m.deliveryId, m, actor).value == FeedbackOf(TimeoutReport(m), actor)
  {
    hide IsBlank, Sanitize;
    assert "timeout_signal:" + m.attemptId + ":" + TIMEOUT_REASON == "timeout_signal:" + m.attemptId + ":dispatch_timeout";
  }

  // ---------------------------------------------------------------- the write common to all three

  lemma StageFeedbackIff(c: Committed, f: Feedback, d: Delivery, after: Delivery)
    requires Get(c.deliveryVersions, d.deliveryId) == Some(d.version) && after.deliveryId == d.deliveryId
    ensures StageFeedback(c, f, d, after).Ok? <==> f.feedbackId !in c.feedbacks && (f.deliveryId, f.externalRef) !in c.feedbackSources
  {
  }

  lemma SourcesAreScans(c: Committed, source: (Id, Id))
    requires FeedbackIndexed(c.feedbacks, c.feedbackSources)
    ensures source !in c.feedbackSources <==> forall id :: !SourceOf(c.feedbacks, source, id)
  {
    if source in c.feedbackSources {
      assert SourceOf(c.feedbacks, source, c.feedbackSources[source]);
    }
    forall id | SourceOf(c.feedbacks, source, id) ensures source in c.feedbackSources {
      assert (c.feedbacks[id].deliveryId, c.feedbacks[id].externalRef) == source;
    }
  }

  /** The write succeeds exactly when the report is new, both identifiers are drawn and no append fails. */
  lemma WriteIff(c: Committed, r: Report, d: Delivery, after: Delivery, digest: string, actor: Actor, trace: Id, ports: Ports,
                 faults: Faults)
    requires FeedbackIndexed(c.feedbacks, c.feedbackSources)
    requires Get(c.deliveryVersions, d.deliveryId) == Some(d.version) && after.deliveryId == d.deliveryId
    ensures WriteFeedback(c, FeedbackOf(r, actor), d, after, r.scope, r.key, digest, actor, trace, ports, faults).Ok? <==>
            Unrecorded(c, r) && ports.auditId.Some? && ports.anchorId.Some? && faults.append.None?
  {
    hide StageFeedback, Sanitize;
    var f := FeedbackOf(r, actor).(auditRef := ports.auditId);
    StageFeedbackIff(c, f, d, after);
    SourcesAreScans(c, (r.deliveryId, r.externalRef));
    if StageFeedback(c, f, d, after).Ok? {
      FeedbackShape(c, f, d, after);
    }
  }

  /** The entry that tells a report. */
  function EntryOf(r: Report, actor: Actor, trace: Id, auditRef: Id): AuditEntry {
    AuditEntry(auditRef, DeliverySubject(r.deliveryId), FeedbackRecorded(r.status), actor, r.observedAt, trace)
  }

  /** The anchor that binds a report's key to its feedback. */
  function AnchorOf(r: Report, digest: string, trace: Id, anchorId: Id, at: Timestamp): Anchor {
    Anchor(anchorId, r.scope, r.key, digest, FeedbackRef(FeedbackIdOf(r)), at, trace)
  }

  /** Staged together: the report as feedback, the delivery, the entry that tells it and the anchor. */
  ghost predicate ReportStaged(s: Staged, r: Report, after: Delivery, actor: Actor, trace: Id, digest: string, ports: Ports) {
    && ports.auditId.Some? && ports.anchorId.Some?
    && s.deliveries == map[r.deliveryId := after]
    && s.feedbacks.Keys == {FeedbackIdOf(r)}
    && (var stored := s.feedbacks[FeedbackIdOf(r)];
        stored == FeedbackOf(r, actor).(auditRef := ports.auditId, version := stored.version))
    && s.anchors.Keys == {(r.scope, r.key)}
    && s.anchors[(r.scope, r.key)] == AnchorOf(r, digest, trace, ports.anchorId.value, ports.later)
    && s.audits == [EntryOf(r, actor, trace, ports.auditId.value)]
  }

  lemma WriteStages(c: Committed, r: Report, d: Delivery, after: Delivery, digest: string, actor: Actor, trace: Id, ports: Ports,
                    faults: Faults)
    requires after.deliveryId == d.deliveryId == r.deliveryId
    requires WriteFeedback(c, FeedbackOf(r, actor), d, after, r.scope, r.key, digest, actor, trace, ports, faults).Ok?
    ensures ports.auditId.Some?
    ensures var (s, auditRef) := WriteFeedback(c, FeedbackOf(r, actor), d, after, r.scope, r.key, digest, actor, trace, ports, faults).value;
      ReportStaged(s, r, Rules.Saved(d, after), actor, trace, digest, ports) && auditRef == ports.auditId.value
  {
    hide WriteFeedback, Sanitize;
    var stored, anchor, entry := WriteShape(c, FeedbackOf(r, actor), d, after, r.scope, r.key, digest, actor, trace, ports, faults);
  }

  // ---------------------------------------------------------------- what a report commits

  /** The report is stored as feedback under a new identifier with its anchor, one entry tells it, and of the
      deliveries only its own is written. */
  ghost predicate ReportCommitted(before: Committed, after: Committed, r: Report, actor: Actor, trace: Id, digest: string,
                                  ports: Ports)
  {
    && ports.auditId.Some? && ports.anchorId.Some?
    && Writes(before.deliveries, after.deliveries, r.deliveryId)
    && FeedbackIdOf(r) !in before.feedbacks && Writes(before.feedbacks, after.feedbacks, FeedbackIdOf(r))
    && (var stored := after.feedbacks[FeedbackIdOf(r)];
        stored == FeedbackOf(r, actor).(auditRef := ports.auditId, version := stored.version))
    && (r.scope, r.key) !in before.anchors && Writes(before.anchors, after.anchors, (r.scope, r.key))
    && after.anchors[(r.scope, r.key)] == AnchorOf(r, digest, trace, ports.anchorId.value, ports.later)
    && after.audits == before.audits + [EntryOf(r, actor, trace, ports.auditId.value)]
  }

  lemma StagedReportCommits(c: Committed, s: Staged, r: Report, after: Delivery, actor: Actor, trace: Id, digest: string, ports: Ports)
    requires ReportStaged(s, r, after, actor, trace, digest, ports) && Unrecorded(c, r)
    ensures ReportCommitted(c, Overlay(c, s), r, actor, trace, digest, ports)
    ensures Get(Overlay(c, s).deliveries, r.deliveryId) == Some(after)
  {
    hide Overlay, FeedbackIdOf, Writes;
    ReportTables(c, s);
    LogTables(c, s);
    KeyWritten(c.deliveries, s.deliveries, r.deliveryId);
    KeyWritten(c.feedbacks, s.feedbacks, FeedbackIdOf(r));
    KeyWritten(c.anchors, s.anchors, (r.scope, r.key));
  }

  // ---------------------------------------------------------------- feedback commands

  /** The stored delivery as the version table knows it. */
  ghost predicate Stored(c: Committed, d: Delivery, id: Id) {
    && Get(c.deliveries, id) == Some(d) && d.deliveryId == id && Rules.WellFormed(d)
    && Get(c.deliveryVersions, id) == Some(d.version) && FeedbackIndexed(c.feedbacks, c.feedbackSources)
  }

  /** Nothing but an existing record, a missing identifier or a failing append stops the write. */
  ghost predicate Writable(c: Committed, r: Report, ports: Ports, faults: Faults) {
    Unrecorded(c, r) && ports.auditId.Some? && ports.anchorId.Some? && faults.append.None?
  }

  lemma WriteOutcome(c: Committed, r: Report, d: Delivery, after: Delivery, digest: string, actor: Actor, trace: Id, ports: Ports,
                     faults: Faults)
    requires Stored(c, d, r.deliveryId) && after.deliveryId == d.deliveryId
    ensures var write := WriteFeedback(c, FeedbackOf(r, actor), d, after, r.scope, r.key, digest, actor, trace, ports, faults);
      && (write.Ok? <==> Writable(c, r, ports, faults))
      && (write.Ok? ==>
            && ports.auditId == Some(write.value.1)
            && ReportStaged(write.value.0, r, Rules.Saved(d, after), actor, trace, digest, ports))
  {
    hide WriteFeedback, FeedbackIdOf, Rules.WellFormed, Unrecorded, ReportStaged;
    WriteIff(c, r, d, after, digest, actor, trace, ports, faults);
    if WriteFeedback(c, FeedbackOf(r, actor), d, after, r.scope, r.key, digest, actor, trace, ports, faults).Ok? {
      WriteStages(c, r, d, after, digest, actor, trace, ports, faults);
    }
  }

  /** A feedback command gets as far as its write exactly when it is filled in and on the last attempt of a
      delivered delivery. */
  lemma FeedbackReachesWrite(c: Committed, d: Delivery, m: FeedbackCommand, key: Id, actor: Actor, trace: Id, ports: Ports,
                             faults: Faults) returns (after: Delivery)
    requires Stored(c, d, m.deliveryId)
    ensures var r, body := CommandReport(m, key), FeedbackBody(c, d, m, key, actor, trace, ports, faults);
      if Filled(r) && d.status == Delivered && OnLastAttempt(d, m.attemptId) then
        && body == RecordedBody(c, d, m, FeedbackOf(r, actor), after, key, actor, trace, ports, faults)
        && Reaches(d, Rules.Saved(d, after), if m.kind == AckKind then Completed else Failed,
                   if m.kind == AckKind then "feedback_ack" else "feedback_fail", m.observedAt)
        && after.attempts == d.attempts
      else body.Err?
  {
    hide RecordedBody, RequestDigest, Apply, FeedbackIdOf, Filled, Rules.WellFormed, CurrentAttempt, FromCommand;
    var r := CommandReport(m, key);
    after := d;
    CurrentAttemptOutcome(d, m.attemptId, "conflict.late_feedback");
    CommandBuilt(m, key, actor);
    if OnLastAttempt(d, m.attemptId) && d.status != Dispatching && Filled(r) {
      FilledReason(r);
      ApplyOutcome(d, FeedbackOf(r, actor));
      if d.status == Delivered {
        after := Apply(d, FeedbackOf(r, actor)).value;
      }
    }
  }

  lemma RecordedOutcome(c: Committed, d: Delivery, m: FeedbackCommand, after: Delivery, key: Id, actor: Actor, trace: Id,
                        ports: Ports, faults: Faults)
    requires Stored(c, d, m.deliveryId) && after.deliveryId == d.deliveryId
    ensures var r := CommandReport(m, key);
      var body := RecordedBody(c, d, m, FeedbackOf(r, actor), after, key, actor, trace, ports, faults);
      && (body.Ok? <==> Writable(c, r, ports, faults))
      && (body.Ok? ==>
            && ports.auditId.Some?
            && ReportStaged(body.value.0, r, Rules.Saved(d, after), actor, trace, RequestDigest(m.canonical), ports)
            && body.value.1 == Ok(FeedbackReceipt(FeedbackIdOf(r), m.deliveryId, after.status, ports.auditId.value)))
  {
    hide WriteFeedback, RequestDigest, Writable, Stored, ReportStaged;
    WriteOutcome(c, CommandReport(m, key), d, after, RequestDigest(m.canonical), actor, trace, ports, faults);
  }

  lemma FilledReason(r: Report)
    requires Filled(r)
    ensures r.reason.Some? ==> !IsBlank(r.reason.value)
  {
  }

  // ---------------------------------------------------------------- backend signals

  /** A signal about a known delivery gets as far as its write exactly when it is filled in and its attempt is the
      open one; the delivery then is delivered or failed as the normalized answer says. */
  lemma SignalReachesWrite(c: Committed, d: Delivery, m: BackendSignal, result: BackendResult, actor: Actor, trace: Id,
                           ports: Ports, faults: Faults) returns (after: Delivery)
    requires Stored(c, d, m.deliveryId)
    ensures var r, body := SignalReport(m, ports.now), SettledBody(c, d, m, result, actor, trace, ports, faults);
      if Filled(r) && OpenSince(d, m.attemptId, ports.now) then
        && body == ReceivedBody(c, d, m, FeedbackOf(r, actor), after, actor, trace, ports, faults)
        && Reaches(d, Rules.Saved(d, after), if result.status == BackendDelivered then Delivered else Failed, SettledReason(result), ports.now)
        && Closes(d, Rules.Saved(d, after), result, ports.now)
      else body.Err?
  {
    hide ReceivedBody, RequestDigest, SignalFlow, FeedbackIdOf, Filled, Rules.WellFormed, CurrentAttempt, FromBackendSignal,
         Rules.FinishAttempt;
    var r := SignalReport(m, ports.now);
    after := d;
    CurrentAttemptOutcome(d, m.attemptId, "conflict.backend_signal_attempt_mismatch");
    FinishOutcome(d, m.attemptId, result, ports.now);
    SignalBuilt(m, actor, ports.now);
    if OpenSince(d, m.attemptId, ports.now) && Filled(r) {
      SignalFlowOutcome(d, m, result, FeedbackOf(r, actor), ports.now);
      var (finished, a) := Rules.FinishAttempt(d, m.attemptId, result, ports.now).value;
      after := SignalFlow(finished, d.status, a, result, FeedbackOf(r, actor), ports.now).value;
    }
  }

  lemma ReceivedOutcome(c: Committed, d: Delivery, m: BackendSignal, after: Delivery, actor: Actor, trace: Id, ports: Ports,
                        faults: Faults)
    requires Stored(c, d, m.deliveryId) && after.deliveryId == d.deliveryId
    ensures var r := SignalReport(m, ports.now);
      var body := ReceivedBody(c, d, m, FeedbackOf(r, actor), after, actor, trace, ports, faults);
      && (body.Ok? <==> Writable(c, r, ports, faults))
      && (body.Ok? ==>
            && ports.auditId.Some?
            && ReportStaged(body.value.0, r, Rules.Saved(d, after), actor, trace, RequestDigest(m.canonical), ports)
            && body.value.1 == Ok(SignalReceipt(m.deliveryId, m.attemptId, RecordedNow,
                 Some(if m.backendStatus == BackendDelivered then AckKind else FailKind), Some(FeedbackIdOf(r)), ports.auditId.value)))
  {
    hide WriteFeedback, RequestDigest, Writable, Stored, ReportStaged;
    WriteOutcome(c, SignalReport(m, ports.now), d, after, RequestDigest(m.canonical), actor, trace, ports, faults);
  }

  // ---------------------------------------------------------------- timeouts

  /** A timeout gets as far as its write exactly when it is filled in and its attempt is the last one, open since
      before it or delivered. */
  lemma TimeoutReachesWrite(c: Committed, d: Delivery, m: TimeoutSignal, actor: Actor, trace: Id, ports: Ports, faults: Faults)
    returns (after: Delivery)
    requires Stored(c, d, m.deliveryId)
    ensures var r, body := TimeoutReport(m), LateBody(c, d, m, actor, trace, ports, faults);
      if Filled(r) && (OpenSince(d, m.attemptId, m.occurredAt) || (d.status == Delivered && OnLastAttempt(d, m.attemptId))) then
        && body == ExpiredBody(c, d, m, FeedbackOf(r, actor), after, actor, trace, ports, faults)
        && Reaches(d, Rules.Saved(d, after), Failed, "feedback_timeout", m.occurredAt)
        && (d.status == Dispatching ==> Closes(d, Rules.Saved(d, after), BackendResult(BackendFailed, None), m.occurredAt))
        && (d.status == Delivered ==> after.attempts == d.attempts)
      else body.Err?
  {
    hide ExpiredBody, RequestDigest, TimedOut, FeedbackIdOf, Filled, Rules.WellFormed, CurrentAttempt, FromTimeout, Rules.FailFlow;
    var r := TimeoutReport(m);
    after := d;
    CurrentAttemptOutcome(d, m.attemptId, "conflict.timeout_attempt_mismatch");
    TimeoutBuilt(m, actor);
    if OnLastAttempt(d, m.attemptId) {
      var f := FeedbackOf(r, actor);
      TimeoutFlowOutcome(d, m, f);
      if TimedOut(d, m).Ok? {
        after := Rules.FailFlow(TimedOut(d, m).value, d.status, FailureReason(f), "feedback_timeout", m.occurredAt).value;
      }
    }
  }

  lemma ExpiredOutcome(c: Committed, d: Delivery, m: TimeoutSignal, after: Delivery, actor: Actor, trace: Id, ports: Ports,
                       faults: Faults)
    requires Stored(c, d, m.deliveryId) && after.deliveryId == d.deliveryId
    ensures var r := TimeoutReport(m);
      var body := ExpiredBody(c, d, m, FeedbackOf(r, actor), after, actor, trace, ports, faults);
      && (body.Ok? <==> Writable(c, r, ports, faults))
      && (body.Ok? ==>
            && ports.auditId.Some?
            && ReportStaged(body.value.0, r, Rules.Saved(d, after), actor, trace, RequestDigest(m.canonical), ports)
            && body.value.1 == Ok(TimeoutReceipt(m.deliveryId, Some(FeedbackIdOf(r)), RecordedNow, true, ports.auditId.value)))
  {
    hide WriteFeedback, RequestDigest, Writable, Stored, ReportStaged;
    WriteOutcome(c, TimeoutReport(m), d, after, RequestDigest(m.canonical), actor, trace, ports, faults);
  }

  // ---------------------------------------------------------------- whole calls

  /** The report can be stored: it is new, both identifiers are drawn and nothing is made to fail. */
  ghost predicate Storable(c: Committed, r: Report, ports: Ports, faults: Faults) {
    Unrecorded(c, r) && Smooth(ports, faults)
  }

  /** How a call that is about to write a report ends. */
  lemma ReportEnds<T>(c: Committed, body: Body<T>, r: Report, after: Delivery, actor: Actor, trace: Id, digest: string, ports: Ports,
                      faults: Faults)
    requires body.Ok? <==> Writable(c, r, ports, faults)
    requires body.Ok? ==> ports.auditId.Some? && ReportStaged(body.value.0, r, after, actor, trace, digest, ports)
    ensures var step := Finish(body, faults);
      if Storable(c, r, ports, faults) then
        && body.Ok? && step.exit == Commits(body.value.0) && step.outcome == body.value.1
        && ReportCommitted(c, After(c, step.exit), r, actor, trace, digest, ports)
        && Get(After(c, step.exit).deliveries, r.deliveryId) == Some(after)
      else After(c, step.exit) == c && step.outcome.Err?
  {
    hide Overlay, Unrecorded, ReportStaged, ReportCommitted;
    if body.Ok? {
      StagedReportCommits(c, body.value.0, r, after, actor, trace, digest, ports);
    }
  }

  lemma InvStores(c: Committed, id: Id)
    requires Inv(c) && id in c.deliveries
    ensures Stored(c, c.deliveries[id], id)
  {
    hide Rules.WellFormed;
    StoredDelivery(c, id);
  }

  lemma ConflictReportsNothing<T>(c: Committed, scope: Scope, key: Id, existing: Anchor, incoming: string, actor: Actor, trace: Id,
                                  ports: Ports, faults: Faults)
    ensures var after := After(c, RecordConflict<T>(scope, key, existing, incoming, actor, trace, ports, faults).exit);
      after.feedbacks == c.feedbacks && after.deliveries == c.deliveries
  {
    hide Overlay, RecordConflict;
    ConflictOutcome<T>(scope, key, existing, incoming, actor, trace, ports, faults);
    var exit := RecordConflict<T>(scope, key, existing, incoming, actor, trace, ports, faults).exit;
    if exit.Commits? {
      QuietReports(c, exit.staged);
    }
  }

  lemma QuietReports(c: Committed, s: Staged)
    requires s.feedbacks == map[] && s.deliveries == map[]
    ensures Overlay(c, s).feedbacks == c.feedbacks && Overlay(c, s).deliveries == c.deliveries
  {
    hide Overlay;
    ReportTables(c, s);
    NothingWritten(c.feedbacks, s.feedbacks);
    NothingWritten(c.deliveries, s.deliveries);
  }

  lemma Grew(c: Committed, after: Committed, r: Report, actor: Actor, trace: Id, digest: string, ports: Ports)
    requires ReportCommitted(c, after, r, actor, trace, digest, ports)
    ensures after.feedbacks != c.feedbacks
  {
    assert FeedbackIdOf(r) in after.feedbacks;
  }

  lemma KeyUsed(c: Committed, r: Report, a: Anchor)
    requires FindAnchor(c, r.scope, r.key) == Some(a)
    ensures !Unrecorded(c, r)
  {
  }

  /** The command is keyed and filled in, is about the last attempt of a delivered delivery, and can be stored. */
  ghost predicate CommandRecordable(c: Committed, m: FeedbackCommand, key: Option<Id>, ports: Ports, faults: Faults) {
    && key.Some? && m.deliveryId in c.deliveries && c.deliveries[m.deliveryId].status == Delivered
    && OnLastAttempt(c.deliveries[m.deliveryId], m.attemptId)
    && Filled(CommandReport(m, key.value)) && Storable(c, CommandReport(m, key.value), ports, faults)
  }

  /** A feedback command is recorded exactly when it is recordable. It then completes its delivery when it
      acknowledges and fails it otherwise, by one history entry and without touching an attempt; feedback,
      audit entry and anchor appear with it. Nothing of this happens otherwise. */
  lemma FeedbackDecided(c: Committed, m: FeedbackCommand, key: Option<Id>, actor: Actor, trace: Id, ports: Ports, faults: Faults)
    requires Inv(c)
    ensures var step := RecordFeedback(c, m, key, actor, trace, ports, faults);
      var after := After(c, step.exit);
      var target := if m.kind == AckKind then Completed else Failed;
      if CommandRecordable(c, m, key, ports, faults) then
        && after.feedbacks != c.feedbacks
        && ReportCommitted(c, after, CommandReport(m, key.value), actor, trace, RequestDigest(m.canonical), ports)
        && Reaches(c.deliveries[m.deliveryId], after.deliveries[m.deliveryId], target,
                   if m.kind == AckKind then "feedback_ack" else "feedback_fail", m.observedAt)
        && after.deliveries[m.deliveryId].attempts == c.deliveries[m.deliveryId].attempts
        && step.outcome == Ok(FeedbackReceipt(FeedbackIdOf(CommandReport(m, key.value)), m.deliveryId, target, ports.auditId.value))
      else after.feedbacks == c.feedbacks && after.deliveries == c.deliveries
  {
    hide Overlay, Inv, RequestDigest, FeedbackBody, Filled, Unrecorded, Stored, ReportCommitted, Writable, After, RecordConflict,
         Reaches;
    if key.Some? {
      var r := CommandReport(m, key.value);
      match FindAnchor(c, CommandScope(m), key.value) {
        case Some(a) =>
          KeyUsed(c, r, a);
          ConflictReportsNothing<FeedbackReceipt>(c, CommandScope(m), key.value, a, RequestDigest(m.canonical), actor, trace, ports, faults);
        case None =>
          if m.deliveryId in c.deliveries {
            var d := c.deliveries[m.deliveryId];
            InvStores(c, m.deliveryId);
            FeedbackEnds(c, d, m, key.value, actor, trace, ports, faults);
          }
      }
    }
    NotTaken(c);
  }

  lemma NotTaken(c: Committed)
    ensures After(c, NeverBegan) == c && After(c, RollsBack) == c && After(c, LeavesOpen) == c
  {
  }

  lemma FeedbackEnds(c: Committed, d: Delivery, m: FeedbackCommand, key: Id, actor: Actor, trace: Id, ports: Ports, faults: Faults)
    requires Stored(c, d, m.deliveryId)
    ensures var r := CommandReport(m, key);
      var step := Finish(FeedbackBody(c, d, m, key, actor, trace, ports, faults), faults);
      var after, target := After(c, step.exit), if m.kind == AckKind then Completed else Failed;
      if Filled(r) && d.status == Delivered && OnLastAttempt(d, m.attemptId) && Storable(c, r, ports, faults) then
        && after.feedbacks != c.feedbacks
        && ReportCommitted(c, after, r, actor, trace, RequestDigest(m.canonical), ports)
        && m.deliveryId in after.deliveries && Reaches(d, after.deliveries[m.deliveryId], target,
                   if m.kind == AckKind then "feedback_ack" else "feedback_fail", m.observedAt)
        && after.deliveries[m.deliveryId].attempts == d.attempts
        && step.outcome == Ok(FeedbackReceipt(FeedbackIdOf(r), m.deliveryId, target, ports.auditId.value))
      else after == c
  {
    hide Overlay, RequestDigest, FeedbackBody, RecordedBody, Filled, Unrecorded, ReportCommitted, Writable, After, Rules.WellFormed,
         ReportStaged;
    var r := CommandReport(m, key);
    var after := FeedbackReachesWrite(c, d, m, key, actor, trace, ports, faults);
    NotTaken(c);
    if Filled(r) && d.status == Delivered && OnLastAttempt(d, m.attemptId) {
      RecordedOutcome(c, d, m, after, key, actor, trace, ports, faults);
      var body := RecordedBody(c, d, m, FeedbackOf(r, actor), after, key, actor, trace, ports, faults);
      ReportEnds(c, body, r, Rules.Saved(d, after), actor, trace, RequestDigest(m.canonical), ports, faults);
      if Storable(c, r, ports, faults) {
        Grew(c, After(c, Finish(body, faults).exit), r, actor, trace, RequestDigest(m.canonical), ports);
      }
    }
  }

  // ---------------------------------------------------------------- whole calls: signals

  lemma SignalEnds(c: Committed, d: Delivery, m: BackendSignal, result: BackendResult, actor: Actor, trace: Id, ports: Ports,
                   faults: Faults)
    requires Stored(c, d, m.deliveryId)
    ensures var r := SignalReport(m, ports.now);
      var step := Finish(SettledBody(c, d, m, result, actor, trace, ports, faults), faults);
      var after, target := After(c, step.exit), if result.status == BackendDelivered then Delivered else Failed;
      if Filled(r) && OpenSince(d, m.attemptId, ports.now) && Storable(c, r, ports, faults) then
        && after.feedbacks != c.feedbacks
        && ReportCommitted(c, after, r, actor, trace, RequestDigest(m.canonical), ports)
        && m.deliveryId in after.deliveries && Reaches(d, after.deliveries[m.deliveryId], target, SettledReason(result), ports.now)
        && Closes(d, after.deliveries[m.deliveryId], result, ports.now)
        && step.outcome == Ok(SignalReceipt(m.deliveryId, m.attemptId, RecordedNow,
             Some(if m.backendStatus == BackendDelivered then AckKind else FailKind), Some(FeedbackIdOf(r)), ports.auditId.value))
      else after == c
  {
    hide Overlay, RequestDigest, SettledBody, ReceivedBody, Filled, Unrecorded, ReportCommitted, Writable, After, Rules.WellFormed,
         ReportStaged, Reaches, Closes, SignalReport;
    var r := SignalReport(m, ports.now);
    var after := SignalReachesWrite(c, d, m, result, actor, trace, ports, faults);
    NotTaken(c);
    if Filled(r) && OpenSince(d, m.attemptId, ports.now) {
      ReachesKeepsId(d, Rules.Saved(d, after), if result.status == BackendDelivered then Delivered else Failed, SettledReason(result), ports.now);
      ReceivedOutcome(c, d, m, after, actor, trace, ports, faults);
      var body := ReceivedBody(c, d, m, FeedbackOf(r, actor), after, actor, trace, ports, faults);
      SameDelivery(m, ports.now);
      ReportEnds(c, body, r, Rules.Saved(d, after), actor, trace, RequestDigest(m.canonical), ports, faults);
      if Storable(c, r, ports, faults) {
        Grew(c, After(c, Finish(body, faults).exit), r, actor, trace, RequestDigest(m.canonical), ports);
      }
    }
  }

  lemma ReachesKeepsId(before: Delivery, after: Delivery, target: DeliveryStatus, reason: string, at: Timestamp)
    requires Reaches(before, after, target, reason, at)
    ensures after.deliveryId == before.deliveryId
  {
  }

  lemma SameDelivery(m: BackendSignal, at: Timestamp)
    ensures SignalReport(m, at).deliveryId == m.deliveryId
  {
  }

  /** A report about a delivery the bus does not know is at most logged. */
  lemma IgnoredReportsNothing(c: Committed, s: Staged, id: Id, action: Action, actor: Actor, trace: Id, at: Timestamp, auditId: Option<Id>,
                              faults: Faults)
    requires IgnoreBody(id, action, actor, trace, at, auditId, faults).Ok?
    requires s == IgnoreBody(id, action, actor, trace, at, auditId, faults).value.0
    ensures Overlay(c, s).feedbacks == c.feedbacks && Overlay(c, s).deliveries == c.deliveries
    ensures faults.append.None? && auditId.Some?
    ensures Overlay(c, s).audits == c.audits + [AuditEntry(auditId.value, DeliverySubject(id), action, actor, at, trace)]
  {
    hide Overlay;
    QuietReports(c, s);
    LogTables(c, s);
  }

  /** The backend answered, the signal is filled in, is about the open attempt of its delivery, and can be stored. */
  ghost predicate SignalRecordable(c: Committed, m: BackendSignal, answer: Result<BackendResult, TransportError>, ports: Ports,
                                   faults: Faults)
  {
    && answer.Ok? && m.deliveryId in c.deliveries && OpenSince(c.deliveries[m.deliveryId], m.attemptId, ports.now)
    && Filled(SignalReport(m, ports.now)) && Storable(c, SignalReport(m, ports.now), ports, faults)
  }

  /** A backend signal is recorded exactly when it is recordable. Its delivery is then delivered when the normalized
      answer says so and failed otherwise, by one history entry, with the open attempt closed by that answer; the
      stored feedback repeats the status the signal itself carries. Nothing of this happens otherwise. */
  lemma SignalDecided(c: Committed, m: BackendSignal, answer: Result<BackendResult, TransportError>, actor: Actor, trace: Id,
                      ports: Ports, faults: Faults)
    requires Inv(c)
    ensures var step := RecordSignal(c, m, answer, actor, trace, ports, faults);
      var after, r := After(c, step.exit), SignalReport(m, ports.now);
      if SignalRecordable(c, m, answer, ports, faults) then
        && after.feedbacks != c.feedbacks
        && ReportCommitted(c, after, r, actor, trace, RequestDigest(m.canonical), ports)
        && Reaches(c.deliveries[m.deliveryId], after.deliveries[m.deliveryId],
                   if answer.value.status == BackendDelivered then Delivered else Failed, SettledReason(answer.value), ports.now)
        && Closes(c.deliveries[m.deliveryId], after.deliveries[m.deliveryId], answer.value, ports.now)
        && step.outcome == Ok(SignalReceipt(m.deliveryId, m.attemptId, RecordedNow,
             Some(if m.backendStatus == BackendDelivered then AckKind else FailKind), Some(FeedbackIdOf(r)), ports.auditId.value))
      else after.feedbacks == c.feedbacks && after.deliveries == c.deliveries
  {
    hide Overlay, Inv, RequestDigest, SettledBody, Filled, Unrecorded, Stored, ReportCommitted, Writable, RecordConflict,
         Reaches, Closes, SignalReport, IgnoreBody, OpenSince;
    var r := SignalReport(m, ports.now);
    match FindAnchor(c, SignalScope(m), m.idempotencyKey) {
      case Some(a) =>
        SignalKeyed(m, ports.now);
        KeyUsed(c, r, a);
        ConflictReportsNothing<SignalReceipt>(c, SignalScope(m), m.idempotencyKey, a, RequestDigest(m.canonical), actor, trace, ports, faults);
      case None =>
        if answer.Ok? && m.deliveryId in c.deliveries {
          InvStores(c, m.deliveryId);
          SignalEnds(c, c.deliveries[m.deliveryId], m, answer.value, actor, trace, ports, faults);
        } else if answer.Ok? {
          var body := IgnoreBody(m.deliveryId, BackendSignalIgnored, actor, trace, ports.now, ports.auditId, faults);
          if body.Ok? {
            IgnoredReportsNothing(c, body.value.0, m.deliveryId, BackendSignalIgnored, actor, trace, ports.now, ports.auditId, faults);
          }
        }
    }
    NotTaken(c);
  }

  lemma SignalKeyed(m: BackendSignal, at: Timestamp)
    ensures SignalReport(m, at).scope == SignalScope(m) && SignalReport(m, at).key == m.idempotencyKey
  {
  }

  // ---------------------------------------------------------------- whole calls: timeouts

  lemma TimeoutEnds(c: Committed, d: Delivery, m: TimeoutSignal, actor: Actor, trace: Id, ports: Ports, faults: Faults)
    requires Stored(c, d, m.deliveryId)
    ensures var r := TimeoutReport(m);
      var step := Finish(LateBody(c, d, m, actor, trace, ports, faults), faults);
      var after := After(c, step.exit);
      if Filled(r) && (OpenSince(d, m.attemptId, m.occurredAt) || (d.status == Delivered && OnLastAttempt(d, m.attemptId)))
         && Storable(c, r, ports, faults) then
        && after.feedbacks != c.feedbacks
        && ReportCommitted(c, after, r, actor, trace, RequestDigest(m.canonical), ports)
        && m.deliveryId in after.deliveries && Reaches(d, after.deliveries[m.deliveryId], Failed, "feedback_timeout", m.occurredAt)
        && (d.status == Dispatching ==> Closes(d, after.deliveries[m.deliveryId], BackendResult(BackendFailed, None), m.occurredAt))
        && (d.status == Delivered ==> after.deliveries[m.deliveryId].attempts == d.attempts)
        && step.outcome == Ok(TimeoutReceipt(m.deliveryId, Some(FeedbackIdOf(r)), RecordedNow, true, ports.auditId.value))
      else after == c
  {
    hide Overlay, RequestDigest, LateBody, ExpiredBody, Filled, Unrecorded, ReportCommitted, Writable, After, Rules.WellFormed,
         ReportStaged, Reaches, Closes, OpenSince, OnLastAttempt;
    var r := TimeoutReport(m);
    var after := TimeoutReachesWrite(c, d, m, actor, trace, ports, faults);
    NotTaken(c);
    if Filled(r) && (OpenSince(d, m.attemptId, m.occurredAt) || (d.status == Delivered && OnLastAttempt(d, m.attemptId))) {
      ReachesKeepsId(d, Rules.Saved(d, after), Failed, "feedback_timeout", m.occurredAt);
      ExpiredOutcome(c, d, m, after, actor, trace, ports, faults);
      var body := ExpiredBody(c, d, m, FeedbackOf(r, actor), after, actor, trace, ports, faults);
      ReportEnds(c, body, r, Rules.Saved(d, after), actor, trace, RequestDigest(m.canonical), ports, faults);
      if Storable(c, r, ports, faults) {
        Grew(c, After(c, Finish(body, faults).exit), r, actor, trace, RequestDigest(m.canonical), ports);
      }
    }
  }

  /** The timeout is filled in, is about the last attempt of its delivery, open since before it or delivered, and
      can be stored. */
  ghost predicate TimeoutRecordable(c: Committed, m: TimeoutSignal, ports: Ports, faults: Faults) {
    && m.deliveryId in c.deliveries
    && (var d := c.deliveries[m.deliveryId];
        OpenSince(d, m.attemptId, m.occurredAt) || (d.status == Delivered && OnLastAttempt(d, m.attemptId)))
    && Filled(TimeoutReport(m)) && Storable(c, TimeoutReport(m), ports, faults)
  }

  /** A timeout is recorded exactly when it is recordable. Its delivery then fails by one history entry: a dispatching
      one with its open attempt closed as failed at the time of the timeout, a delivered one with its attempts as
      they were. Nothing of this happens otherwise. */
  lemma TimeoutDecided(c: Committed, m: TimeoutSignal, actor: Actor, trace: Id, ports: Ports, faults: Faults)
    requires Inv(c)
    ensures var step := RecordTimeout(c, m, actor, trace, ports, faults);
      var after, r := After(c, step.exit), TimeoutReport(m);
      if TimeoutRecordable(c, m, ports, faults) then
        && after.feedbacks != c.feedbacks
        && ReportCommitted(c, after, r, actor, trace, RequestDigest(m.canonical), ports)
        && (var before, now := c.deliveries[m.deliveryId], after.deliveries[m.deliveryId];
            && Reaches(before, now, Failed, "feedback_timeout", m.occurredAt)
            && (before.status == Dispatching ==> Closes(before, now, BackendResult(BackendFailed, None), m.occurredAt))
            && (before.status == Delivered ==> now.attempts == before.attempts))
        && step.outcome == Ok(TimeoutReceipt(m.deliveryId, Some(FeedbackIdOf(r)), RecordedNow, true, ports.auditId.value))
      else after.feedbacks == c.feedbacks && after.deliveries == c.deliveries
  {
    hide Overlay, Inv, RequestDigest, LateBody, Filled, Unrecorded, Stored, ReportCommitted, Writable, RecordConflict,
         Reaches, Closes, IgnoreBody, OpenSince, OnLastAttempt;
    match FindAnchor(c, TimeoutScope(m), m.idempotencyKey) {
      case Some(a) =>
        KeyUsed(c, TimeoutReport(m), a);
        ConflictReportsNothing<TimeoutReceipt>(c, TimeoutScope(m), m.idempotencyKey, a, RequestDigest(m.canonical), actor, trace, ports, faults);
      case None =>
        if m.deliveryId in c.deliveries {
          InvStores(c, m.deliveryId);
          TimeoutEnds(c, c.deliveries[m.deliveryId], m, actor, trace, ports, faults);
        } else {
          var body := IgnoreBody(m.deliveryId, TimeoutSignalIgnored, actor, trace, ports.now, ports.auditId, faults);
          if body.Ok? {
            IgnoredReportsNothing(c, body.value.0, m.deliveryId, TimeoutSignalIgnored, actor, trace, ports.now, ports.auditId, faults);
          }
        }
    }
    NotTaken(c);
  }

  // ---------------------------------------------------------------- deliveries the bus does not know

  /** A signal about an unknown delivery is ignored: logged once under its own action, and answered without a feedback. */
  lemma UnknownSignalIgnored(c: Committed, m: BackendSignal, answer: Result<BackendResult, TransportError>, actor: Actor, trace: Id,
                             ports: Ports, faults: Faults)
    requires FindAnchor(c, SignalScope(m), m.idempotencyKey) == None && m.deliveryId !in c.deliveries
    ensures var step := RecordSignal(c, m, answer, actor, trace, ports, faults);
      var after := After(c, step.exit);
      if answer.Ok? && ports.auditId.Some? && faults == NO_FAULTS then
        && after.audits == c.audits + [AuditEntry(ports.auditId.value, DeliverySubject(m.deliveryId), BackendSignalIgnored, actor,
                                                  ports.now, trace)]
        && step.outcome == Ok(SignalReceipt(m.deliveryId, m.attemptId, IgnoredSignal, None, None, ports.auditId.value))
      else after == c && step.outcome.Err?
  {
    hide Overlay, IgnoreBody;
    var body := IgnoreBody(m.deliveryId, BackendSignalIgnored, actor, trace, ports.now, ports.auditId, faults);
    IgnoreIff(m.deliveryId, BackendSignalIgnored, actor, trace, ports.now, ports.auditId, faults);
    if body.Ok? {
      IgnoredReportsNothing(c, body.value.0, m.deliveryId, BackendSignalIgnored, actor, trace, ports.now, ports.auditId, faults);
    }
  }

  lemma UnknownTimeoutIgnored(c: Committed, m: TimeoutSignal, actor: Actor, trace: Id, ports: Ports, faults: Faults)
    requires FindAnchor(c, TimeoutScope(m), m.idempotencyKey) == None && m.deliveryId !in c.deliveries
    ensures var step := RecordTimeout(c, m, actor, trace, ports, faults);
      var after := After(c, step.exit);
      if ports.auditId.Some? && faults == NO_FAULTS then
        && after.audits == c.audits + [AuditEntry(ports.auditId.value, DeliverySubject(m.deliveryId), TimeoutSignalIgnored, actor,
                                                  ports.now, trace)]
        && step.outcome == Ok(TimeoutReceipt(m.deliveryId, None, IgnoredSignal, false, ports.auditId.value))
      else after == c && step.outcome.Err?
  {
    hide Overlay, IgnoreBody;
    var body := IgnoreBody(m.deliveryId, TimeoutSignalIgnored, actor, trace, ports.now, ports.auditId, faults);
    IgnoreIff(m.deliveryId, TimeoutSignalIgnored, actor, trace, ports.now, ports.auditId, faults);
    if body.Ok? {
      IgnoredReportsNothing(c, body.value.0, m.deliveryId, TimeoutSignalIgnored, actor, trace, ports.now, ports.auditId, faults);
    }
  }

  lemma IgnoreIff(id: Id, action: Action, actor: Actor, trace: Id, at: Timestamp, auditId: Option<Id>, faults: Faults)
    ensures IgnoreBody(id, action, actor, trace, at, auditId, faults).Ok? <==> auditId.Some? && faults.append.None?
    ensures IgnoreBody(id, action, actor, trace, at, auditId, faults).Ok? ==>
            Some(IgnoreBody(id, action, actor, trace, at, auditId, faults).value.1) == auditId
  {
  }
}
