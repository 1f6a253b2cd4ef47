/** What a first dispatch and a run of a due plan commit, and exactly when they do, read off the stored records and
    the backend's answer. */
module DispatchOutcomes {
  import opened Common
  import opened Records
  import opened StoreModel
  import opened Steps
  import opened Indexes
  import opened Invariants
  import opened ServiceEffects
  import opened RecoveryRules
  import opened RecoverySteps
  import opened DeliverySteps
  import Rules = DeliveryRules

  // ---------------------------------------------------------------- one attempt

  /** An answer that settles an attempt: an error, or a result that delivers. */
  predicate Settling(answer: Result<BackendResult, TransportError>) {
    answer.Ok? ==> answer.value.status == BackendDelivered
  }

  function Target(answer: Result<BackendResult, TransportError>): DeliveryStatus {
    if answer.Ok? then Delivered else Failed
  }

  /** The attempt ended as the backend answered: delivered under its reference, or failed without one. */
  ghost predicate EndedAs(a: Attempt, answer: Result<BackendResult, TransportError>, startedAt: Timestamp, finishedAt: Timestamp) {
    && a.startedAt == startedAt && a.finishedAt == Some(finishedAt)
    && (a.resultStatus == Some(BackendDelivered) <==> answer.Ok?)
    && (a.resultStatus == Some(BackendFailed) <==> answer.Err?)
    && a.backendRef == (if answer.Ok? then answer.value.backendRef else None)
  }

  /** One more attempt, numbered next and ended as answered; the delivery is delivered or failed accordingly. */
  ghost predicate Attempted(before: Delivery, after: Delivery, answer: Result<BackendResult, TransportError>,
                            startedAt: Timestamp, finishedAt: Timestamp)
  {
    && Lengthens(before.attempts, after.attempts)
    && (var a := after.attempts[|before.attempts|];
        && EndedAs(a, answer, startedAt, finishedAt) && a.attemptNo == before.attemptCount + 1 && a.deliveryId == before.deliveryId
        && after == before.(status := Target(answer), attemptCount := before.attemptCount + 1, lastAttemptRef := Some(a.attemptId),
                            attempts := after.attempts, history := after.history, version := after.version))
  }

  /** The entry goes from one status to another for this reason at this time. */
  ghost predicate Edge(e: HistoryEntry, id: Id, source: DeliveryStatus, target: DeliveryStatus, reason: string, at: Timestamp) {
    e.deliveryId == id && e.fromStatus == source && e.toStatus == target && e.reason == reason && e.occurredAt == at
  }

  /** The history grows by the dispatch and its end, after the edge back to scheduled if the delivery had failed. */
  ghost predicate Narrated(before: Delivery, after: Delivery, answer: Result<BackendResult, TransportError>,
                           startedAt: Timestamp, finishedAt: Timestamp)
  {
    && before.history <= after.history
    && var added, id := after.history[|before.history|..], before.deliveryId;
       var n := |added|;
       && n == (if before.status == Failed then 3 else 2)
       && Edge(added[n - 2], id, Scheduled, Dispatching, "dispatching_started", startedAt)
       && Edge(added[n - 1], id, Dispatching, Target(answer), if answer.Ok? then "delivery_arrived" else "delivery_failed", finishedAt)
       && (n == 3 ==> Edge(added[0], id, Failed, Scheduled, "retry_rescheduled", startedAt))
  }

  lemma SettleOutcome(d: Delivery, a: Attempt, answer: Result<BackendResult, TransportError>, at: Timestamp)
    requires Rules.AttemptsOk(d) && d.status == Dispatching && a == d.attempts[|d.attempts| - 1]
    ensures Rules.Settle(d, a, answer, at).Ok? <==> AtMost(a.startedAt, at) && Settling(answer)
    ensures Rules.Settle(d, a, answer, at).Ok? ==>
      var done := Rules.Settle(d, a, answer, at).value.1;
      EndedAs(done, answer, a.startedAt, at) && done.attemptNo == a.attemptNo && done.deliveryId == a.deliveryId
  {
    Rules.FindsOwn(d, |d.attempts| - 1);
    assert Rules.AttemptOk(d, |d.attempts| - 1);
    FailureTexts();
  }

  lemma FailureTexts()
    ensures !IsBlank("backend_unavailable") && !IsBlank("dispatch_failed")
  {
    assert !IsSpace("backend_unavailable"[0]) && !IsSpace("dispatch_failed"[0]);
  }

  lemma DispatchSteps(d: Delivery, startedAt: Timestamp, answer: Result<BackendResult, TransportError>, finishedAt: Timestamp)
    requires Rules.AttemptsOk(d) && d.status == Scheduled
    ensures var step := Rules.Dispatch(d, Scheduled, startedAt, answer, finishedAt);
      && (step.Ok? <==> !IsBlank(d.capabilityId) && AtMost(startedAt, finishedAt) && Settling(answer))
      && (step.Ok? ==> EndedAs(step.value.1, answer, startedAt, finishedAt) && step.value.1.attemptNo == d.attemptCount + 1
                       && step.value.1.deliveryId == d.deliveryId)
  {
    hide Rules.Settle, IsBlank, EndedAs;
    if !IsBlank(d.capabilityId) {
      var (started, begun) := Rules.StartAttempt(d, d.capabilityId, startedAt).value;
      var recorded := started.(history := d.history + [Rules.Transition(d.deliveryId, Scheduled, Dispatching, "dispatching_started", startedAt)]);
      Rules.StartKeeps(d, d.capabilityId, startedAt);
      Rules.KeepsAttempts(started, recorded);
      SettleOutcome(recorded, begun, answer, finishedAt);
    }
  }

  /** A scheduled delivery with sound attempts is dispatched exactly when it names a capability, the clock does not
      run backwards and the answer settles. */
  lemma DispatchOutcome(d: Delivery, startedAt: Timestamp, answer: Result<BackendResult, TransportError>, finishedAt: Timestamp)
    requires Rules.AttemptsOk(d) && d.status == Scheduled
    ensures Rules.Dispatch(d, Scheduled, startedAt, answer, finishedAt).Ok? <==>
            !IsBlank(d.capabilityId) && AtMost(startedAt, finishedAt) && Settling(answer)
    ensures Rules.Dispatch(d, Scheduled, startedAt, answer, finishedAt).Ok? ==>
      var after := Rules.Dispatch(d, Scheduled, startedAt, answer, finishedAt).value.0;
      Attempted(d, after, answer, startedAt, finishedAt) && Narrated(d, after, answer, startedAt, finishedAt)
  {
    hide Rules.Dispatch, Rules.AttemptsOk, IsBlank, EndedAs;
    DispatchSteps(d, startedAt, answer, finishedAt);
    if Rules.Dispatch(d, Scheduled, startedAt, answer, finishedAt).Ok? {
      Rules.DispatchEffect(d, startedAt, answer, finishedAt);
    }
  }

  /** A dispatch after the edge back to scheduled, seen from the failed delivery. */
  lemma ReopenedAttempt(d: Delivery, scheduled: Delivery, after: Delivery, answer: Result<BackendResult, TransportError>, at: Timestamp)
    requires d.status == Failed && scheduled.status == Scheduled
    requires scheduled == d.(status := Scheduled, history := scheduled.history) && Lengthens(d.history, scheduled.history)
    requires Edge(scheduled.history[|d.history|], d.deliveryId, Failed, Scheduled, "retry_rescheduled", at)
    requires Attempted(scheduled, after, answer, at, at) && Narrated(scheduled, after, answer, at, at)
    ensures Attempted(d, after, answer, at, at) && Narrated(d, after, answer, at, at)
  {
    hide EndedAs, Edge;
    assert after.history[|d.history|..] == [after.history[|d.history|]] + after.history[|scheduled.history|..];
  }

  /** A retry of a well-formed delivery: from failed or scheduled only. */
  lemma RetryOutcome(d: Delivery, at: Timestamp, answer: Result<BackendResult, TransportError>)
    requires Rules.WellFormed(d)
    ensures Rules.Retry(d, at, answer).Ok? <==>
            (d.status == Scheduled || d.status == Failed) && !IsBlank(d.capabilityId) && Settling(answer)
    ensures Rules.Retry(d, at, answer).Ok? ==>
      var after := Rules.Retry(d, at, answer).value.0;
      Attempted(d, after, answer, at, at) && Narrated(d, after, answer, at, at)
  {
    hide Rules.Dispatch, IsBlank, Attempted, Narrated;
    BeforeTotal(at, at);
    if d.status == Scheduled {
      DispatchOutcome(d, at, answer, at);
    } else if d.status == Failed {
      var scheduled := d.(status := Scheduled,
        history := d.history + [Rules.Transition(d.deliveryId, Failed, Scheduled, "retry_rescheduled", at)]);
      Rules.ReopeningKeeps(d, scheduled.history);
      DispatchOutcome(scheduled, at, answer, at);
      if Rules.Retry(d, at, answer).Ok? {
        ReopenedAttempt(d, scheduled, Rules.Retry(d, at, answer).value.0, answer, at);
      }
    } else {
      NotDispatched(d, at, answer);
    }
  }

  lemma NotDispatched(d: Delivery, at: Timestamp, answer: Result<BackendResult, TransportError>)
    requires d.status != Scheduled
    ensures Rules.Dispatch(d, Scheduled, at, answer, at).Err?
  {
  }

  // ---------------------------------------------------------------- running a plan

  /** The delivery as the run finds it can be dispatched again, should the answer be this one. */
  ghost predicate Redispatchable(d: Delivery, answer: Result<BackendResult, TransportError>) {
    (d.status == Scheduled || d.status == Failed) && !IsBlank(d.capabilityId) && Settling(answer)
  }

  /** A scheduled plan of a stored delivery, with nothing made to fail; one with attempts left needs a delivery that
      can be dispatched and an answer that settles. */
  ghost predicate Runnable(c: Committed, p: RetryPlan, ports: RunPorts, faults: Faults) {
    && p.status == PlanScheduled && p.deliveryId in c.deliveries && ports.auditId.Some? && faults == NO_FAULTS
    && (p.remainingAttempts > 0 ==> Redispatchable(c.deliveries[p.deliveryId], ports.answer))
  }

  /** A stored, scheduled plan is the one the index names, so saving it under its version succeeds. */
  lemma PlanSaves(c: Committed, s: Staged, p: RetryPlan, after: RetryPlan)
    requires Inv(c) && Get(c.plans, p.retryPlanId) == Some(p) && p.status == PlanScheduled && s.plans == map[]
    requires after == p.(remainingAttempts := after.remainingAttempts, status := after.status)
    ensures SavePlan(c, Some(s), after, Some(p.version)).Ok?
  {
    hide Rules.WellFormed;
    StoredPlan(c, p.retryPlanId);
    assert Get(c.activePlans, p.deliveryId) == Some(p.retryPlanId);
  }

  lemma DeliverySaves(c: Committed, s: Staged, d: Delivery, after: Delivery)
    requires Get(c.deliveryVersions, d.deliveryId) == Some(d.version) && after.deliveryId == d.deliveryId
    ensures SaveDelivery(c, Some(s), after, d.version).Ok?
    ensures SaveDelivery(c, Some(s), after, d.version).value.0.plans == s.plans
  {
  }

  lemma RunStages(c: Committed, d: Delivery, after: Delivery, p: RetryPlan, attempted: RetryPlan)
    requires Inv(c) && Get(c.plans, p.retryPlanId) == Some(p) && p.status == PlanScheduled
    requires Get(c.deliveryVersions, d.deliveryId) == Some(d.version) && after.deliveryId == d.deliveryId
    requires attempted == p.(remainingAttempts := attempted.remainingAttempts, status := attempted.status)
    ensures StageRun(c, d, after, p, attempted).Ok?
  {
    hide SaveDelivery, SavePlan, Inv;
    DeliverySaves(c, NOTHING, d, after);
    PlanSaves(c, SaveDelivery(c, Some(NOTHING), after, d.version).value.0, p, attempted);
  }

  lemma AttemptNamed(d: Delivery, answer: Result<BackendResult, TransportError>, at: Timestamp)
    requires Rules.WellFormed(d) && Rules.Retry(d, at, answer).Ok?
    ensures !IsBlank(Rules.Retry(d, at, answer).value.1.attemptId)
  {
    hide Rules.Retry, Rules.WellFormed;
    RetryNames(d, at, answer);
    assert !IsSpace(Rules.AttemptId(d.deliveryId, d.attemptCount + 1)[0]);
  }

  lemma RetryNames(d: Delivery, at: Timestamp, answer: Result<BackendResult, TransportError>)
    requires Rules.WellFormed(d) && Rules.Retry(d, at, answer).Ok?
    ensures Rules.Retry(d, at, answer).value.1.attemptId == Rules.AttemptId(d.deliveryId, d.attemptCount + 1)
  {
    hide Rules.Dispatch;
    if d.status == Failed {
      var scheduled := Rules.Reschedule(d, at).value;
      Rules.ReopeningKeeps(d, scheduled.history);
      Rules.DispatchEffect(scheduled, at, answer, at);
    } else {
      RetryOutcome(d, at, answer);
      Rules.DispatchEffect(d, at, answer, at);
    }
  }

  lemma StageAttemptOutcome(c: Committed, p: RetryPlan, d: Delivery, at: Timestamp, answer: Result<BackendResult, TransportError>)
    requires Inv(c) && Get(c.plans, p.retryPlanId) == Some(p) && Get(c.deliveries, p.deliveryId) == Some(d)
    requires p.remainingAttempts > 0 && p.status == PlanScheduled
    ensures StageAttempt(c, p, d, at, answer).Ok? <==> Redispatchable(d, answer)
    ensures StageAttempt(c, p, d, at, answer).Ok? ==>
      StageAttempt(c, p, d, at, answer).value.1 == p.(remainingAttempts := p.remainingAttempts - 1)
  {
    hide Rules.Retry, Inv, Rules.WellFormed, StageRun, IsBlank;
    StoredDelivery(c, p.deliveryId);
    RetryOutcome(d, at, answer);
    if Redispatchable(d, answer) {
      var (after, attempt) := Rules.Retry(d, at, answer).value;
      AttemptNamed(d, answer, at);
      Rules.RetryKeeps(d, at, answer);
      RetryKeepsId(d, at, answer);
      var attempted := p.(remainingAttempts := p.remainingAttempts - 1);
      RunStages(c, d, after, p, attempted);
    }
  }

  lemma RetryKeepsId(d: Delivery, at: Timestamp, answer: Result<BackendResult, TransportError>)
    requires Rules.WellFormed(d) && Rules.Retry(d, at, answer).Ok?
    ensures Rules.Retry(d, at, answer).value.0.deliveryId == d.deliveryId
  {
    hide Rules.Retry, Rules.WellFormed;
    RetryOutcome(d, at, answer);
  }

  /** The plan is one attempt shorter and its delivery dispatched once more, or the plan is exhausted. */
  ghost predicate RunLeaves(ds: map<Id, Delivery>, dsAfter: map<Id, Delivery>, plans: map<Id, RetryPlan>, plansAfter: map<Id, RetryPlan>,
                            p: RetryPlan, at: Timestamp, ports: RunPorts)
  {
    && p.deliveryId in ds && Writes(plans, plansAfter, p.retryPlanId)
    && if p.remainingAttempts > 0 then
         && plansAfter[p.retryPlanId] == p.(remainingAttempts := p.remainingAttempts - 1, version := p.version + 1)
         && Writes(ds, dsAfter, p.deliveryId)
         && Redispatched(ds[p.deliveryId], dsAfter[p.deliveryId], ports.answer, at, at)
       else
         plansAfter[p.retryPlanId] == p.(status := PlanExhausted, version := p.version + 1) && dsAfter == ds
  }

  /** The delivery has one attempt more, told in its history, and its next version. */
  ghost predicate Redispatched(before: Delivery, after: Delivery, answer: Result<BackendResult, TransportError>,
                               startedAt: Timestamp, finishedAt: Timestamp)
  {
    && Attempted(before, after, answer, startedAt, finishedAt) && Narrated(before, after, answer, startedAt, finishedAt)
    && after.version == before.version + 1
  }

  /** The entry that tells a run. */
  function RunEntry(p: RetryPlan, actor: Actor, trace: Id, at: Timestamp, auditRef: Id): AuditEntry {
    AuditEntry(auditRef, RetryPlanSubject(p.retryPlanId), if p.remainingAttempts > 0 then RetryAttempted else RetryExhausted, actor, at, trace)
  }

  /** What the run leaves in the store, with the one entry that tells it. */
  ghost predicate RunDone(before: Committed, after: Committed, p: RetryPlan, actor: Actor, trace: Id, at: Timestamp, ports: RunPorts) {
    && RunLeaves(before.deliveries, after.deliveries, before.plans, after.plans, p, at, ports)
    && ports.auditId.Some? && after.audits == before.audits + [RunEntry(p, actor, trace, at, ports.auditId.value)]
  }

  lemma SavedAttempt(d: Delivery, after: Delivery, answer: Result<BackendResult, TransportError>, startedAt: Timestamp, finishedAt: Timestamp)
    requires Attempted(d, after, answer, startedAt, finishedAt) && Narrated(d, after, answer, startedAt, finishedAt)
    ensures Redispatched(d, Rules.Saved(d, after), answer, startedAt, finishedAt)
  {
  }

  lemma AttemptLeaves(ds: map<Id, Delivery>, plans: map<Id, RetryPlan>, p: RetryPlan, now: Delivery, attempted: RetryPlan, at: Timestamp,
                      ports: RunPorts)
    requires p.deliveryId in ds && p.remainingAttempts > 0
    requires Redispatched(ds[p.deliveryId], now, ports.answer, at, at)
    requires attempted == p.(remainingAttempts := p.remainingAttempts - 1, version := p.version + 1)
    ensures RunLeaves(ds, ds + map[p.deliveryId := now], plans, plans + map[p.retryPlanId := attempted], p, at, ports)
  {
    hide Redispatched, Writes;
    KeyWritten(plans, map[p.retryPlanId := attempted], p.retryPlanId);
    KeyWritten(ds, map[p.deliveryId := now], p.deliveryId);
  }

  lemma ExhaustLeaves(ds: map<Id, Delivery>, plans: map<Id, RetryPlan>, p: RetryPlan, exhausted: RetryPlan, at: Timestamp, ports: RunPorts)
    requires p.deliveryId in ds && p.remainingAttempts == 0
    requires exhausted == p.(status := PlanExhausted, version := p.version + 1)
    ensures RunLeaves(ds, ds + map[], plans, plans + map[p.retryPlanId := exhausted], p, at, ports)
  {
    hide Redispatched, Writes;
    KeyWritten(plans, map[p.retryPlanId := exhausted], p.retryPlanId);
    NothingWritten(ds, map[]);
  }

  lemma RunCommitted(c: Committed, p: RetryPlan, actor: Actor, trace: Id, at: Timestamp, ports: RunPorts, s: Staged)
    requires RunLeaves(c.deliveries, c.deliveries + s.deliveries, c.plans, c.plans + s.plans, p, at, ports)
    requires ports.auditId.Some? && s.audits == [RunEntry(p, actor, trace, at, ports.auditId.value)]
    ensures RunDone(c, Overlay(c, s), p, actor, trace, at, ports)
  {
    hide Overlay, RunLeaves;
    LogTables(c, s);
    DeliveriesAfter(c, Commits(s));
    PlansAfter(c, Commits(s));
  }

  lemma AttemptEnds(c: Committed, p: RetryPlan, d: Delivery, actor: Actor, trace: Id, at: Timestamp, ports: RunPorts, faults: Faults)
    requires Inv(c) && Get(c.plans, p.retryPlanId) == Some(p) && Get(c.deliveries, p.deliveryId) == Some(d)
    requires p.remainingAttempts > 0 && p.status == PlanScheduled
    ensures var body := AttemptBody(c, p, d, actor, trace, at, ports, faults);
      && (body.Ok? <==> Redispatchable(d, ports.answer) && ports.auditId.Some? && faults.append.None?)
      && (body.Ok? ==>
            && RunDone(c, Overlay(c, body.value.0), p, actor, trace, at, ports)
            && body.value.1 == Ok(Retried(p.(remainingAttempts := p.remainingAttempts - 1))))
  {
    hide StageAttempt, Overlay, Rules.Retry, Inv, Rules.WellFormed, RunDone, RunLeaves, Attempted, Narrated, Redispatchable, Redispatched;
    StageAttemptOutcome(c, p, d, at, ports.answer);
    if AttemptBody(c, p, d, actor, trace, at, ports, faults).Ok? {
      StoredPlan(c, p.retryPlanId);
      StoredDelivery(c, p.deliveryId);
      RetryOutcome(d, at, ports.answer);
      var after, attempted, entry := AttemptShape(c, p, d, actor, trace, at, ports, faults);
      SavedAttempt(d, after, ports.answer, at, at);
      AttemptLeaves(c.deliveries, c.plans, p, Rules.Saved(d, after), attempted.(version := p.version + 1), at, ports);
      RunCommitted(c, p, actor, trace, at, ports, AttemptBody(c, p, d, actor, trace, at, ports, faults).value.0);
    }
  }

  lemma ExhaustEnds(c: Committed, p: RetryPlan, actor: Actor, trace: Id, at: Timestamp, ports: RunPorts, faults: Faults)
    requires Inv(c) && Get(c.plans, p.retryPlanId) == Some(p) && p.deliveryId in c.deliveries
    requires p.remainingAttempts == 0 && p.status == PlanScheduled
    ensures var body := ExhaustBody(c, p, actor, trace, at, ports.auditId, faults);
      && (body.Ok? <==> ports.auditId.Some? && faults.append.None?)
      && (body.Ok? ==>
            RunDone(c, Overlay(c, body.value.0), p, actor, trace, at, ports) && body.value.1 == Ok(Exhausted(p.(status := PlanExhausted))))
  {
    hide SavePlan, Overlay, Inv, RunDone;
    PlanSaves(c, NOTHING, p, p.(status := PlanExhausted));
    if ExhaustBody(c, p, actor, trace, at, ports.auditId, faults).Ok? {
      StoredPlan(c, p.retryPlanId);
      var after, entry := ExhaustShape(c, p, actor, trace, at, ports.auditId, faults);
      ExhaustLeaves(c.deliveries, c.plans, p, after.(version := p.version + 1), at, ports);
      RunCommitted(c, p, actor, trace, at, ports, ExhaustBody(c, p, actor, trace, at, ports.auditId, faults).value.0);
    }
  }

  /** Running a stored plan commits exactly when the plan is runnable. With attempts left it then loses one, and its
      delivery gains the attempt the backend's answer describes: delivered if and only if the backend accepted,
      else failed. An accepting answer that reports a failure commits nothing. Without attempts left the plan is
      exhausted and the backend's answer has no effect. */
  lemma RunDecided(c: Committed, p: RetryPlan, actor: Actor, trace: Id, at: Timestamp, ports: RunPorts, faults: Faults)
    requires Inv(c) && Get(c.plans, p.retryPlanId) == Some(p)
    ensures var step := RunPlan(c, p, actor, trace, at, ports, faults);
      var after := After(c, step.exit);
      if Runnable(c, p, ports, faults) then
        && RunDone(c, after, p, actor, trace, at, ports)
        && step.outcome == Ok(if p.remainingAttempts > 0 then Retried(p.(remainingAttempts := p.remainingAttempts - 1))
                              else Exhausted(p.(status := PlanExhausted)))
      else after == c && step.outcome.Err?
  {
    hide Overlay, Inv, RunDone, AttemptBody, ExhaustBody, Redispatchable;
    if p.deliveryId in c.deliveries {
      if p.status == PlanScheduled && p.remainingAttempts > 0 {
        AttemptEnds(c, p, c.deliveries[p.deliveryId], actor, trace, at, ports, faults);
      } else if p.status == PlanScheduled {
        ExhaustEnds(c, p, actor, trace, at, ports, faults);
      } else {
        NotScheduled(c, p, actor, trace, at, ports.auditId, faults);
      }
    }
  }

  lemma NotScheduled(c: Committed, p: RetryPlan, actor: Actor, trace: Id, at: Timestamp, auditId: Option<Id>, faults: Faults)
    requires p.status != PlanScheduled
    ensures ExhaustBody(c, p, actor, trace, at, auditId, faults).Err?
  {
  }

  // ---------------------------------------------------------------- a first dispatch

  /** A stored, scheduled delivery that names a capability, a clock that does not run backwards, an answer that settles,
      and nothing made to fail. */
  ghost predicate Progressable(c: Committed, id: Id, startedAt: Timestamp, answer: Result<BackendResult, TransportError>,
                               finishedAt: Timestamp, faults: Faults)
  {
    && id in c.deliveries && c.deliveries[id].status == Scheduled && !IsBlank(c.deliveries[id].capabilityId)
    && AtMost(startedAt, finishedAt) && Settling(answer) && faults == NO_FAULTS
  }

  /** Two entries are appended: the start of the dispatch, and its end as answered. */
  ghost predicate DispatchLogged(before: seq<AuditEntry>, after: seq<AuditEntry>, id: Id, answer: Result<BackendResult, TransportError>,
                                 actor: Actor, trace: Id, startedAt: Timestamp, finishedAt: Timestamp)
  {
    && |after| == |before| + 2 && before <= after
    && var started, ended := after[|before|], after[|before| + 1];
       && started == AuditEntry(started.auditRef, DeliverySubject(id), DeliveryDispatchStarted, actor, startedAt, trace)
       && ended == AuditEntry(ended.auditRef, DeliverySubject(id), ended.action, actor, finishedAt, trace)
       && (ended.action == DeliveryDelivered <==> answer.Ok?) && (ended.action.DeliveryFailed? <==> answer.Err?)
  }

  lemma ProgressEnds(c: Committed, d: Delivery, id: Id, actor: Actor, trace: Id, startedAt: Timestamp,
                     answer: Result<BackendResult, TransportError>, finishedAt: Timestamp, faults: Faults)
    requires Inv(c) && Get(c.deliveries, id) == Some(d)
    ensures var body := DispatchBody(c, d, actor, trace, startedAt, answer, finishedAt, faults);
      && (body.Ok? <==> d.status == Scheduled && !IsBlank(d.capabilityId) && AtMost(startedAt, finishedAt) && Settling(answer)
                        && faults.append.None?)
      && (body.Ok? ==>
            && body.value.0.deliveries.Keys == {id}
            && Redispatched(d, body.value.0.deliveries[id], answer, startedAt, finishedAt)
            && DispatchLogged([], body.value.0.audits, id, answer, actor, trace, startedAt, finishedAt)
            && body.value.1.Ok? && body.value.1.value.deliveryId == id && body.value.1.value.finalStatus == Target(answer)
            && (body.value.1.value.retryable <==>
                  answer.Err? && (answer.error == BackendUnavailable || answer.error == DispatchTimeout))
            && (body.value.1.value.manualAction <==> answer.Err? && answer.error == PrivateBodyViolation))
  {
    hide Rules.Dispatch, SaveDelivery, Inv, Rules.WellFormed, IsBlank, Narrated, EndedAs, Redispatched;
    StoredDelivery(c, id);
    SoundAttempts(d);
    if d.status == Scheduled {
      DispatchOutcome(d, startedAt, answer, finishedAt);
      if Rules.Dispatch(d, Scheduled, startedAt, answer, finishedAt).Ok? {
        var after := Rules.Dispatch(d, Scheduled, startedAt, answer, finishedAt).value.0;
        DeliverySaves(c, NOTHING, d, after);
        DeliverySaved(c, NOTHING, d, after);
        SavedAttempt(d, after, answer, startedAt, finishedAt);
      }
    } else {
      OnlyScheduledDispatches(d, startedAt, answer, finishedAt);
    }
  }

  lemma SoundAttempts(d: Delivery)
    requires Rules.WellFormed(d)
    ensures Rules.AttemptsOk(d)
  {
  }

  lemma OnlyScheduledDispatches(d: Delivery, startedAt: Timestamp, answer: Result<BackendResult, TransportError>, finishedAt: Timestamp)
    requires d.status != Scheduled
    ensures Rules.Dispatch(d, d.status, startedAt, answer, finishedAt).Err?
  {
  }

  lemma DispatchCommitted(c: Committed, s: Staged, id: Id)
    requires s.deliveries.Keys == {id}
    ensures Writes(c.deliveries, Overlay(c, s).deliveries, id) && Overlay(c, s).deliveries[id] == s.deliveries[id]
  {
    hide Overlay;
    DeliveriesAfter(c, Commits(s));
    KeyWritten(c.deliveries, s.deliveries, id);
  }

  lemma DispatchEntries(c: Committed, s: Staged, id: Id, answer: Result<BackendResult, TransportError>, actor: Actor, trace: Id,
                        startedAt: Timestamp, finishedAt: Timestamp)
    requires DispatchLogged([], s.audits, id, answer, actor, trace, startedAt, finishedAt)
    ensures DispatchLogged(c.audits, Overlay(c, s).audits, id, answer, actor, trace, startedAt, finishedAt)
  {
    hide Overlay;
    LogTables(c, s);
  }

  /** Progressing a delivery commits exactly when it is progressable. The delivery then gains its attempt, delivered if
      and only if the backend accepted and failed otherwise; two entries tell it, and the caller learns whether
      to try again or to step in. */
  lemma ProgressDecided(c: Committed, id: Id, actor: Actor, trace: Id, startedAt: Timestamp,
                        answer: Result<BackendResult, TransportError>, finishedAt: Timestamp, faults: Faults)
    requires Inv(c)
    ensures var step := ProgressOne(c, id, actor, trace, startedAt, answer, finishedAt, faults);
      var after := After(c, step.exit);
      if Progressable(c, id, startedAt, answer, finishedAt, faults) then
        && Writes(c.deliveries, after.deliveries, id)
        && Redispatched(c.deliveries[id], after.deliveries[id], answer, startedAt, finishedAt)
        && DispatchLogged(c.audits, after.audits, id, answer, actor, trace, startedAt, finishedAt)
        && step.outcome.Ok? && step.outcome.value.deliveryId == id && step.outcome.value.finalStatus == Target(answer)
        && (step.outcome.value.retryable <==>
              answer.Err? && (answer.error == BackendUnavailable || answer.error == DispatchTimeout))
        && (step.outcome.value.manualAction <==> answer.Err? && answer.error == PrivateBodyViolation)
      else after == c && step.outcome.Err?
  {
    hide Overlay, Inv, DispatchBody, Redispatched, IsBlank, Writes, DispatchLogged;
    if id in c.deliveries {
      var d := c.deliveries[id];
      ProgressEnds(c, d, id, actor, trace, startedAt, answer, finishedAt, faults);
      var body := DispatchBody(c, d, actor, trace, startedAt, answer, finishedAt, faults);
      if body.Ok? {
        DispatchCommitted(c, body.value.0, id);
        DispatchEntries(c, body.value.0, id, answer, actor, trace, startedAt, finishedAt);
      }
    }
  }
}
