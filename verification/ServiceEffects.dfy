/** Every transaction a service commits is lawful. */
module ServiceEffects {
  import opened Common
  import opened Records
  import opened StoreModel
  import opened Steps
  import opened Indexes
  import opened Budgets
  import opened Invariants
  import opened RecoveryRules
  import opened RecoverySteps
  import opened DeliverySteps
  import opened FeedbackRules
  import opened FeedbackSteps
  import opened IdempotencySteps
  import opened Digest
  import opened PublicationRules
  import opened PublicationSteps
  import Rules = DeliveryRules

  // Tables a transaction does not touch are lawful.

  lemma QuietPlans(plans: map<Id, RetryPlan>, active: map<Id, Id>)
    ensures PlansSound(plans, active, map[]) && PlansLawful(plans, map[])
  {
  }

  lemma QuietDeadLetters(entries: map<Id, DeadLetterEntry>, active: map<Id, Id>, ds: map<Id, Delivery>)
    ensures DeadLettersSound(entries, active, map[]) && DeadLettersLawful(map[], ds, map[])
  {
  }

  lemma QuietFeedback(feedbacks: map<Id, Feedback>, sources: map<(Id, Id), Id>)
    ensures FeedbackSound(feedbacks, sources, map[], map[])
  {
  }

  lemma QuietReplays(c: Committed)
    ensures ReplaysSound(c.replays, c.readyReplays, map[]) && ReplaysLawful(c, map[])
  {
  }

  lemma QuietPublications(c: Committed, s: Staged)
    requires s.publications == map[] && s.materials == map[]
    requires AnchorsOk(s.anchors, s.publications, s.feedbacks) && forall k | k in s.anchors :: k !in c.anchors
    ensures AnchorsLawful(c, s) && Logged(s)
  {
  }

  // A staged set is lawful when the few tables it touches are.

  /** Without plans or new attempts nothing is owed. */
  lemma StillBalanced(c: Committed, s: Staged)
    requires s.plans == map[]
    requires forall id | id in s.deliveries && id in c.deliveries :: |s.deliveries[id].attempts| == |c.deliveries[id].attempts|
    ensures Balanced(c, s, None)
  {
    assert c.plans + s.plans == c.plans;
  }

  lemma DeliveryAndPlanLawful(c: Committed, s: Staged, credit: Option<Id>)
    requires Balanced(c, s, credit)
    requires s.deadLetters == map[] && s.failureMaterials == map[] && s.replays == map[]
    requires s.feedbacks == map[] && s.feedbackSources == map[]
    requires s.publications == map[] && s.materials == map[] && s.anchors == map[]
    requires PlansSound(c.plans, c.activePlans, s.plans)
    requires DeliveriesLawful(c.deliveries, s.deliveries) && PlansLawful(c.plans, s.plans)
    requires Told(c.plans, s)
    ensures Lawful(c, s, credit)
  {
    hide Told;
    QuietDeadLetters(c.deadLetters, c.activeDeadLetters, c.deliveries + s.deliveries);
    QuietFeedback(c.feedbacks, c.feedbackSources);
    QuietReplays(c);
    QuietPublications(c, s);
  }

  lemma DeadLetterLawful(c: Committed, s: Staged)
    requires s.plans == map[] && s.replays == map[] && s.feedbacks == map[] && s.feedbackSources == map[]
    requires s.publications == map[] && s.materials == map[] && s.anchors == map[]
    requires DeadLettersSound(c.deadLetters, c.activeDeadLetters, s.deadLetters)
    requires DeliveriesLawful(c.deliveries, s.deliveries)
    requires DeadLettersLawful(s.deadLetters, c.deliveries + s.deliveries, s.failureMaterials)
    requires Told(c.plans, s)
    requires forall id | id in s.deliveries && id in c.deliveries :: |s.deliveries[id].attempts| == |c.deliveries[id].attempts|
    ensures Lawful(c, s, None)
  {
    hide Told;
    StillBalanced(c, s);
    QuietPlans(c.plans, c.activePlans);
    QuietFeedback(c.feedbacks, c.feedbackSources);
    QuietReplays(c);
    QuietPublications(c, s);
  }

  lemma ReplayLawful(c: Committed, s: Staged)
    requires s.deliveries == map[] && s.plans == map[] && s.deadLetters == map[] && s.failureMaterials == map[]
    requires s.feedbacks == map[] && s.feedbackSources == map[]
    requires s.publications == map[] && s.materials == map[] && s.anchors == map[]
    requires ReplaysSound(c.replays, c.readyReplays, s.replays) && ReplaysLawful(c, s.replays)
    requires Told(c.plans, s)
    ensures Lawful(c, s, None)
  {
    hide Told;
    StillBalanced(c, s);
    QuietPlans(c.plans, c.activePlans);
    QuietDeadLetters(c.deadLetters, c.activeDeadLetters, c.deliveries + s.deliveries);
    QuietFeedback(c.feedbacks, c.feedbackSources);
    QuietPublications(c, s);
  }

  lemma FeedbackLawful(c: Committed, s: Staged)
    requires s.plans == map[] && s.deadLetters == map[] && s.failureMaterials == map[] && s.replays == map[]
    requires s.publications == map[] && s.materials == map[]
    requires FeedbackSound(c.feedbacks, c.feedbackSources, s.feedbacks, s.feedbackSources)
    requires DeliveriesLawful(c.deliveries, s.deliveries)
    requires AnchorsOk(s.anchors, s.publications, s.feedbacks) && forall k | k in s.anchors :: k !in c.anchors
    requires Told(c.plans, s)
    requires forall id | id in s.deliveries && id in c.deliveries :: |s.deliveries[id].attempts| == |c.deliveries[id].attempts|
    ensures Lawful(c, s, None)
  {
    hide Told;
    StillBalanced(c, s);
    QuietPlans(c.plans, c.activePlans);
    QuietDeadLetters(c.deadLetters, c.activeDeadLetters, c.deliveries + s.deliveries);
    QuietReplays(c);
    QuietPublications(c, s);
  }

  lemma PublicationLawful(c: Committed, s: Staged)
    requires s.deliveries == map[] && s.plans == map[] && s.deadLetters == map[] && s.failureMaterials == map[]
    requires s.replays == map[] && s.feedbacks == map[] && s.feedbackSources == map[]
    requires AnchorsLawful(c, s) && Logged(s)
    ensures Lawful(c, s, None)
  {
    StillBalanced(c, s);
    QuietPlans(c.plans, c.activePlans);
    QuietDeadLetters(c.deadLetters, c.activeDeadLetters, c.deliveries + s.deliveries);
    QuietFeedback(c.feedbacks, c.feedbackSources);
    QuietReplays(c);
  }

  lemma LogLawful(c: Committed, s: Staged)
    requires s == NOTHING.(conflicts := s.conflicts, audits := s.audits)
    ensures Lawful(c, s, None)
  {
    StillBalanced(c, s);
    QuietPlans(c.plans, c.activePlans);
    DeliveryAndPlanLawful(c, s, None);
  }

  // What each call logs accounts for what it writes.

  lemma PlanTold(plans: map<Id, RetryPlan>, s: Staged, p: RetryPlan, e: AuditEntry)
    requires s.plans == map[p.retryPlanId := p] && s.audits == [e] && s.deadLetters == map[] && s.replays == map[] && s.feedbacks == map[]
    requires e.subject == RetryPlanSubject(p.retryPlanId) && e.action == PlanAction(plans, p.retryPlanId, p)
    requires forall id | id in s.deliveries :: id == p.deliveryId
    ensures Told(plans, s)
  {
    assert e in s.audits && p.retryPlanId in s.plans;
  }

  lemma DispatchIsTold(plans: map<Id, RetryPlan>, s: Staged, d: Delivery, started: AuditEntry, settled: AuditEntry)
    requires s.deliveries == map[d.deliveryId := d] && s.audits == [started, settled]
    requires s.plans == map[] && s.deadLetters == map[] && s.replays == map[] && s.feedbacks == map[]
    requires started.subject == settled.subject == DeliverySubject(d.deliveryId) && started.action == DeliveryDispatchStarted
    requires (d.status == Delivered && settled.action == DeliveryDelivered) || (d.status == Failed && settled.action.DeliveryFailed?)
    ensures Told(plans, s)
  {
    assert started in s.audits && settled in s.audits;
    if d.status == Failed {
      assert LoggedAs(s.audits, DeliverySubject(d.deliveryId), DeliveryFailed(settled.action.failure));
    }
  }

  lemma DeadLetterTold(plans: map<Id, RetryPlan>, s: Staged, x: DeadLetterEntry, dead: Delivery, e: AuditEntry)
    requires s.deadLetters == map[x.deadLetterId := x] && s.deliveries == map[x.deliveryId := dead] && dead.status == DeadLettered
    requires s.plans == map[] && s.replays == map[] && s.feedbacks == map[]
    requires s.audits == [e] && e.subject == DeadLetterSubject(x.deadLetterId) && e.action == DeadLetterCreated
    ensures Told(plans, s)
  {
    assert e in s.audits && x.deadLetterId in s.deadLetters;
  }

  lemma ReplayTold(plans: map<Id, RetryPlan>, s: Staged, r: ReplayPreparation, e: AuditEntry)
    requires s.replays == map[r.replayId := r] && s.deliveries == map[] && s.plans == map[] && s.deadLetters == map[] && s.feedbacks == map[]
    requires s.audits == [e] && e.subject == ReplaySubject(r.replayId) && e.action == ReplayPreparationReady
    ensures Told(plans, s)
  {
    assert e in s.audits;
  }

  lemma FeedbackTold(plans: map<Id, RetryPlan>, s: Staged, f: Feedback, after: Delivery, e: AuditEntry)
    requires s.feedbacks == map[f.feedbackId := f] && s.deliveries == map[f.deliveryId := after]
    requires s.plans == map[] && s.deadLetters == map[] && s.replays == map[]
    requires s.audits == [e] && e.subject == DeliverySubject(f.deliveryId) && e.action == FeedbackRecorded(f.status)
    ensures Told(plans, s)
  {
    assert e in s.audits && f.feedbackId in s.feedbacks;
  }

  // ---------------------------------------------------------------- running a plan

  /** A staged plan save under the plan's own version. */
  lemma PlanSaved(c: Committed, s: Staged, p: RetryPlan, after: RetryPlan)
    requires Get(c.planVersions, p.retryPlanId) == Some(p.version) && after.retryPlanId == p.retryPlanId
    requires SavePlan(c, Some(s), after, Some(p.version)).Ok?
    ensures SavePlan(c, Some(s), after, Some(p.version)).value.0 ==
            s.(plans := s.plans[p.retryPlanId := after.(version := p.version + 1)])
    ensures Unclaimed(c.activePlans, p.retryPlanId, after)
  {
  }

  lemma DeliverySaved(c: Committed, s: Staged, d: Delivery, after: Delivery)
    requires after.deliveryId == d.deliveryId && SaveDelivery(c, Some(s), after, d.version).Ok?
    ensures SaveDelivery(c, Some(s), after, d.version).value.0 ==
            s.(deliveries := s.deliveries[d.deliveryId := Rules.Saved(d, after)])
  {
  }

  /** One plan in its next version. */
  lemma OnePlanLawful(plans: map<Id, RetryPlan>, active: map<Id, Id>, versions: map<Id, nat>, p: RetryPlan, after: RetryPlan)
    requires PlansOk(plans, versions) && Get(plans, p.retryPlanId) == Some(p)
    requires after == p.(remainingAttempts := after.remainingAttempts, status := after.status)
    requires RunsLeft(after) < RunsLeft(p) && after.remainingAttempts <= p.remainingAttempts
    requires Unclaimed(active, p.retryPlanId, after)
    ensures var staged := map[p.retryPlanId := after.(version := p.version + 1)];
      PlansSound(plans, active, staged) && PlansLawful(plans, staged)
  {
  }

  lemma OneDeliveryLawful(ds: map<Id, Delivery>, d: Delivery, after: Delivery)
    requires Get(ds, d.deliveryId) == Some(d) && after.deliveryId == d.deliveryId
    requires Rules.WellFormed(after) && Rules.Evolves(d, after)
    ensures DeliveriesLawful(ds, map[d.deliveryId := after])
  {
  }

  lemma ExhaustShape(c: Committed, p: RetryPlan, actor: Actor, trace: Id, at: Timestamp, auditId: Option<Id>, faults: Faults)
    returns (after: RetryPlan, entry: AuditEntry)
    requires Get(c.planVersions, p.retryPlanId) == Some(p.version)
    requires ExhaustBody(c, p, actor, trace, at, auditId, faults).Ok?
    ensures MarkExhausted(p) == Ok(after) && Unclaimed(c.activePlans, p.retryPlanId, after)
    ensures auditId.Some? && entry == AuditEntry(auditId.value, RetryPlanSubject(p.retryPlanId), RetryExhausted, actor, at, trace)
    ensures ExhaustBody(c, p, actor, trace, at, auditId, faults).value.0 ==
            NOTHING.(plans := map[p.retryPlanId := after.(version := p.version + 1)], audits := [entry])
  {
    after := MarkExhausted(p).value;
    PlanSaved(c, NOTHING, p, after);
    entry := Unsigned(RetryPlanSubject(p.retryPlanId), RetryExhausted, actor, at, trace).(auditRef := auditId.value);
  }

  lemma RunShape(c: Committed, d: Delivery, after: Delivery, p: RetryPlan, attempted: RetryPlan)
    requires Get(c.planVersions, p.retryPlanId) == Some(p.version)
    requires after.deliveryId == d.deliveryId && attempted.retryPlanId == p.retryPlanId
    requires StageRun(c, d, after, p, attempted).Ok?
    ensures StageRun(c, d, after, p, attempted).value ==
            NOTHING.(deliveries := map[d.deliveryId := Rules.Saved(d, after)],
                     plans := map[p.retryPlanId := attempted.(version := p.version + 1)])
    ensures Unclaimed(c.activePlans, p.retryPlanId, attempted)
  {
    DeliverySaved(c, NOTHING, d, after);
    PlanSaved(c, SaveDelivery(c, Some(NOTHING), after, d.version).value.0, p, attempted);
  }

  lemma StageAttemptShape(c: Committed, p: RetryPlan, d: Delivery, at: Timestamp, answer: Result<BackendResult, TransportError>)
    returns (after: Delivery, attempted: RetryPlan)
    requires Get(c.planVersions, p.retryPlanId) == Some(p.version)
    requires Rules.WellFormed(d) && StageAttempt(c, p, d, at, answer).Ok?
    ensures Rules.Retry(d, at, answer).Ok? && after == Rules.Retry(d, at, answer).value.0
    ensures p.remainingAttempts > 0 && attempted == p.(remainingAttempts := p.remainingAttempts - 1)
    ensures Unclaimed(c.activePlans, p.retryPlanId, attempted)
    ensures StageAttempt(c, p, d, at, answer).value.0 ==
            NOTHING.(deliveries := map[d.deliveryId := Rules.Saved(d, after)],
                     plans := map[p.retryPlanId := attempted.(version := p.version + 1)])
  {
    after := Rules.Retry(d, at, answer).value.0;
    Rules.RetryKeeps(d, at, answer);
    attempted := MarkAttempted(p, Rules.Retry(d, at, answer).value.1.attemptId).value;
    RunShape(c, d, after, p, attempted);
  }

  lemma AttemptShape(c: Committed, p: RetryPlan, d: Delivery, actor: Actor, trace: Id, at: Timestamp, ports: RunPorts,
                     faults: Faults)
    returns (after: Delivery, attempted: RetryPlan, entry: AuditEntry)
    requires Get(c.planVersions, p.retryPlanId) == Some(p.version)
    requires Rules.WellFormed(d) && AttemptBody(c, p, d, actor, trace, at, ports, faults).Ok?
    ensures Rules.Retry(d, at, ports.answer).Ok? && after == Rules.Retry(d, at, ports.answer).value.0
    ensures p.remainingAttempts > 0 && attempted == p.(remainingAttempts := p.remainingAttempts - 1)
    ensures Unclaimed(c.activePlans, p.retryPlanId, attempted)
    ensures ports.auditId.Some?
    ensures entry == AuditEntry(ports.auditId.value, RetryPlanSubject(p.retryPlanId), RetryAttempted, actor, at, trace)
    ensures AttemptBody(c, p, d, actor, trace, at, ports, faults).value.0 ==
            NOTHING.(deliveries := map[d.deliveryId := Rules.Saved(d, after)],
                     plans := map[p.retryPlanId := attempted.(version := p.version + 1)], audits := [entry])
  {
    after, attempted := StageAttemptShape(c, p, d, at, ports.answer);
    entry := Unsigned(RetryPlanSubject(p.retryPlanId), RetryAttempted, actor, at, trace).(auditRef := ports.auditId.value);
  }

  /** A plan that pays for one attempt of its delivery. */
  lemma AttemptBalanced(c: Committed, d: Delivery, after: Delivery, p: RetryPlan, attempted: RetryPlan, s: Staged)
    requires Get(c.plans, p.retryPlanId) == Some(p) && Get(c.deliveries, d.deliveryId) == Some(d) && d.deliveryId == p.deliveryId
    requires |after.attempts| == |d.attempts| + 1 && p.remainingAttempts > 0
    requires attempted == p.(remainingAttempts := p.remainingAttempts - 1, version := attempted.version)
    requires s.deliveries == map[d.deliveryId := after] && s.plans == map[p.retryPlanId := attempted]
    ensures Balanced(c, s, None)
  {
    forall id | id in c.deliveries ensures BalancedFor(c, s, None, id) {
      SpentWrite(c.plans, p.retryPlanId, attempted, id);
    }
  }

  /** A plan written without spending anything. */
  lemma PlanBalanced(c: Committed, p: RetryPlan, s: Staged)
    requires s.deliveries == map[] && s.plans == map[p.retryPlanId := p]
    requires p.retryPlanId in c.plans ==>
      && c.plans[p.retryPlanId].deliveryId == p.deliveryId && c.plans[p.retryPlanId].maxAttempts == p.maxAttempts
      && c.plans[p.retryPlanId].remainingAttempts == p.remainingAttempts
    requires p.retryPlanId !in c.plans ==> p.remainingAttempts == p.maxAttempts
    ensures Balanced(c, s, None)
  {
    forall id | id in c.deliveries ensures BalancedFor(c, s, None, id) {
      SpentWrite(c.plans, p.retryPlanId, p, id);
    }
  }

  lemma AttemptLawful(c: Committed, p: RetryPlan, d: Delivery, actor: Actor, trace: Id, at: Timestamp, ports: RunPorts,
                      faults: Faults)
    requires PlansOk(c.plans, c.planVersions) && Get(c.plans, p.retryPlanId) == Some(p)
    requires Get(c.deliveries, d.deliveryId) == Some(d) && d.deliveryId == p.deliveryId && Rules.WellFormed(d)
    requires AttemptBody(c, p, d, actor, trace, at, ports, faults).Ok?
    ensures Lawful(c, AttemptBody(c, p, d, actor, trace, at, ports, faults).value.0, None)
  {
    hide Rules.WellFormed, Rules.Evolves, Rules.Retry, Inv;
    var after, attempted, entry := AttemptShape(c, p, d, actor, trace, at, ports, faults);
    Rules.RetryKeeps(d, at, ports.answer);
    OneDeliveryLawful(c.deliveries, d, Rules.Saved(d, after));
    OnePlanLawful(c.plans, c.activePlans, c.planVersions, p, attempted);
    var s := AttemptBody(c, p, d, actor, trace, at, ports, faults).value.0;
    AttemptBalanced(c, d, Rules.Saved(d, after), p, attempted.(version := p.version + 1), s);
    PlanTold(c.plans, s, attempted.(version := p.version + 1), entry);
    DeliveryAndPlanLawful(c, s, None);
  }

  lemma ExhaustLawful(c: Committed, p: RetryPlan, actor: Actor, trace: Id, at: Timestamp, auditId: Option<Id>, faults: Faults)
    requires PlansOk(c.plans, c.planVersions) && Get(c.plans, p.retryPlanId) == Some(p)
    requires ExhaustBody(c, p, actor, trace, at, auditId, faults).Ok?
    ensures Lawful(c, ExhaustBody(c, p, actor, trace, at, auditId, faults).value.0, None)
  {
    var after, entry := ExhaustShape(c, p, actor, trace, at, auditId, faults);
    OnePlanLawful(c.plans, c.activePlans, c.planVersions, p, after);
    var s := ExhaustBody(c, p, actor, trace, at, auditId, faults).value.0;
    PlanBalanced(c, after.(version := p.version + 1), s);
    PlanTold(c.plans, s, after.(version := p.version + 1), entry);
    DeliveryAndPlanLawful(c, s, None);
  }

  lemma RunPlanLawful(c: Committed, p: RetryPlan, actor: Actor, trace: Id, at: Timestamp, ports: RunPorts, faults: Faults)
    requires Inv(c) && Get(c.plans, p.retryPlanId) == Some(p)
    requires RunPlanBody(c, p, actor, trace, at, ports, faults).Ok?
    ensures Lawful(c, RunPlanBody(c, p, actor, trace, at, ports, faults).value.0, None)
  {
    if HasRemaining(p) {
      AttemptLawful(c, p, c.deliveries[p.deliveryId], actor, trace, at, ports, faults);
    } else {
      ExhaustLawful(c, p, actor, trace, at, ports.auditId, faults);
    }
  }

  // ---------------------------------------------------------------- requesting a retry

  lemma NewPlanLawful(plans: map<Id, RetryPlan>, active: map<Id, Id>, versions: map<Id, nat>, p: RetryPlan)
    requires PlansOk(plans, versions) && Number(Get(versions, p.retryPlanId)) == 0
    requires p.remainingAttempts == p.maxAttempts && Unclaimed(active, p.retryPlanId, p)
    ensures p.retryPlanId !in plans
    ensures var staged := map[p.retryPlanId := p.(version := 1)]; PlansSound(plans, active, staged) && PlansLawful(plans, staged)
  {
  }

  lemma ScheduleShape(c: Committed, d: Delivery, m: FailureMaterial, r: RetryRequest, actor: Actor, trace: Id, ports: Ports,
                      faults: Faults) returns (plan: RetryPlan, entry: AuditEntry)
    requires SchedulePlanBody(c, d, m, r, actor, trace, ports, faults).Ok?
    ensures CreatePlan(d, m.failureReason, r.policyRef, r.maxAttempts, ports.now) == Ok(plan)
    ensures Number(Get(c.planVersions, plan.retryPlanId)) == 0 && Unclaimed(c.activePlans, plan.retryPlanId, plan)
    ensures entry.subject == RetryPlanSubject(plan.retryPlanId) && entry.action == RetryRequested
    ensures SchedulePlanBody(c, d, m, r, actor, trace, ports, faults).value.0 ==
            NOTHING.(plans := map[plan.retryPlanId := plan.(version := 1)], audits := [entry])
  {
    plan := CreatePlan(d, m.failureReason, r.policyRef, r.maxAttempts, ports.now).value;
    entry := Unsigned(RetryPlanSubject(plan.retryPlanId), RetryRequested, actor, ports.now, trace).(auditRef := ports.auditId.value);
  }

  lemma ScheduleLawful(c: Committed, d: Delivery, m: FailureMaterial, r: RetryRequest, actor: Actor, trace: Id, ports: Ports,
                       faults: Faults)
    requires PlansOk(c.plans, c.planVersions) && SchedulePlanBody(c, d, m, r, actor, trace, ports, faults).Ok?
    ensures Lawful(c, SchedulePlanBody(c, d, m, r, actor, trace, ports, faults).value.0, None)
  {
    var plan, entry := ScheduleShape(c, d, m, r, actor, trace, ports, faults);
    NewPlanLawful(c.plans, c.activePlans, c.planVersions, plan);
    var s := SchedulePlanBody(c, d, m, r, actor, trace, ports, faults).value.0;
    PlanBalanced(c, plan.(version := 1), s);
    PlanTold(c.plans, s, plan.(version := 1), entry);
    DeliveryAndPlanLawful(c, s, None);
  }

  lemma RequestLawful(c: Committed, r: RetryRequest, actor: Actor, trace: Id, ports: Ports, faults: Faults)
    requires Inv(c) && RequestBody(c, r, actor, trace, ports, faults).Ok?
    ensures Lawful(c, RequestBody(c, r, actor, trace, ports, faults).value.0, None)
  {
    ScheduleLawful(c, c.deliveries[r.deliveryId], c.failureMaterials[r.materialRef], r, actor, trace, ports, faults);
  }

  // ---------------------------------------------------------------- moving to dead letter

  lemma MoveShape(c: Committed, d: Delivery, m: FailureMaterial, entry: DeadLetterEntry, dead: Delivery)
    requires dead.deliveryId == d.deliveryId && StageMove(c, d, m, entry, dead).Ok?
    ensures entry.deadLetterId !in c.deadLetters && entry.deliveryId !in c.activeDeadLetters
    ensures m.failureMaterialId in c.failureMaterialVersions
    ensures StageMove(c, d, m, entry, dead).value ==
            NOTHING.(deliveries := map[d.deliveryId := Rules.Saved(d, dead)],
                     deadLetters := map[entry.deadLetterId := entry.(version := 1)],
                     failureMaterials := map[m.failureMaterialId :=
                       m.(deadLetterRef := Some(entry.deadLetterId), version := c.failureMaterialVersions[m.failureMaterialId] + 1)])
  {
  }

  /** The new entry names the failure recorded just before the delivery was dead-lettered. */
  lemma NewEntryOk(ds: map<Id, Delivery>, d: Delivery, m: FailureMaterial, entry: DeadLetterEntry, at: Timestamp)
    requires Get(ds, d.deliveryId) == Some(d) && Rules.WellFormed(d) && LastFailed(d.history)
    requires DeadLetterFrom(d, m) == Ok(entry) && Rules.DeadLetterFlow(d, entry.deadLetterId, at).Ok?
    ensures var dead := Rules.Saved(d, Rules.DeadLetterFlow(d, entry.deadLetterId, at).value);
      && DeliveriesLawful(ds, map[d.deliveryId := dead])
      && EntryOk(entry.(version := 1), ds + map[d.deliveryId := dead])
  {
    hide Rules.WellFormed, Rules.Evolves;
    Rules.DeadLetterKeeps(d, entry.deadLetterId, at);
    OneDeliveryLawful(ds, d, Rules.Saved(d, Rules.DeadLetterFlow(d, entry.deadLetterId, at).value));
  }

  lemma OneDeadLetterLawful(entries: map<Id, DeadLetterEntry>, active: map<Id, Id>, e: DeadLetterEntry, ds: map<Id, Delivery>,
                            m: FailureMaterial, v: nat)
    requires e.deadLetterId !in entries && e.deliveryId !in active && EntryOk(e, ds) && m.deliveryId == e.deliveryId
    ensures var staged, linked := map[e.deadLetterId := e], m.(deadLetterRef := Some(e.deadLetterId), version := v);
      DeadLettersSound(entries, active, staged) && DeadLettersLawful(staged, ds, map[m.failureMaterialId := linked])
  {
  }

  lemma StageDeadLetterShape(c: Committed, d: Delivery, m: FailureMaterial, now: Timestamp)
    returns (entry: DeadLetterEntry, dead: Delivery, v: nat)
    requires StageDeadLetter(c, d, m, now).Ok?
    ensures DeadLetterFrom(d, m) == Ok(entry) && Rules.DeadLetterFlow(d, entry.deadLetterId, now) == Ok(dead)
    ensures |dead.attempts| == |d.attempts|
    ensures entry.deadLetterId !in c.deadLetters && entry.deliveryId !in c.activeDeadLetters && m.deliveryId == entry.deliveryId
    ensures StageDeadLetter(c, d, m, now).value.0 ==
            NOTHING.(deliveries := map[d.deliveryId := Rules.Saved(d, dead)],
                     deadLetters := map[entry.deadLetterId := entry.(version := 1)],
                     failureMaterials := map[m.failureMaterialId := m.(deadLetterRef := Some(entry.deadLetterId), version := v)])
    ensures StageDeadLetter(c, d, m, now).value.1 == entry
  {
    entry := DeadLetterFrom(d, m).value;
    dead := Rules.DeadLetterFlow(d, entry.deadLetterId, now).value;
    Rules.DeadLetterFlowValue(d, entry.deadLetterId, now);
    MoveShape(c, d, m, entry, dead);
    v := c.failureMaterialVersions[m.failureMaterialId] + 1;
  }

  lemma DeadLetterShape(c: Committed, d: Delivery, m: FailureMaterial, actor: Actor, trace: Id, ports: Ports, faults: Faults)
    returns (entry: DeadLetterEntry, dead: Delivery, v: nat, logged: AuditEntry)
    requires DeadLetterBody(c, d, m, actor, trace, ports, faults).Ok?
    ensures DeadLetterFrom(d, m) == Ok(entry) && Rules.DeadLetterFlow(d, entry.deadLetterId, ports.now) == Ok(dead)
    ensures |dead.attempts| == |d.attempts|
    ensures entry.deadLetterId !in c.deadLetters && entry.deliveryId !in c.activeDeadLetters && m.deliveryId == entry.deliveryId
    ensures logged.subject == DeadLetterSubject(entry.deadLetterId) && logged.action == DeadLetterCreated
    ensures DeadLetterBody(c, d, m, actor, trace, ports, faults).value.0 ==
            NOTHING.(deliveries := map[d.deliveryId := Rules.Saved(d, dead)],
                     deadLetters := map[entry.deadLetterId := entry.(version := 1)],
                     failureMaterials := map[m.failureMaterialId := m.(deadLetterRef := Some(entry.deadLetterId), version := v)],
                     audits := [logged])
  {
    entry, dead, v := StageDeadLetterShape(c, d, m, ports.now);
    logged := Unsigned(DeadLetterSubject(entry.deadLetterId), DeadLetterCreated, actor, ports.now, trace).(auditRef := ports.auditId.value);
  }

  lemma MovedLawful(c: Committed, d: Delivery, m: FailureMaterial, entry: DeadLetterEntry, dead: Delivery, v: nat, s: Staged,
                    at: Timestamp)
    requires Get(c.deliveries, d.deliveryId) == Some(d) && Rules.WellFormed(d) && LastFailed(d.history)
    requires DeadLetterFrom(d, m) == Ok(entry) && Rules.DeadLetterFlow(d, entry.deadLetterId, at) == Ok(dead)
    requires |dead.attempts| == |d.attempts| && m.deliveryId == entry.deliveryId
    requires entry.deadLetterId !in c.deadLetters && entry.deliveryId !in c.activeDeadLetters
    requires s.deliveries == map[d.deliveryId := Rules.Saved(d, dead)]
    requires s.deadLetters == map[entry.deadLetterId := entry.(version := 1)]
    requires s.failureMaterials == map[m.failureMaterialId := m.(deadLetterRef := Some(entry.deadLetterId), version := v)]
    requires s.plans == map[] && s.replays == map[] && s.feedbacks == map[] && s.feedbackSources == map[]
    requires s.publications == map[] && s.materials == map[] && s.anchors == map[] && Told(c.plans, s)
    ensures Lawful(c, s, None)
  {
    hide Told, Rules.WellFormed, Rules.Evolves, EntryOk, Inv;
    NewEntryOk(c.deliveries, d, m, entry, at);
    OneDeadLetterLawful(c.deadLetters, c.activeDeadLetters, entry.(version := 1), c.deliveries + s.deliveries, m, v);
    DeadLetterLawful(c, s);
  }

  lemma DeadLetterBodyLawful(c: Committed, d: Delivery, m: FailureMaterial, actor: Actor, trace: Id, ports: Ports, faults: Faults)
    requires Get(c.deliveries, d.deliveryId) == Some(d) && Rules.WellFormed(d) && LastFailed(d.history)
    requires DeadLetterBody(c, d, m, actor, trace, ports, faults).Ok?
    ensures Lawful(c, DeadLetterBody(c, d, m, actor, trace, ports, faults).value.0, None)
  {
    var entry, dead, v, logged := DeadLetterShape(c, d, m, actor, trace, ports, faults);
    var s := DeadLetterBody(c, d, m, actor, trace, ports, faults).value.0;
    Rules.DeadLetterFlowValue(d, entry.deadLetterId, ports.now);
    DeadLetterTold(c.plans, s, entry.(version := 1), Rules.Saved(d, dead), logged);
    MovedLawful(c, d, m, entry, dead, v, s, ports.now);
  }

  lemma MoveLawful(c: Committed, move: DeadLetterMove, actor: Actor, trace: Id, ports: Ports, faults: Faults)
    requires Inv(c) && MoveBody(c, move, actor, trace, ports, faults).Ok?
    ensures Lawful(c, MoveBody(c, move, actor, trace, ports, faults).value.0, None)
  {
    DeadLetterBodyLawful(c, c.deliveries[move.deliveryId], c.failureMaterials[move.materialRef], actor, trace, ports, faults);
  }

  // ---------------------------------------------------------------- preparing a replay

  lemma ReadyShape(c: Committed, e: DeadLetterEntry, r: ReplayRequest, actor: Actor, trace: Id, ports: Ports, faults: Faults)
    returns (ready: ReplayPreparation, v: nat, entry: AuditEntry)
    requires ReadyBody(c, e, r, actor, trace, ports, faults).Ok?
    ensures ready.deadLetterId == e.deadLetterId && ready.auditChainRef == e.auditChainRef == r.auditChainRef
    ensures ready.replayId !in c.replays && ready.approvalRef.Some?
    ensures (ready.deadLetterId, ready.approvalRef.value) !in c.readyReplays
    ensures entry.subject == ReplaySubject(ready.replayId) && entry.action == ReplayPreparationReady
    ensures ReadyBody(c, e, r, actor, trace, ports, faults).value.0 ==
            NOTHING.(replays := map[ready.replayId := ready.(version := v)], audits := [entry])
  {
    ready := MarkReady(PrepareDraft(e).value, r.approvalRef).value;
    v := Number(Get(c.replayVersions, ready.replayId)) + 1;
    entry := Unsigned(ReplaySubject(ready.replayId), ReplayPreparationReady, actor, ports.now, trace).(auditRef := ports.auditId.value);
  }

  lemma ReadyLawful(c: Committed, e: DeadLetterEntry, r: ReplayRequest, actor: Actor, trace: Id, ports: Ports, faults: Faults)
    requires Get(c.deadLetters, e.deadLetterId) == Some(e) && AuditChain(c.audits, r.auditChainRef) != []
    requires ReadyBody(c, e, r, actor, trace, ports, faults).Ok?
    ensures Lawful(c, ReadyBody(c, e, r, actor, trace, ports, faults).value.0, None)
  {
    var ready, v, entry := ReadyShape(c, e, r, actor, trace, ports, faults);
    OneReplayLawful(c, e, ready.(version := v));
    ReplayTold(c.plans, ReadyBody(c, e, r, actor, trace, ports, faults).value.0, ready.(version := v), entry);
    ReplayLawful(c, ReadyBody(c, e, r, actor, trace, ports, faults).value.0);
  }

  lemma OneReplayLawful(c: Committed, e: DeadLetterEntry, ready: ReplayPreparation)
    requires Get(c.deadLetters, e.deadLetterId) == Some(e) && AuditChain(c.audits, e.auditChainRef) != []
    requires ready.deadLetterId == e.deadLetterId && ready.auditChainRef == e.auditChainRef
    requires ready.replayId !in c.replays && ready.approvalRef.Some?
    requires (ready.deadLetterId, ready.approvalRef.value) !in c.readyReplays
    ensures ReplaysSound(c.replays, c.readyReplays, map[ready.replayId := ready])
    ensures ReplaysLawful(c, map[ready.replayId := ready])
  {
  }

  lemma PrepareLawful(c: Committed, r: ReplayRequest, actor: Actor, trace: Id, ports: Ports, faults: Faults)
    requires Inv(c) && ReplayBody(c, r, actor, trace, ports, faults).Ok?
    ensures Lawful(c, ReplayBody(c, r, actor, trace, ports, faults).value.0, None)
  {
    ReadyLawful(c, c.deadLetters[r.deadLetterId], r, actor, trace, ports, faults);
  }

  // ---------------------------------------------------------------- progressing a delivery

  /** A first dispatch is the one attempt no plan pays for. */
  lemma FirstBalanced(c: Committed, d: Delivery, after: Delivery, s: Staged)
    requires Get(c.deliveries, d.deliveryId) == Some(d) && d.attempts == [] && |after.attempts| == 1
    requires s.deliveries == map[d.deliveryId := after] && s.plans == map[]
    ensures Balanced(c, s, Some(d.deliveryId))
  {
    assert c.plans + s.plans == c.plans;
  }

  lemma DispatchLawful(c: Committed, d: Delivery, actor: Actor, trace: Id, startedAt: Timestamp,
                       answer: Result<BackendResult, TransportError>, finishedAt: Timestamp, faults: Faults)
    requires Get(c.deliveries, d.deliveryId) == Some(d) && Rules.WellFormed(d)
    requires DispatchBody(c, d, actor, trace, startedAt, answer, finishedAt, faults).Ok?
    ensures Lawful(c, DispatchBody(c, d, actor, trace, startedAt, answer, finishedAt, faults).value.0, Some(d.deliveryId))
  {
    hide Rules.Evolves, Rules.AttemptsOk;
    var after := Rules.Dispatch(d, d.status, startedAt, answer, finishedAt).value.0;
    Rules.DispatchEffect(d, startedAt, answer, finishedAt);
    Rules.DispatchKeeps(d, startedAt, answer, finishedAt);
    DeliverySaved(c, NOTHING, d, after);
    OneDeliveryLawful(c.deliveries, d, Rules.Saved(d, after));
    var s := DispatchBody(c, d, actor, trace, startedAt, answer, finishedAt, faults).value.0;
    FirstBalanced(c, d, Rules.Saved(d, after), s);
    DispatchIsTold(c.plans, s, Rules.Saved(d, after), StartedEntry(d.deliveryId, actor, startedAt, trace),
                   OutcomeEntry(d.deliveryId, answer, actor, finishedAt, trace));
    QuietPlans(c.plans, c.activePlans);
    DeliveryAndPlanLawful(c, s, Some(d.deliveryId));
  }

  lemma ProgressLawful(c: Committed, id: Id, actor: Actor, trace: Id, startedAt: Timestamp,
                       answer: Result<BackendResult, TransportError>, finishedAt: Timestamp, faults: Faults)
    requires Inv(c) && ProgressBody(c, id, actor, trace, startedAt, answer, finishedAt, faults).Ok?
    ensures Lawful(c, ProgressBody(c, id, actor, trace, startedAt, answer, finishedAt, faults).value.0, Some(id))
  {
    DispatchLawful(c, c.deliveries[id], actor, trace, startedAt, answer, finishedAt, faults);
  }

  // ---------------------------------------------------------------- feedback, signals and timeouts

  lemma FeedbackShape(c: Committed, f: Feedback, d: Delivery, after: Delivery)
    requires after.deliveryId == d.deliveryId && StageFeedback(c, f, d, after).Ok?
    ensures f.feedbackId !in c.feedbacks && (f.deliveryId, f.externalRef) !in c.feedbackSources
    ensures StageFeedback(c, f, d, after).value ==
            NOTHING.(deliveries := map[d.deliveryId := Rules.Saved(d, after)],
                     feedbacks := map[f.feedbackId := f.(version := Number(Get(c.feedbackVersions, f.feedbackId)) + 1)],
                     feedbackSources := map[(f.deliveryId, f.externalRef) := f.feedbackId])
  {
  }

  lemma WriteShape(c: Committed, f: Feedback, d: Delivery, after: Delivery, scope: Scope, key: Id, digest: string, actor: Actor,
                   trace: Id, ports: Ports, faults: Faults) returns (stored: Feedback, anchor: Anchor, entry: AuditEntry)
    requires after.deliveryId == d.deliveryId
    requires WriteFeedback(c, f, d, after, scope, key, digest, actor, trace, ports, faults).Ok?
    ensures f.feedbackId !in c.feedbacks && (f.deliveryId, f.externalRef) !in c.feedbackSources && (scope, key) !in c.anchors
    ensures ports.auditId.Some? && WriteFeedback(c, f, d, after, scope, key, digest, actor, trace, ports, faults).value.1 == ports.auditId.value
    ensures stored == f.(auditRef := ports.auditId, version := stored.version)
    ensures ports.anchorId.Some?
    ensures anchor == Anchor(ports.anchorId.value, scope, key, digest, FeedbackRef(f.feedbackId), ports.later, trace)
    ensures entry == AuditEntry(ports.auditId.value, DeliverySubject(d.deliveryId), FeedbackRecorded(f.status), actor, f.observedAt, trace)
    ensures WriteFeedback(c, f, d, after, scope, key, digest, actor, trace, ports, faults).value.0 ==
            NOTHING.(deliveries := map[d.deliveryId := Rules.Saved(d, after)], feedbacks := map[f.feedbackId := stored],
                     feedbackSources := map[(f.deliveryId, f.externalRef) := f.feedbackId],
                     anchors := map[(scope, key) := anchor], audits := [entry])
  {
    var recorded := f.(auditRef := ports.auditId);
    FeedbackShape(c, recorded, d, after);
    stored := recorded.(version := Number(Get(c.feedbackVersions, f.feedbackId)) + 1);
    anchor := Anchor(ports.anchorId.value, scope, key, digest, FeedbackRef(f.feedbackId), ports.later, trace);
    entry := AuditEntry(ports.auditId.value, DeliverySubject(d.deliveryId), FeedbackRecorded(f.status), actor, f.observedAt, trace);
  }

  lemma WriteLawful(c: Committed, f: Feedback, d: Delivery, after: Delivery, scope: Scope, key: Id, digest: string, actor: Actor,
                    trace: Id, ports: Ports, faults: Faults)
    requires Get(c.deliveries, d.deliveryId) == Some(d) && after.deliveryId == d.deliveryId
    requires Rules.WellFormed(Rules.Saved(d, after)) && Rules.Evolves(d, Rules.Saved(d, after)) && FitsScope(scope.action, f.status)
    requires |after.attempts| == |d.attempts| && f.deliveryId == d.deliveryId
    requires WriteFeedback(c, f, d, after, scope, key, digest, actor, trace, ports, faults).Ok?
    ensures Lawful(c, WriteFeedback(c, f, d, after, scope, key, digest, actor, trace, ports, faults).value.0, None)
  {
    hide Rules.WellFormed, Rules.Evolves, RequestDigest;
    var stored, anchor, entry := WriteShape(c, f, d, after, scope, key, digest, actor, trace, ports, faults);
    OneDeliveryLawful(c.deliveries, d, Rules.Saved(d, after));
    OneFeedbackLawful(c.feedbacks, c.feedbackSources, f, stored, anchor);
    var s := WriteFeedback(c, f, d, after, scope, key, digest, actor, trace, ports, faults).value.0;
    FeedbackTold(c.plans, s, stored, Rules.Saved(d, after), entry);
    FeedbackLawful(c, s);
  }

  lemma OneFeedbackLawful(feedbacks: map<Id, Feedback>, sources: map<(Id, Id), Id>, f: Feedback, stored: Feedback, anchor: Anchor)
    requires f.feedbackId !in feedbacks && (f.deliveryId, f.externalRef) !in sources
    requires stored == f.(auditRef := stored.auditRef, version := stored.version) && stored.auditRef.Some?
    requires anchor.bound == FeedbackRef(f.feedbackId) && FitsScope(anchor.scope.action, f.status)
    ensures FeedbackSound(feedbacks, sources, map[f.feedbackId := stored], map[(f.deliveryId, f.externalRef) := f.feedbackId])
    ensures AnchorsOk(map[(anchor.scope, anchor.key) := anchor], map[], map[f.feedbackId := stored])
  {
  }

  /** Recorded feedback either completes a delivered delivery or fails it. */
  lemma ApplyKeeps(d: Delivery, m: FeedbackCommand, f: Feedback)
    requires Rules.WellFormed(d) && Apply(d, f).Ok?
    requires CurrentAttempt(d, m.attemptId, "conflict.late_feedback").Ok?
    requires CurrentAttempt(d, m.attemptId, "conflict.late_feedback").value.IsFinished()
    ensures var after := Rules.Saved(d, Apply(d, f).value);
      && Rules.WellFormed(after) && Rules.Evolves(d, after) && |after.attempts| == |d.attempts|
      && after.deliveryId == d.deliveryId && after.status == (if f.status == Ack then Completed else Failed)
  {
    Rules.CurrentFinished(d, m.attemptId);
    if f.status == Ack {
      Rules.AckKeeps(d, f);
    } else {
      Rules.FailKeeps(d, FailureReason(f), "feedback_fail", f.observedAt);
    }
  }

  lemma RecordShape(c: Committed, d: Delivery, m: FeedbackCommand, key: Id, actor: Actor, trace: Id, ports: Ports, faults: Faults)
    returns (f: Feedback, after: Delivery)
    requires Rules.WellFormed(d) && FeedbackBody(c, d, m, key, actor, trace, ports, faults).Ok?
    ensures FromCommand(m, actor) == Ok(f)
    ensures Rules.WellFormed(Rules.Saved(d, after)) && Rules.Evolves(d, Rules.Saved(d, after)) && after.deliveryId == d.deliveryId
    ensures |after.attempts| == |d.attempts| && after.status == ImpliedStatus(f)
    ensures WriteFeedback(c, f, d, after, CommandScope(m), key, RequestDigest(m.canonical), actor, trace, ports, faults).Ok?
    ensures var (s, auditRef) := WriteFeedback(c, f, d, after, CommandScope(m), key, RequestDigest(m.canonical), actor, trace,
                                               ports, faults).value;
      FeedbackBody(c, d, m, key, actor, trace, ports, faults) ==
      Ok((s, Ok(FeedbackReceipt(f.feedbackId, f.deliveryId, after.status, auditRef))))
  {
    f := FromCommand(m, actor).value;
    CommandFeedback(m, actor);
    after := Apply(d, f).value;
    ApplyKeeps(d, m, f);
  }

  lemma RecordLawful(c: Committed, m: FeedbackCommand, key: Id, actor: Actor, trace: Id, ports: Ports, faults: Faults)
    requires Inv(c) && RecordBody(c, m, key, actor, trace, ports, faults).Ok?
    ensures Lawful(c, RecordBody(c, m, key, actor, trace, ports, faults).value.0, None)
  {
    hide Lawful, WriteFeedback, Rules.WellFormed, Rules.Evolves, RequestDigest, FromCommand, Inv;
    var d := c.deliveries[m.deliveryId];
    StoredDelivery(c, m.deliveryId);
    CommandFeedback(m, actor);
    var f, after := RecordShape(c, d, m, key, actor, trace, ports, faults);
    WriteLawful(c, f, d, after, CommandScope(m), key, RequestDigest(m.canonical), actor, trace, ports, faults);
  }

  lemma SignalKeeps(d: Delivery, m: BackendSignal, normalized: BackendResult, f: Feedback, at: Timestamp)
    requires Rules.WellFormed(d) && Rules.FinishAttempt(d, m.attemptId, normalized, at).Ok?
    requires var (finished, a) := Rules.FinishAttempt(d, m.attemptId, normalized, at).value;
      SignalFlow(finished, d.status, a, normalized, f, at).Ok?
    ensures var (finished, a) := Rules.FinishAttempt(d, m.attemptId, normalized, at).value;
      var after := Rules.Saved(d, SignalFlow(finished, d.status, a, normalized, f, at).value);
      && Rules.WellFormed(after) && Rules.Evolves(d, after) && |after.attempts| == |d.attempts|
      && after.deliveryId == d.deliveryId
  {
    if normalized.status == BackendDelivered {
      Rules.FinishThenArrive(d, m.attemptId, normalized, at);
    } else {
      Rules.FinishThenFail(d, m.attemptId, normalized, at, FailureReason(f), "delivery_failed");
    }
  }

  /** The signal's transaction is a feedback write. */
  lemma SettledShape(c: Committed, d: Delivery, m: BackendSignal, normalized: BackendResult, actor: Actor, trace: Id,
                     ports: Ports, faults: Faults) returns (f: Feedback, after: Delivery)
    requires Rules.WellFormed(d) && SettledBody(c, d, m, normalized, actor, trace, ports, faults).Ok?
    ensures FromBackendSignal(d.deliveryId, m, actor, ports.now) == Ok(f) && FitsScope(ConsumeBackendDeliverySignal, f.status)
    ensures Rules.WellFormed(Rules.Saved(d, after)) && Rules.Evolves(d, Rules.Saved(d, after)) && after.deliveryId == d.deliveryId
    ensures |after.attempts| == |d.attempts|
    ensures WriteFeedback(c, f, d, after, SignalScope(m), m.idempotencyKey, RequestDigest(m.canonical), actor, trace, ports, faults).Ok?
    ensures var (s, auditRef) := WriteFeedback(c, f, d, after, SignalScope(m), m.idempotencyKey, RequestDigest(m.canonical), actor,
                                               trace, ports, faults).value;
      SettledBody(c, d, m, normalized, actor, trace, ports, faults) == Ok((s, SignalReceived(m, f, auditRef)))
  {
    var (finished, a) := Rules.FinishAttempt(d, m.attemptId, normalized, ports.now).value;
    f := FromBackendSignal(d.deliveryId, m, actor, ports.now).value;
    SignalFeedback(d.deliveryId, m, actor, ports.now);
    after := SignalFlow(finished, d.status, a, normalized, f, ports.now).value;
    SignalKeeps(d, m, normalized, f, ports.now);
  }

  lemma SettledLawful(c: Committed, d: Delivery, m: BackendSignal, normalized: BackendResult, actor: Actor, trace: Id,
                      ports: Ports, faults: Faults)
    requires Get(c.deliveries, d.deliveryId) == Some(d) && Rules.WellFormed(d)
    requires SettledBody(c, d, m, normalized, actor, trace, ports, faults).Ok?
    ensures Lawful(c, SettledBody(c, d, m, normalized, actor, trace, ports, faults).value.0, None)
  {
    hide Lawful, WriteFeedback, Rules.WellFormed, Rules.Evolves, RequestDigest, FromBackendSignal;
    SignalFeedback(d.deliveryId, m, actor, ports.now);
    var f, after := SettledShape(c, d, m, normalized, actor, trace, ports, faults);
    WriteLawful(c, f, d, after, SignalScope(m), m.idempotencyKey, RequestDigest(m.canonical), actor, trace, ports, faults);
  }

  lemma SignalLawful(c: Committed, m: BackendSignal, answer: Result<BackendResult, TransportError>, actor: Actor, trace: Id,
                     ports: Ports, faults: Faults)
    requires Inv(c) && SignalBody(c, m, answer, actor, trace, ports, faults).Ok?
    ensures Lawful(c, SignalBody(c, m, answer, actor, trace, ports, faults).value.0, None)
  {
    if m.deliveryId in c.deliveries {
      SettledLawful(c, c.deliveries[m.deliveryId], m, answer.value, actor, trace, ports, faults);
    } else {
      LogLawful(c, UnknownSignalBody(m, actor, trace, ports, faults).value.0);
    }
  }

  lemma LateKeeps(d: Delivery, m: TimeoutSignal, f: Feedback)
    requires Rules.WellFormed(d) && TimedOut(d, m).Ok?
    requires Rules.FailFlow(TimedOut(d, m).value, d.status, FailureReason(f), "feedback_timeout", m.occurredAt).Ok?
    ensures var after := Rules.Saved(d, Rules.FailFlow(TimedOut(d, m).value, d.status, FailureReason(f), "feedback_timeout", m.occurredAt).value);
      && Rules.WellFormed(after) && Rules.Evolves(d, after) && |after.attempts| == |d.attempts|
      && after.deliveryId == d.deliveryId
  {
    if d.status == Dispatching {
      Rules.FinishThenFail(d, m.attemptId, BackendResult(BackendFailed, None), m.occurredAt, FailureReason(f), "feedback_timeout");
    } else {
      Rules.FailKeeps(d, FailureReason(f), "feedback_timeout", m.occurredAt);
    }
  }

  lemma LateShape(c: Committed, d: Delivery, m: TimeoutSignal, actor: Actor, trace: Id, ports: Ports, faults: Faults)
    returns (f: Feedback, after: Delivery)
    requires Rules.WellFormed(d) && LateBody(c, d, m, actor, trace, ports, faults).Ok?
    ensures FromTimeout(d.deliveryId, m, actor) == Ok(f) && FitsScope(ConsumeTimeoutSignal, f.status)
    ensures Rules.WellFormed(Rules.Saved(d, after)) && Rules.Evolves(d, Rules.Saved(d, after)) && after.deliveryId == d.deliveryId
    ensures |after.attempts| == |d.attempts|
    ensures WriteFeedback(c, f, d, after, TimeoutScope(m), m.idempotencyKey, RequestDigest(m.canonical), actor, trace, ports, faults).Ok?
    ensures var (s, auditRef) := WriteFeedback(c, f, d, after, TimeoutScope(m), m.idempotencyKey, RequestDigest(m.canonical), actor,
                                               trace, ports, faults).value;
      LateBody(c, d, m, actor, trace, ports, faults) ==
      Ok((s, Ok(TimeoutReceipt(f.deliveryId, Some(f.feedbackId), RecordedNow, true, auditRef))))
  {
    f := FromTimeout(d.deliveryId, m, actor).value;
    TimeoutFeedback(d.deliveryId, m, actor);
    after := Rules.FailFlow(TimedOut(d, m).value, d.status, FailureReason(f), "feedback_timeout", m.occurredAt).value;
    LateKeeps(d, m, f);
  }

  lemma LateLawful(c: Committed, d: Delivery, m: TimeoutSignal, actor: Actor, trace: Id, ports: Ports, faults: Faults)
    requires Get(c.deliveries, d.deliveryId) == Some(d) && Rules.WellFormed(d)
    requires LateBody(c, d, m, actor, trace, ports, faults).Ok?
    ensures Lawful(c, LateBody(c, d, m, actor, trace, ports, faults).value.0, None)
  {
    hide Lawful, WriteFeedback, Rules.WellFormed, Rules.Evolves, RequestDigest, FromTimeout;
    TimeoutFeedback(d.deliveryId, m, actor);
    var f, after := LateShape(c, d, m, actor, trace, ports, faults);
    WriteLawful(c, f, d, after, TimeoutScope(m), m.idempotencyKey, RequestDigest(m.canonical), actor, trace, ports, faults);
  }

  lemma TimeoutLawful(c: Committed, m: TimeoutSignal, actor: Actor, trace: Id, ports: Ports, faults: Faults)
    requires Inv(c) && TimeoutBody(c, m, actor, trace, ports, faults).Ok?
    ensures Lawful(c, TimeoutBody(c, m, actor, trace, ports, faults).value.0, None)
  {
    if m.deliveryId in c.deliveries {
      LateLawful(c, c.deliveries[m.deliveryId], m, actor, trace, ports, faults);
    } else {
      LogLawful(c, UnknownTimeoutBody(m, actor, trace, ports, faults).value.0);
    }
  }

  // ---------------------------------------------------------------- publications and reused keys

  /** A pending acceptance is decided as the material demands, under the audit reference drawn for it. */
  lemma DecidingDecides(a: Acceptance, decision: Option<RejectReason>, at: Timestamp, auditRef: Id)
    requires Deciding(a, decision, at, auditRef).Ok?
    ensures var decided := Deciding(a, decision, at, auditRef).value;
      && decided.publicationId == a.publicationId && decided.decisionAuditRef == Some(auditRef)
      && decided.rejectReason == decision && RulingOf(decided) == Ok(Ruling(a.publicationId, decision, auditRef))
  {
  }

  lemma WriteDecisionShape(c: Committed, m: Material, decided: Acceptance, entry: AuditEntry, anchor: Anchor, faults: Faults)
    requires decided.publicationId == m.publicationId && WriteDecision(c, m, decided, entry, anchor, faults).Ok?
    ensures m.publicationId !in c.publications && m.publicationId !in c.materials && (anchor.scope, anchor.key) !in c.anchors
    ensures WriteDecision(c, m, decided, entry, anchor, faults).value ==
            NOTHING.(materials := map[m.publicationId := m], publications := map[m.publicationId := decided],
                     anchors := map[(anchor.scope, anchor.key) := anchor], audits := [entry])
  {
  }

  lemma DecideShape(c: Committed, m: Material, a: Acceptance, scope: Scope, key: Id, digest: string, actor: Actor, trace: Id,
                    ports: Ports, faults: Faults) returns (decided: Acceptance, anchor: Anchor, entry: AuditEntry)
    requires StartPending(m) == Ok(a) && DecideBody(c, m, a, scope, key, digest, actor, trace, ports, faults).Ok?
    ensures decided.publicationId == m.publicationId && RulingOf(decided).Ok?
    ensures DecideBody(c, m, a, scope, key, digest, actor, trace, ports, faults).value.1 == RulingOf(decided)
    ensures m.publicationId !in c.publications && m.publicationId !in c.materials && (scope, key) !in c.anchors
    ensures anchor.scope == scope && anchor.key == key && anchor.digest == digest && anchor.bound == PublicationRef(m.publicationId)
    ensures entry.subject == PublicationSubject(m.publicationId) && decided.decisionAuditRef == Some(entry.auditRef)
    ensures entry.action == DecisionAction(decided.rejectReason)
    ensures DecideBody(c, m, a, scope, key, digest, actor, trace, ports, faults).value.0 ==
            NOTHING.(materials := map[m.publicationId := m], publications := map[m.publicationId := decided],
                     anchors := map[(scope, key) := anchor], audits := [entry])
  {
    hide RequestDigest, Decision, WriteDecision, Deciding, RulingOf;
    DecidingDecides(a, Decision(m), ports.now, ports.auditId.value);
    decided := Deciding(a, Decision(m), ports.now, ports.auditId.value).value;
    anchor := Anchor(ports.anchorId.value, scope, key, digest, PublicationRef(m.publicationId), ports.now, trace);
    entry := AuditEntry(ports.auditId.value, PublicationSubject(m.publicationId), DecisionAction(Decision(m)), actor, ports.now, trace);
    WriteDecisionShape(c, m, decided, entry, anchor, faults);
  }

  lemma DecideLawful(c: Committed, m: Material, a: Acceptance, scope: Scope, key: Id, digest: string, actor: Actor, trace: Id,
                     ports: Ports, faults: Faults)
    requires StartPending(m) == Ok(a) && (scope.action.AcceptPublication? || scope.action.ConsumeCommittedOutboxFact?)
    requires DecideBody(c, m, a, scope, key, digest, actor, trace, ports, faults).Ok?
    ensures Lawful(c, DecideBody(c, m, a, scope, key, digest, actor, trace, ports, faults).value.0, None)
  {
    hide Decision, Deciding, StartPending, RequestDigest, Inv;
    var s := DecideBody(c, m, a, scope, key, digest, actor, trace, ports, faults).value.0;
    var decided, anchor, entry := DecideShape(c, m, a, scope, key, digest, actor, trace, ports, faults);
    assert entry in s.audits && s.anchors[(scope, key)] == anchor;
    assert Invariants.Announced(s, m.publicationId);
    PublicationLawful(c, s);
  }

  lemma ConflictLawful<T>(c: Committed, scope: Scope, key: Id, existing: Anchor, incoming: string, actor: Actor, trace: Id,
                          ports: Ports, faults: Faults)
    requires ConflictBody<T>(scope, key, existing, incoming, actor, trace, ports, faults).Ok?
    ensures Lawful(c, ConflictBody<T>(scope, key, existing, incoming, actor, trace, ports, faults).value.0, None)
  {
    LogLawful(c, ConflictBody<T>(scope, key, existing, incoming, actor, trace, ports, faults).value.0);
  }
}
