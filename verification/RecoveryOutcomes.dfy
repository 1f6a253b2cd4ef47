/** When a retry request, a move to dead letter and a replay preparation commit, and what they then leave, read off
    the stored records and the request's own fields. */
module RecoveryOutcomes {
  import opened Common
  import opened Records
  import opened StoreModel
  import opened Steps
  import opened Indexes
  import opened Invariants
  import opened ServiceEffects
  import opened RecoveryRules
  import opened RecoverySteps
  import Rules = DeliveryRules

  // ---------------------------------------------------------------- requesting a retry

  /** The plan the request asks for. */
  function RequestedPlan(r: RetryRequest, now: Timestamp): RetryPlan {
    RetryPlan(PlanId(r.deliveryId, r.policyRef, now), r.deliveryId, now, r.maxAttempts, r.maxAttempts, PlanScheduled, 0)
  }

  function RequestEntry(r: RetryRequest, actor: Actor, trace: Id, now: Timestamp, auditRef: Id): AuditEntry {
    AuditEntry(auditRef, RetryPlanSubject(RequestedPlan(r, now).retryPlanId), RetryRequested, actor, now, trace)
  }

  /** The request is filled in with at least one attempt, its delivery has failed and has no scheduled plan, its
      material gives a reason, the plan's identifier is new, and nothing fails. */
  ghost predicate Requestable(c: Committed, r: RetryRequest, ports: Ports, faults: Faults) {
    && !IsBlank(r.materialRef) && !IsBlank(r.policyRef) && !IsBlank(r.reason) && r.maxAttempts > 0 && !IsBlank(ports.now)
    && r.deliveryId in c.deliveries && c.deliveries[r.deliveryId].status == Failed
    && r.materialRef in c.failureMaterials && !IsBlank(c.failureMaterials[r.materialRef].failureReason)
    && (forall id :: !Listed(c.plans, r.deliveryId, id))
    && Number(Get(c.planVersions, RequestedPlan(r, ports.now).retryPlanId)) == 0
    && ports.auditId.Some? && faults == NO_FAULTS
  }

  lemma NewPlanSaves(c: Committed, plan: RetryPlan)
    requires Inv(c) && plan.status == PlanScheduled
    ensures SavePlan(c, Some(NOTHING), plan, None).Ok? <==>
            Number(Get(c.planVersions, plan.retryPlanId)) == 0 && forall id :: !Listed(c.plans, plan.deliveryId, id)
  {
    hide Rules.WellFormed;
    if plan.deliveryId in c.activePlans {
      var id := c.activePlans[plan.deliveryId];
      assert Listed(c.plans, plan.deliveryId, id);
      StoredPlan(c, id);
      assert c.plans[id].version > 0;
    }
  }

  lemma ScheduleOutcome(c: Committed, r: RetryRequest, now: Timestamp)
    requires Inv(c) && r.deliveryId in c.deliveries && r.materialRef in c.failureMaterials && !IsBlank(r.policyRef)
    ensures var d, m := c.deliveries[r.deliveryId], c.failureMaterials[r.materialRef];
      var step := StageSchedule(c, d, m, r, now);
      && (step.Ok? <==> d.status == Failed && !IsBlank(m.failureReason) && r.maxAttempts > 0 && !IsBlank(now)
                        && (forall id :: !Listed(c.plans, r.deliveryId, id))
                        && Number(Get(c.planVersions, RequestedPlan(r, now).retryPlanId)) == 0)
      && (step.Ok? ==> step.value.1 == RequestedPlan(r, now))
  {
    hide SavePlan, Inv, IsBlank, PlanId, Listed;
    StoredDelivery(c, r.deliveryId);
    NewPlanSaves(c, RequestedPlan(r, now));
  }

  lemma RequestBodyOutcome(c: Committed, r: RetryRequest, actor: Actor, trace: Id, ports: Ports, faults: Faults)
    requires Inv(c) && !IsBlank(r.materialRef) && !IsBlank(r.policyRef) && !IsBlank(r.reason)
    ensures var body := RequestBody(c, r, actor, trace, ports, faults);
      && (body.Ok? && faults.commit.None? <==> Requestable(c, r, ports, faults))
      && (body.Ok? ==>
            && ports.auditId.Some?
            && body.value.1 == Ok(RetryReceipt(RequestedPlan(r, ports.now).retryPlanId, r.deliveryId, r.maxAttempts, ports.now,
                                               ports.auditId.value)))
  {
    hide StageSchedule, Inv, IsBlank, PlanId, Listed;
    if r.deliveryId in c.deliveries && r.materialRef in c.failureMaterials {
      ScheduleOutcome(c, r, ports.now);
    }
  }

  lemma RequestStages(c: Committed, r: RetryRequest, actor: Actor, trace: Id, ports: Ports, faults: Faults)
    requires Inv(c) && !IsBlank(r.policyRef) && RequestBody(c, r, actor, trace, ports, faults).Ok?
    ensures ports.auditId.Some?
    ensures var s := RequestBody(c, r, actor, trace, ports, faults).value.0;
      && s.plans == map[RequestedPlan(r, ports.now).retryPlanId := RequestedPlan(r, ports.now).(version := 1)]
      && s.deliveries == map[]
      && s.audits == [RequestEntry(r, actor, trace, ports.now, ports.auditId.value)]
  {
    hide StageSchedule, Inv, IsBlank, PlanId;
    var d, m := c.deliveries[r.deliveryId], c.failureMaterials[r.materialRef];
    StoredDelivery(c, r.deliveryId);
    ScheduleOutcome(c, r, ports.now);
    ScheduleStages(c, d, m, r, ports.now);
  }

  lemma ScheduleStages(c: Committed, d: Delivery, m: FailureMaterial, r: RetryRequest, now: Timestamp)
    requires StageSchedule(c, d, m, r, now).Ok?
    ensures var (s, plan) := StageSchedule(c, d, m, r, now).value;
      s == NOTHING.(plans := map[plan.retryPlanId := plan.(version := 1)])
  {
    hide IsBlank, PlanId;
  }

  /** The new plan is stored and told; no delivery changes. */
  ghost predicate PlanAdded(before: Committed, after: Committed, plan: RetryPlan, e: AuditEntry) {
    && Writes(before.plans, after.plans, plan.retryPlanId) && after.plans[plan.retryPlanId] == plan.(version := 1)
    && after.deliveries == before.deliveries
    && after.audits == before.audits + [e]
  }

  lemma PlanCommitted(c: Committed, s: Staged, plan: RetryPlan, e: AuditEntry)
    requires s.plans == map[plan.retryPlanId := plan.(version := 1)] && s.deliveries == map[] && s.audits == [e]
    ensures PlanAdded(c, Overlay(c, s), plan, e)
  {
    hide Overlay, Writes;
    DeliveriesAfter(c, Commits(s));
    PlansAfter(c, Commits(s));
    KeyWritten(c.plans, s.plans, plan.retryPlanId);
    EntryLogged(c, s, e);
    NothingWritten(c.deliveries, s.deliveries);
  }

  lemma EntryLogged(c: Committed, s: Staged, e: AuditEntry)
    requires s.audits == [e]
    ensures Overlay(c, s).audits == c.audits + [e]
  {
    hide Overlay;
    LogTables(c, s);
  }

  /** A retry request commits exactly when it is requestable; it then adds the plan it asks for, scheduled at once with
      its whole budget, and nothing else but the entry that tells it. */
  lemma RequestDecided(c: Committed, r: RetryRequest, actor: Actor, trace: Id, ports: Ports, faults: Faults)
    requires Inv(c)
    ensures var step := RequestRetry(c, r, actor, trace, ports, faults);
      var after, plan := After(c, step.exit), RequestedPlan(r, ports.now);
      if Requestable(c, r, ports, faults) then
        && PlanAdded(c, after, plan, RequestEntry(r, actor, trace, ports.now, ports.auditId.value))
        && step.outcome == Ok(RetryReceipt(plan.retryPlanId, r.deliveryId, r.maxAttempts, ports.now, ports.auditId.value))
      else after == c && step.outcome.Err?
  {
    hide RequestBody, Inv, IsBlank, Overlay, PlanAdded, PlanId, Listed;
    if InvalidRequest(r).None? {
      RequestBodyOutcome(c, r, actor, trace, ports, faults);
      if RequestBody(c, r, actor, trace, ports, faults).Ok? {
        RequestStages(c, r, actor, trace, ports, faults);
        PlanCommitted(c, RequestBody(c, r, actor, trace, ports, faults).value.0, RequestedPlan(r, ports.now),
                      RequestEntry(r, actor, trace, ports.now, ports.auditId.value));
      }
    }
  }

  // ---------------------------------------------------------------- moving to dead letter

  /** The entry the move writes: it names the last history entry and the chain of the material's audit entry. */
  function MovedEntry(d: Delivery, m: FailureMaterial): DeadLetterEntry
    requires d.history != []
  {
    DeadLetterEntry(DeadLetterId(d.deliveryId, m.failureMaterialId), d.deliveryId, m.failureReason,
                    d.history[|d.history| - 1].historyId, ChainRef(m.auditRef), Open, 0)
  }

  function MoveEntry(d: Delivery, m: FailureMaterial, actor: Actor, trace: Id, now: Timestamp, auditRef: Id): AuditEntry {
    AuditEntry(auditRef, DeadLetterSubject(DeadLetterId(d.deliveryId, m.failureMaterialId)), DeadLetterCreated, actor, now, trace)
  }

  /** The delivery has failed, as its last history entry says, and the material is its own and audited. */
  ghost predicate Closable(d: Delivery, m: FailureMaterial) {
    && d.status == Failed && d.history != [] && d.history[|d.history| - 1].toStatus == Failed
    && !IsBlank(d.history[|d.history| - 1].historyId)
    && m.deliveryId == d.deliveryId && !IsBlank(m.auditRef)
  }

  /** The move is filled in, its delivery and material are stored and closable, the entry is new, and nothing fails. */
  ghost predicate Movable(c: Committed, move: DeadLetterMove, ports: Ports, faults: Faults) {
    && !IsBlank(move.materialRef) && !IsBlank(move.reason) && (move.operatorNote.Some? ==> !IsBlank(move.operatorNote.value))
    && move.deliveryId in c.deliveries && move.materialRef in c.failureMaterials
    && Closable(c.deliveries[move.deliveryId], c.failureMaterials[move.materialRef])
    && DeadLetterId(move.deliveryId, move.materialRef) !in c.deadLetters && move.materialRef in c.failureMaterialVersions
    && ports.auditId.Some? && faults == NO_FAULTS
  }

  /** A delivery with an open dead letter is dead-lettered. */
  lemma BuriedWhileOpen(c: Committed, id: Id)
    requires Inv(c) && id in c.deliveries && id in c.activeDeadLetters
    ensures c.deliveries[id].status == DeadLettered
  {
    hide Rules.WellFormed;
    assert Opened(c.deadLetters, id, c.activeDeadLetters[id]);
  }

  lemma StoredMaterial(c: Committed, id: Id)
    requires Inv(c) && id in c.failureMaterials
    ensures c.failureMaterials[id].failureMaterialId == id
  {
    hide Rules.WellFormed;
  }

  lemma EntryTexts(d: Delivery, m: FailureMaterial)
    ensures !IsBlank(DeadLetterId(d.deliveryId, m.failureMaterialId)) && !IsBlank(ChainRef(m.auditRef))
  {
    assert !IsSpace(DeadLetterId(d.deliveryId, m.failureMaterialId)[0]) && !IsSpace(ChainRef(m.auditRef)[0]);
  }

  lemma MoveSaves(c: Committed, d: Delivery, m: FailureMaterial, entry: DeadLetterEntry, dead: Delivery)
    requires Get(c.deliveryVersions, d.deliveryId) == Some(d.version) && dead.deliveryId == d.deliveryId
    requires entry.deliveryId !in c.activeDeadLetters
    ensures StageMove(c, d, m, entry, dead).Ok? <==>
            entry.deadLetterId !in c.deadLetters && m.failureMaterialId in c.failureMaterialVersions
  {
  }

  lemma StageDeadLetterOutcome(c: Committed, d: Delivery, m: FailureMaterial, now: Timestamp)
    requires Get(c.deliveryVersions, d.deliveryId) == Some(d.version)
    requires d.status == Failed ==> d.deliveryId !in c.activeDeadLetters
    requires LastFailed(d.history)
    ensures StageDeadLetter(c, d, m, now).Ok? <==>
            && Closable(d, m) && DeadLetterId(d.deliveryId, m.failureMaterialId) !in c.deadLetters
            && m.failureMaterialId in c.failureMaterialVersions
    ensures StageDeadLetter(c, d, m, now).Ok? ==> StageDeadLetter(c, d, m, now).value.1 == MovedEntry(d, m)
  {
    hide StageMove, IsBlank, ChainRef, DeadLetterId;
    EntryTexts(d, m);
    if Closable(d, m) {
      var entry := MovedEntry(d, m);
      assert DeadLetterFrom(d, m) == Ok(entry);
      var dead := d.(status := DeadLettered,
                     history := d.history + [Rules.Transition(d.deliveryId, Failed, DeadLettered, "dead_lettered", now)]);
      assert Rules.DeadLetterFlow(d, entry.deadLetterId, now) == Ok(dead);
      MoveSaves(c, d, m, entry, dead);
    }
  }

  lemma MoveBodyOutcome(c: Committed, move: DeadLetterMove, actor: Actor, trace: Id, ports: Ports, faults: Faults)
    requires Inv(c) && InvalidMove(move).None?
    ensures var body := MoveBody(c, move, actor, trace, ports, faults);
      && (body.Ok? && faults.commit.None? <==> Movable(c, move, ports, faults))
      && (body.Ok? ==>
            && ports.auditId.Some?
            && body.value.1 == Ok(DeadLetterReceipt(DeadLetterId(move.deliveryId, move.materialRef), move.deliveryId, move.materialRef,
                                                    ports.auditId.value)))
  {
    hide StageDeadLetter, Inv, IsBlank, DeadLetterId, ChainRef;
    if move.deliveryId in c.deliveries && move.materialRef in c.failureMaterials {
      var d, m := c.deliveries[move.deliveryId], c.failureMaterials[move.materialRef];
      StoredDelivery(c, move.deliveryId);
      StoredMaterial(c, move.materialRef);
      if move.deliveryId in c.activeDeadLetters {
        BuriedWhileOpen(c, move.deliveryId);
      }
      if LastFailed(d.history) {
        StageDeadLetterOutcome(c, d, m, ports.now);
      }
    }
  }

  /** The delivery is closed by one history entry, the entry stored, the material linked to it, and the move told. */
  ghost predicate Moved(before: Committed, after: Committed, d: Delivery, m: FailureMaterial, now: Timestamp, e: AuditEntry)
    requires d.history != []
  {
    var entry := MovedEntry(d, m);
    && Writes(before.deliveries, after.deliveries, d.deliveryId) && Buried(d, after.deliveries[d.deliveryId], now)
    && Writes(before.deadLetters, after.deadLetters, entry.deadLetterId)
    && after.deadLetters[entry.deadLetterId] == entry.(version := 1)
    && Writes(before.failureMaterials, after.failureMaterials, m.failureMaterialId)
    && after.failureMaterials[m.failureMaterialId] ==
       m.(deadLetterRef := Some(entry.deadLetterId), version := after.failureMaterials[m.failureMaterialId].version)
    && after.audits == before.audits + [e]
  }

  ghost predicate Buried(before: Delivery, after: Delivery, now: Timestamp) {
    && after == before.(status := DeadLettered, history := after.history, version := before.version + 1)
    && Lengthens(before.history, after.history)
    && var e := after.history[|before.history|];
       e.deliveryId == before.deliveryId && e.fromStatus == Failed && e.toStatus == DeadLettered && e.occurredAt == now
  }

  lemma MoveStages(c: Committed, d: Delivery, m: FailureMaterial, actor: Actor, trace: Id, ports: Ports, faults: Faults)
    returns (s: Staged)
    requires d.history != [] && DeadLetterBody(c, d, m, actor, trace, ports, faults).Ok?
    ensures s == DeadLetterBody(c, d, m, actor, trace, ports, faults).value.0 && ports.auditId.Some?
    ensures var entry := MovedEntry(d, m);
      && s.deliveries.Keys == {d.deliveryId} && Buried(d, s.deliveries[d.deliveryId], ports.now)
      && s.deadLetters == map[entry.deadLetterId := entry.(version := 1)]
      && s.failureMaterials.Keys == {m.failureMaterialId}
      && s.failureMaterials[m.failureMaterialId] ==
         m.(deadLetterRef := Some(entry.deadLetterId), version := s.failureMaterials[m.failureMaterialId].version)
      && s.audits == [MoveEntry(d, m, actor, trace, ports.now, ports.auditId.value)]
  {
    hide StageDeadLetter, IsBlank, ChainRef, DeadLetterId;
    s := DeadLetterBody(c, d, m, actor, trace, ports, faults).value.0;
    var entry, dead, v := StageDeadLetterShape(c, d, m, ports.now);
    Rules.DeadLetterFlowValue(d, entry.deadLetterId, ports.now);
    assert entry.deadLetterId == DeadLetterId(d.deliveryId, m.failureMaterialId);
  }

  lemma DeliveryRow(c: Committed, s: Staged, id: Id)
    requires s.deliveries.Keys == {id}
    ensures Writes(c.deliveries, Overlay(c, s).deliveries, id) && Overlay(c, s).deliveries[id] == s.deliveries[id]
  {
    hide Overlay;
    ReportTables(c, s);
    KeyWritten(c.deliveries, s.deliveries, id);
  }

  lemma DeadLetterRow(c: Committed, s: Staged, id: Id)
    requires s.deadLetters.Keys == {id}
    ensures Writes(c.deadLetters, Overlay(c, s).deadLetters, id) && Overlay(c, s).deadLetters[id] == s.deadLetters[id]
  {
    hide Overlay;
    RecoveryTables(c, s);
    KeyWritten(c.deadLetters, s.deadLetters, id);
  }

  lemma MaterialRow(c: Committed, s: Staged, id: Id)
    requires s.failureMaterials.Keys == {id}
    ensures Writes(c.failureMaterials, Overlay(c, s).failureMaterials, id)
    ensures Overlay(c, s).failureMaterials[id] == s.failureMaterials[id]
  {
    hide Overlay;
    RecoveryTables(c, s);
    KeyWritten(c.failureMaterials, s.failureMaterials, id);
  }

  lemma MoveCommitted(c: Committed, s: Staged, d: Delivery, m: FailureMaterial, now: Timestamp, e: AuditEntry)
    requires d.history != []
    requires var entry := MovedEntry(d, m);
      && s.deliveries.Keys == {d.deliveryId} && Buried(d, s.deliveries[d.deliveryId], now)
      && s.deadLetters == map[entry.deadLetterId := entry.(version := 1)]
      && s.failureMaterials.Keys == {m.failureMaterialId}
      && s.failureMaterials[m.failureMaterialId] ==
         m.(deadLetterRef := Some(entry.deadLetterId), version := s.failureMaterials[m.failureMaterialId].version)
      && s.audits == [e]
    ensures Moved(c, Overlay(c, s), d, m, now, e)
  {
    hide Overlay, Writes, Buried, MovedEntry;
    DeliveryRow(c, s, d.deliveryId);
    DeadLetterRow(c, s, MovedEntry(d, m).deadLetterId);
    MaterialRow(c, s, m.failureMaterialId);
    EntryLogged(c, s, e);
  }

  lemma MoveEnds(c: Committed, move: DeadLetterMove, actor: Actor, trace: Id, ports: Ports, faults: Faults)
    requires MoveBody(c, move, actor, trace, ports, faults).Ok?
    requires Inv(c) && move.deliveryId in c.deliveries && move.materialRef in c.failureMaterials
    ensures c.deliveries[move.deliveryId].history != [] && ports.auditId.Some?
    ensures Moved(c, Overlay(c, MoveBody(c, move, actor, trace, ports, faults).value.0), c.deliveries[move.deliveryId],
                  c.failureMaterials[move.materialRef], ports.now,
                  MoveEntry(c.deliveries[move.deliveryId], c.failureMaterials[move.materialRef], actor, trace, ports.now, ports.auditId.value))
  {
    hide DeadLetterBody, Overlay, Moved, Inv, MovedEntry;
    var d, m := c.deliveries[move.deliveryId], c.failureMaterials[move.materialRef];
    var s := MoveStages(c, d, m, actor, trace, ports, faults);
    MoveCommitted(c, s, d, m, ports.now, MoveEntry(d, m, actor, trace, ports.now, ports.auditId.value));
  }

  /** A move to dead letter commits exactly when it is movable; it then closes the delivery, stores the entry that names
      its last failure, and links the material to it. */
  lemma MoveDecided(c: Committed, move: DeadLetterMove, actor: Actor, trace: Id, ports: Ports, faults: Faults)
    requires Inv(c)
    ensures var step := MoveToDeadLetter(c, move, actor, trace, ports, faults);
      var after := After(c, step.exit);
      if Movable(c, move, ports, faults) then
        && (var d, m := c.deliveries[move.deliveryId], c.failureMaterials[move.materialRef];
            Moved(c, after, d, m, ports.now, MoveEntry(d, m, actor, trace, ports.now, ports.auditId.value)))
        && step.outcome == Ok(DeadLetterReceipt(DeadLetterId(move.deliveryId, move.materialRef), move.deliveryId, move.materialRef,
                                                ports.auditId.value))
      else after == c && step.outcome.Err?
  {
    hide MoveBody, Inv, IsBlank, Overlay, Moved, DeadLetterId, ChainRef;
    if InvalidMove(move).None? {
      MoveBodyOutcome(c, move, actor, trace, ports, faults);
      if Movable(c, move, ports, faults) {
        MoveEnds(c, move, actor, trace, ports, faults);
      }
    }
  }

  // ---------------------------------------------------------------- preparing a replay

  /** The preparation the request asks for: ready, approved, and carrying the dead letter's chain. */
  function PreparedReplay(r: ReplayRequest): ReplayPreparation {
    ReplayPreparation("replay_preparation_" + Sanitize(r.deadLetterId), r.deadLetterId, Ready, r.auditChainRef, Some(r.approvalRef), 0)
  }

  function ReplayEntry(r: ReplayRequest, actor: Actor, trace: Id, now: Timestamp, auditRef: Id): AuditEntry {
    AuditEntry(auditRef, ReplaySubject(PreparedReplay(r).replayId), ReplayPreparationReady, actor, now, trace)
  }

  /** The request is filled in and privileged; its dead letter is stored, not closed, names a failure and carries the
      chain asked for, which resolves; no preparation is stored under its identifier or approval; nothing fails. */
  ghost predicate Preparable(c: Committed, r: ReplayRequest, actor: Actor, ports: Ports, faults: Faults) {
    && !IsBlank(r.auditChainRef) && !IsBlank(r.approvalRef) && !IsBlank(r.reason) && actor.roleRefs != []
    && r.deadLetterId in c.deadLetters
    && (var e := c.deadLetters[r.deadLetterId];
        e.status != Closed && !IsBlank(e.historyRef) && e.auditChainRef == r.auditChainRef)
    && (exists e | e in c.audits :: ChainRef(e.auditRef) == r.auditChainRef)
    && PreparedReplay(r).replayId !in c.replays && (forall id :: !Approved(c.replays, (r.deadLetterId, r.approvalRef), id))
    && ports.auditId.Some? && faults == NO_FAULTS
  }

  /** A chain resolves when some entry of the log belongs to it. */
  lemma {:induction false} ChainResolves(audits: seq<AuditEntry>, chainRef: Id)
    ensures AuditChain(audits, chainRef) != [] <==> exists e | e in audits :: ChainRef(e.auditRef) == chainRef
  {
    hide ChainRef;
    if audits != [] {
      ChainResolves(audits[1..], chainRef);
      assert audits == [audits[0]] + audits[1..];
    }
  }

  lemma ApprovalsAreScans(c: Committed, k: (Id, Id))
    requires ReplaysIndexed(c.replays, c.readyReplays)
    ensures k !in c.readyReplays <==> forall id :: !Approved(c.replays, k, id)
  {
    if k in c.readyReplays {
      assert Approved(c.replays, k, c.readyReplays[k]);
    }
    forall id | Approved(c.replays, k, id) ensures k in c.readyReplays {
      assert (c.replays[id].deadLetterId, c.replays[id].approvalRef.value) == k;
    }
  }

  lemma ReplaySaves(c: Committed, r: ReplayPreparation)
    requires r.approvalRef.Some?
    ensures SaveReplay(c, Some(NOTHING), r).Ok? <==>
            r.replayId !in c.replays && (r.deadLetterId, r.approvalRef.value) !in c.readyReplays
  {
  }

  lemma StageReadyOutcome(c: Committed, e: DeadLetterEntry, r: ReplayRequest)
    requires !IsBlank(r.auditChainRef) && !IsBlank(r.approvalRef) && e.deadLetterId == r.deadLetterId
    ensures StageReady(c, e, r).Ok? <==>
            && e.status != Closed && !IsBlank(e.historyRef) && e.auditChainRef == r.auditChainRef
            && PreparedReplay(r).replayId !in c.replays && (r.deadLetterId, r.approvalRef) !in c.readyReplays
    ensures StageReady(c, e, r).Ok? ==>
      var (s, ready) := StageReady(c, e, r).value;
      ready == PreparedReplay(r) && s.replays.Keys == {ready.replayId} && s.audits == []
      && s.replays[ready.replayId] == ready.(version := s.replays[ready.replayId].version)
  {
    hide IsBlank, Sanitize;
    ReplaySaves(c, PreparedReplay(r));
  }

  lemma ReplayBodyOutcome(c: Committed, r: ReplayRequest, actor: Actor, trace: Id, ports: Ports, faults: Faults)
    requires Inv(c) && InvalidReplay(r).None? && actor.roleRefs != []
    ensures var body := ReplayBody(c, r, actor, trace, ports, faults);
      && (body.Ok? && faults.commit.None? <==> Preparable(c, r, actor, ports, faults))
      && (body.Ok? ==>
            && ports.auditId.Some?
            && body.value.0.replays.Keys == {PreparedReplay(r).replayId}
            && body.value.0.replays[PreparedReplay(r).replayId] ==
               PreparedReplay(r).(version := body.value.0.replays[PreparedReplay(r).replayId].version)
            && body.value.0.audits == [ReplayEntry(r, actor, trace, ports.now, ports.auditId.value)]
            && body.value.1 == Ok(ReplayReceipt(PreparedReplay(r).replayId, r.deadLetterId, ports.auditId.value)))
  {
    hide StageReady, IsBlank, AuditChain, Inv, Approved, PreparedReplay, ChainRef;
    ChainResolves(c.audits, r.auditChainRef);
    InvApprovals(c, (r.deadLetterId, r.approvalRef));
    PreparedFor(r);
    if r.deadLetterId in c.deadLetters {
      StoredEntry(c, r.deadLetterId);
      StageReadyOutcome(c, c.deadLetters[r.deadLetterId], r);
    }
  }

  lemma PreparedFor(r: ReplayRequest)
    ensures PreparedReplay(r).deadLetterId == r.deadLetterId
  {
  }

  lemma InvApprovals(c: Committed, k: (Id, Id))
    requires Inv(c)
    ensures k !in c.readyReplays <==> forall id :: !Approved(c.replays, k, id)
  {
    hide Rules.WellFormed;
    ApprovalsAreScans(c, k);
  }

  lemma StoredEntry(c: Committed, id: Id)
    requires Inv(c) && id in c.deadLetters
    ensures c.deadLetters[id].deadLetterId == id
  {
    hide Rules.WellFormed;
  }

  /** The preparation is stored and told. */
  ghost predicate ReplayAdded(before: Committed, after: Committed, ready: ReplayPreparation, e: AuditEntry) {
    && ready.replayId !in before.replays && Writes(before.replays, after.replays, ready.replayId)
    && after.replays[ready.replayId] == ready.(version := after.replays[ready.replayId].version)
    && after.audits == before.audits + [e]
  }

  lemma ReplayCommitted(c: Committed, s: Staged, ready: ReplayPreparation, e: AuditEntry)
    requires ready.replayId !in c.replays && s.replays.Keys == {ready.replayId}
    requires s.replays[ready.replayId] == ready.(version := s.replays[ready.replayId].version)
    requires s.audits == [e]
    ensures ReplayAdded(c, Overlay(c, s), ready, e)
  {
    hide Overlay, Writes;
    RecoveryTables(c, s);
    KeyWritten(c.replays, s.replays, ready.replayId);
    EntryLogged(c, s, e);
  }

  /** A replay preparation is stored exactly when it is preparable. Otherwise the replays stay as they were; only a
      caller without roles leaves an entry, outside any transaction. */
  lemma PrepareDecided(c: Committed, r: ReplayRequest, actor: Actor, trace: Id, requestedAt: Timestamp, ports: Ports, faults: Faults)
    requires Inv(c)
    ensures var step := PrepareReplay(c, r, actor, trace, requestedAt, ports, faults);
      var after := After(c, step.exit);
      if Preparable(c, r, actor, ports, faults) then
        && ReplayAdded(c, after, PreparedReplay(r), ReplayEntry(r, actor, trace, ports.now, ports.auditId.value))
        && step.outcome == Ok(ReplayReceipt(PreparedReplay(r).replayId, r.deadLetterId, ports.auditId.value))
      else
        && step.outcome.Err?
        && if InvalidReplay(r).None? && actor.roleRefs == [] && ports.auditId.Some? && faults.append.None? then
             after == AppendAccess(c, AuditEntry(ports.auditId.value, DeadLetterSubject(r.deadLetterId), ReplayAccessRejected, actor,
                                                 requestedAt, trace))
           else after == c
  {
    hide ReplayBody, Inv, IsBlank, Overlay, ReplayAdded, Approved, PreparedReplay, ChainRef;
    if InvalidReplay(r).None? && actor.roleRefs != [] {
      ReplayBodyOutcome(c, r, actor, trace, ports, faults);
      if Preparable(c, r, actor, ports, faults) {
        ReplayCommitted(c, ReplayBody(c, r, actor, trace, ports, faults).value.0, PreparedReplay(r),
                        ReplayEntry(r, actor, trace, ports.now, ports.auditId.value));
      }
    }
  }
}
