/** The four derived indexes agree with their tables: each lookup is what a full scan would find. */
module Indexes {
  import opened Common
  import opened Records
  import opened StoreModel
  import opened Interleaving

  // ---------------------------------------------------------------- scheduled plans by delivery

  ghost predicate Listed(plans: map<Id, RetryPlan>, d: Id, id: Id) {
    id in plans && plans[id].status == PlanScheduled && plans[id].deliveryId == d
  }

  /** The index maps a delivery to a plan exactly when the plan is stored, scheduled and for that delivery. */
  ghost predicate PlansIndexed(plans: map<Id, RetryPlan>, active: map<Id, Id>) {
    && (forall d | d in active :: Listed(plans, d, active[d]))
    && (forall id | id in plans && plans[id].status == PlanScheduled :: Get(active, plans[id].deliveryId) == Some(id))
  }

  /** No other plan is active for the delivery: the check made when the plan is staged. */
  ghost predicate Unclaimed(active: map<Id, Id>, id: Id, p: RetryPlan) {
    p.status == PlanScheduled ==> Get(active, p.deliveryId) in {None, Some(id)}
  }

  /** The plan does not take a scheduled plan's identifier to another delivery; nothing checks this. */
  ghost predicate Unmoved(plans: map<Id, RetryPlan>, id: Id, p: RetryPlan) {
    id in plans && plans[id].status == PlanScheduled ==> plans[id].deliveryId == p.deliveryId
  }

  /** Writing one plan keeps the index exact if and only if the staging check still holds
      at commit and the plan keeps its delivery. */
  lemma PlanWriteKeepsIndexIff(plans: map<Id, RetryPlan>, active: map<Id, Id>, id: Id, p: RetryPlan)
    requires PlansIndexed(plans, active)
    ensures PlansIndexed(plans[id := p], PlanIndexStep(active, id, p)) <==>
            Unclaimed(active, id, p) && Unmoved(plans, id, p)
  {
    var after, index := plans[id := p], PlanIndexStep(active, id, p);
    if Unclaimed(active, id, p) && Unmoved(plans, id, p) {
      forall q | q in after && after[q].status == PlanScheduled
        ensures Get(index, after[q].deliveryId) == Some(q)
      {
        if q != id {
          assert Get(active, plans[q].deliveryId) == Some(q);
        }
      }
    } else if !Unclaimed(active, id, p) {
      var q := active[p.deliveryId];
      assert Listed(plans, p.deliveryId, q);
      assert after[q] == plans[q] && Get(index, p.deliveryId) == Some(id);
    } else {
      var d := plans[id].deliveryId;
      assert Get(active, d) == Some(id);
      assert d in index && index[d] == id && !Listed(after, d, id);
    }
  }

  /** What staging guarantees about the plans of one transaction. */
  ghost predicate PlansSound(plans: map<Id, RetryPlan>, active: map<Id, Id>, staged: map<Id, RetryPlan>) {
    && (forall id | id in staged ::
          staged[id].retryPlanId == id && Unclaimed(active, id, staged[id]) && Unmoved(plans, id, staged[id]))
    && (forall p, q | p in staged && q in staged && staged[p].status == staged[q].status == PlanScheduled
          && staged[p].deliveryId == staged[q].deliveryId :: p == q)
  }

  lemma {:induction false} PlansStayIndexed(plans: map<Id, RetryPlan>, active: map<Id, Id>,
                                            staged: map<Id, RetryPlan>, ids: seq<Id>)
    requires PlansIndexed(plans, active) && PlansSound(plans, active, staged)
    requires Increasing(ids) && forall id | id in ids :: id in staged
    ensures PlansIndexed(plans + Part(staged, Elements(ids)), PlanIndex(active, staged, ids))
    decreases |ids|
  {
    if ids == [] {
      PartNone(plans, staged);
      assert Elements(ids) == {};
    } else {
      var n := |ids| - 1;
      var id, front := ids[n], ids[..n];
      PlansStayIndexed(plans, active, staged, front);
      Prefix(ids, n);
      assert ids[..n + 1] == ids;
      IncreasingDistinct(ids, n);
      var before, index := plans + Part(staged, Elements(front)), PlanIndex(active, staged, front);
      PartMisses(plans, staged, Elements(front), id);
      if staged[id].status == PlanScheduled && staged[id].deliveryId in index {
        var q := index[staged[id].deliveryId];
        assert Listed(before, staged[id].deliveryId, q);
        if q !in Elements(front) {
          PartMisses(plans, staged, Elements(front), q);
        }
      }
      PlanWriteKeepsIndexIff(before, index, id, staged[id]);
      PartGrows(plans, staged, Elements(front), id);
    }
  }

  lemma IncreasingDistinct(ids: seq<Id>, n: nat)
    requires Increasing(ids) && n < |ids|
    ensures ids[n] !in Elements(ids[..n])
  {
    forall i | 0 <= i < n ensures ids[i] != ids[n] {
      BeforeTotal(ids[i], ids[n]);
    }
  }

  lemma CommitKeepsPlanIndex(plans: map<Id, RetryPlan>, active: map<Id, Id>, staged: map<Id, RetryPlan>)
    requires PlansIndexed(plans, active) && PlansSound(plans, active, staged)
    ensures PlansIndexed(plans + staged, PlanIndex(active, staged, SortedKeys(staged.Keys)))
  {
    var ids := SortedKeys(staged.Keys);
    SortedKeysOrder(staged.Keys);
    PlansStayIndexed(plans, active, staged, ids);
    PartAll(staged, Elements(ids));
  }

  // ---------------------------------------------------------------- dead letters by delivery

  ghost predicate Opened(entries: map<Id, DeadLetterEntry>, d: Id, id: Id) {
    id in entries && entries[id].status != Closed && entries[id].deliveryId == d
  }

  ghost predicate DeadLettersIndexed(entries: map<Id, DeadLetterEntry>, active: map<Id, Id>) {
    && (forall d | d in active :: Opened(entries, d, active[d]))
    && (forall id | id in entries && entries[id].status != Closed :: Get(active, entries[id].deliveryId) == Some(id))
  }

  ghost predicate DeadLettersSound(entries: map<Id, DeadLetterEntry>, active: map<Id, Id>,
                                   staged: map<Id, DeadLetterEntry>)
  {
    && (forall id | id in staged ::
          staged[id].deadLetterId == id && id !in entries && staged[id].deliveryId !in active)
    && (forall p, q | p in staged && q in staged && staged[p].deliveryId == staged[q].deliveryId :: p == q)
  }

  lemma {:induction false} DeadLettersStayIndexed(entries: map<Id, DeadLetterEntry>, active: map<Id, Id>,
                                                  staged: map<Id, DeadLetterEntry>, ids: seq<Id>)
    requires DeadLettersIndexed(entries, active) && DeadLettersSound(entries, active, staged)
    requires Increasing(ids) && forall id | id in ids :: id in staged
    ensures DeadLettersIndexed(entries + Part(staged, Elements(ids)), DeadLetterIndex(active, staged, ids))
    decreases |ids|
  {
    if ids == [] {
      PartNone(entries, staged);
      assert Elements(ids) == {};
    } else {
      var n := |ids| - 1;
      var id, front := ids[n], ids[..n];
      DeadLettersStayIndexed(entries, active, staged, front);
      Prefix(ids, n);
      assert ids[..n + 1] == ids;
      IncreasingDistinct(ids, n);
      var before, index := entries + Part(staged, Elements(front)), DeadLetterIndex(active, staged, front);
      assert staged[id].deliveryId !in index by {
        if staged[id].deliveryId in index {
          PartMissesIf(entries, staged, Elements(front), index[staged[id].deliveryId]);
          assert false;
        }
      }
      PartMisses(entries, staged, Elements(front), id);
      DeadLetterInsertKeepsIndex(before, index, id, staged[id]);
      PartGrows(entries, staged, Elements(front), id);
    }
  }

  lemma DeadLetterInsertKeepsIndex(entries: map<Id, DeadLetterEntry>, active: map<Id, Id>, id: Id, e: DeadLetterEntry)
    requires DeadLettersIndexed(entries, active) && id !in entries && e.deliveryId !in active
    ensures DeadLettersIndexed(entries[id := e], DeadLetterIndexStep(active, id, e))
  {
    forall q | q in entries && entries[q].status != Closed ensures entries[q].deliveryId != e.deliveryId {
      assert Get(active, entries[q].deliveryId) == Some(q);
    }
  }

  lemma CommitKeepsDeadLetterIndex(entries: map<Id, DeadLetterEntry>, active: map<Id, Id>,
                                   staged: map<Id, DeadLetterEntry>)
    requires DeadLettersIndexed(entries, active) && DeadLettersSound(entries, active, staged)
    ensures DeadLettersIndexed(entries + staged, DeadLetterIndex(active, staged, SortedKeys(staged.Keys)))
  {
    var ids := SortedKeys(staged.Keys);
    SortedKeysOrder(staged.Keys);
    DeadLettersStayIndexed(entries, active, staged, ids);
    PartAll(staged, Elements(ids));
  }

  // ---------------------------------------------------------------- feedback by source

  ghost predicate SourceOf(feedbacks: map<Id, Feedback>, source: (Id, Id), id: Id) {
    id in feedbacks && feedbacks[id].deliveryId == source.0 && feedbacks[id].externalRef == source.1
  }

  /** The index is the inverse of the table. */
  ghost predicate FeedbackIndexed(feedbacks: map<Id, Feedback>, sources: map<(Id, Id), Id>) {
    && (forall k | k in sources :: SourceOf(feedbacks, k, sources[k]))
    && (forall id | id in feedbacks ::
          Get(sources, (feedbacks[id].deliveryId, feedbacks[id].externalRef)) == Some(id))
  }

  ghost predicate FeedbackSound(feedbacks: map<Id, Feedback>, sources: map<(Id, Id), Id>,
                                staged: map<Id, Feedback>, stagedSources: map<(Id, Id), Id>)
  {
    && FeedbackIndexed(staged, stagedSources)
    && (forall id | id in staged :: id !in feedbacks)
    && (forall k | k in stagedSources :: k !in sources)
  }

  lemma CommitKeepsFeedbackIndex(feedbacks: map<Id, Feedback>, sources: map<(Id, Id), Id>,
                                 staged: map<Id, Feedback>, stagedSources: map<(Id, Id), Id>)
    requires FeedbackIndexed(feedbacks, sources) && FeedbackSound(feedbacks, sources, staged, stagedSources)
    ensures FeedbackIndexed(feedbacks + staged, sources + stagedSources)
  {
    var after := feedbacks + staged;
    forall k | k in sources + stagedSources ensures SourceOf(after, k, (sources + stagedSources)[k]) {
      if k in stagedSources {
        assert SourceOf(staged, k, stagedSources[k]);
      } else {
        assert SourceOf(feedbacks, k, sources[k]);
      }
    }
    forall id | id in after
      ensures Get(sources + stagedSources, (after[id].deliveryId, after[id].externalRef)) == Some(id)
    {
      if id in staged {
        assert Get(stagedSources, (staged[id].deliveryId, staged[id].externalRef)) == Some(id);
      } else {
        assert Get(sources, (feedbacks[id].deliveryId, feedbacks[id].externalRef)) == Some(id);
      }
    }
  }

  // ---------------------------------------------------------------- approved replays

  ghost predicate Approved(replays: map<Id, ReplayPreparation>, k: (Id, Id), id: Id) {
    id in replays && replays[id].deadLetterId == k.0 && replays[id].approvalRef == Some(k.1)
  }

  ghost predicate ReplaysIndexed(replays: map<Id, ReplayPreparation>, ready: map<(Id, Id), Id>) {
    && (forall k | k in ready :: Approved(replays, k, ready[k]))
    && (forall id | id in replays && replays[id].approvalRef.Some? ::
          Get(ready, (replays[id].deadLetterId, replays[id].approvalRef.value)) == Some(id))
  }

  ghost predicate ReplaysSound(replays: map<Id, ReplayPreparation>, ready: map<(Id, Id), Id>,
                               staged: map<Id, ReplayPreparation>)
  {
    && (forall id | id in staged ::
          && staged[id].replayId == id && id !in replays
          && (staged[id].approvalRef.Some? ==> (staged[id].deadLetterId, staged[id].approvalRef.value) !in ready))
    && (forall p, q | p in staged && q in staged && staged[p].approvalRef.Some?
          && staged[p].deadLetterId == staged[q].deadLetterId && staged[p].approvalRef == staged[q].approvalRef :: p == q)
  }

  lemma {:induction false} ReplaysStayIndexed(replays: map<Id, ReplayPreparation>, ready: map<(Id, Id), Id>,
                                              staged: map<Id, ReplayPreparation>, ids: seq<Id>)
    requires ReplaysIndexed(replays, ready) && ReplaysSound(replays, ready, staged)
    requires Increasing(ids) && forall id | id in ids :: id in staged
    ensures ReplaysIndexed(replays + Part(staged, Elements(ids)), ReadyIndex(ready, staged, ids))
    decreases |ids|
  {
    if ids == [] {
      PartNone(replays, staged);
      assert Elements(ids) == {};
    } else {
      var n := |ids| - 1;
      var id, front := ids[n], ids[..n];
      ReplaysStayIndexed(replays, ready, staged, front);
      Prefix(ids, n);
      assert ids[..n + 1] == ids;
      IncreasingDistinct(ids, n);
      var before, index := replays + Part(staged, Elements(front)), ReadyIndex(ready, staged, front);
      if staged[id].approvalRef.Some? {
        var k := (staged[id].deadLetterId, staged[id].approvalRef.value);
        assert k !in index by {
          if k in index {
            PartMissesIf(replays, staged, Elements(front), index[k]);
            assert false;
          }
        }
      }
      PartMisses(replays, staged, Elements(front), id);
      ReplayInsertKeepsIndex(before, index, id, staged[id]);
      PartGrows(replays, staged, Elements(front), id);
    }
  }

  lemma ReplayInsertKeepsIndex(replays: map<Id, ReplayPreparation>, ready: map<(Id, Id), Id>, id: Id,
                               r: ReplayPreparation)
    requires ReplaysIndexed(replays, ready) && id !in replays
    requires r.approvalRef.Some? ==> (r.deadLetterId, r.approvalRef.value) !in ready
    ensures ReplaysIndexed(replays[id := r], ReadyIndexStep(ready, id, r))
  {
    var after, index := replays[id := r], ReadyIndexStep(ready, id, r);
    forall k | k in index ensures Approved(after, k, index[k]) {
      if k in ready {
        assert Approved(replays, k, ready[k]);
      }
    }
    forall q | q in after && after[q].approvalRef.Some?
      ensures Get(index, (after[q].deadLetterId, after[q].approvalRef.value)) == Some(q)
    {
      if q != id {
        assert Get(ready, (replays[q].deadLetterId, replays[q].approvalRef.value)) == Some(q);
      }
    }
  }

  lemma CommitKeepsReadyIndex(replays: map<Id, ReplayPreparation>, ready: map<(Id, Id), Id>,
                              staged: map<Id, ReplayPreparation>)
    requires ReplaysIndexed(replays, ready) && ReplaysSound(replays, ready, staged)
    ensures ReplaysIndexed(replays + staged, ReadyIndex(ready, staged, SortedKeys(staged.Keys)))
  {
    var ids := SortedKeys(staged.Keys);
    SortedKeysOrder(staged.Keys);
    ReplaysStayIndexed(replays, ready, staged, ids);
    PartAll(staged, Elements(ids));
  }

  // ---------------------------------------------------------------- whole runs

  ghost predicate IndexesAgree(c: Committed) {
    && PlansIndexed(c.plans, c.activePlans)
    && DeadLettersIndexed(c.deadLetters, c.activeDeadLetters)
    && FeedbackIndexed(c.feedbacks, c.feedbackSources)
    && ReplaysIndexed(c.replays, c.readyReplays)
  }

  ghost predicate StagedSound(c: Committed, s: Staged) {
    && PlansSound(c.plans, c.activePlans, s.plans)
    && DeadLettersSound(c.deadLetters, c.activeDeadLetters, s.deadLetters)
    && FeedbackSound(c.feedbacks, c.feedbackSources, s.feedbacks, s.feedbackSources)
    && ReplaysSound(c.replays, c.readyReplays, s.replays)
  }

  lemma CommitKeepsIndexes(c: Committed, s: Staged)
    requires IndexesAgree(c) && StagedSound(c, s)
    ensures IndexesAgree(Overlay(c, s))
  {
    CommitKeepsPlanIndex(c.plans, c.activePlans, s.plans);
    CommitKeepsDeadLetterIndex(c.deadLetters, c.activeDeadLetters, s.deadLetters);
    CommitKeepsFeedbackIndex(c.feedbacks, c.feedbackSources, s.feedbacks, s.feedbackSources);
    CommitKeepsReadyIndex(c.replays, c.readyReplays, s.replays);
  }

  /** The one thing a caller must see to: a plan is saved for the delivery it was created for. */
  ghost predicate KeepsDelivery(c: Committed, op: Op) {
    op.SavePlanOp? ==> Unmoved(c.plans, op.plan.retryPlanId, op.plan)
  }

  lemma PlanPlacedSound(plans: map<Id, RetryPlan>, active: map<Id, Id>, staged: map<Id, RetryPlan>, p: RetryPlan, v: nat)
    requires PlansSound(plans, active, staged)
    requires Unclaimed(active, p.retryPlanId, p) && Unmoved(plans, p.retryPlanId, p)
    requires p.status == PlanScheduled ==> !OtherScheduled(staged, p)
    ensures PlansSound(plans, active, staged[p.retryPlanId := p.(version := v)])
  {
  }

  lemma DeadLetterPlacedSound(entries: map<Id, DeadLetterEntry>, active: map<Id, Id>,
                              staged: map<Id, DeadLetterEntry>, e: DeadLetterEntry)
    requires DeadLettersSound(entries, active, staged)
    requires e.deadLetterId !in entries && e.deliveryId !in active && !SameDelivery(staged, e)
    ensures DeadLettersSound(entries, active, staged[e.deadLetterId := e.(version := 1)])
  {
  }

  lemma FeedbackPlacedSound(feedbacks: map<Id, Feedback>, sources: map<(Id, Id), Id>, staged: map<Id, Feedback>,
                            stagedSources: map<(Id, Id), Id>, f: Feedback, v: nat)
    requires FeedbackSound(feedbacks, sources, staged, stagedSources)
    requires f.feedbackId !in feedbacks && f.feedbackId !in staged
    requires (f.deliveryId, f.externalRef) !in sources && (f.deliveryId, f.externalRef) !in stagedSources
    ensures FeedbackSound(feedbacks, sources, staged[f.feedbackId := f.(version := v)],
                          stagedSources[(f.deliveryId, f.externalRef) := f.feedbackId])
  {
    var after, index := staged[f.feedbackId := f.(version := v)], stagedSources[(f.deliveryId, f.externalRef) := f.feedbackId];
    forall k | k in index ensures SourceOf(after, k, index[k]) {
      if k in stagedSources {
        assert SourceOf(staged, k, stagedSources[k]);
      }
    }
  }

  lemma ReplayPlacedSound(replays: map<Id, ReplayPreparation>, ready: map<(Id, Id), Id>,
                          staged: map<Id, ReplayPreparation>, r: ReplayPreparation, v: nat)
    requires ReplaysSound(replays, ready, staged)
    requires r.replayId !in replays
    requires r.approvalRef.Some? ==> (r.deadLetterId, r.approvalRef.value) !in ready && !SameApproval(staged, r)
    ensures ReplaysSound(replays, ready, staged[r.replayId := r.(version := v)])
  {
  }

  ghost predicate SameIndexed(s: Staged, t: Staged) {
    && t.plans == s.plans && t.deadLetters == s.deadLetters && t.replays == s.replays
    && t.feedbacks == s.feedbacks && t.feedbackSources == s.feedbackSources
  }

  lemma PlanCallSound(c: Committed, s: Staged, p: RetryPlan, v: Option<nat>)
    requires StagedSound(c, s) && Unmoved(c.plans, p.retryPlanId, p) && SavePlan(c, Some(s), p, v).Ok?
    ensures StagedSound(c, SavePlan(c, Some(s), p, v).value.0)
  {
    PlanPlacedSound(c.plans, c.activePlans, s.plans, p, Number(Get(c.planVersions, p.retryPlanId)) + 1);
  }

  lemma DeadLetterCallSound(c: Committed, s: Staged, e: DeadLetterEntry, m: FailureMaterial)
    requires StagedSound(c, s) && SaveDeadLetter(c, Some(s), e, m).Ok?
    ensures StagedSound(c, SaveDeadLetter(c, Some(s), e, m).value.0)
  {
    DeadLetterPlacedSound(c.deadLetters, c.activeDeadLetters, s.deadLetters, e);
  }

  lemma FeedbackCallSound(c: Committed, s: Staged, f: Feedback)
    requires StagedSound(c, s) && InsertFeedback(c, Some(s), f).Ok?
    ensures StagedSound(c, InsertFeedback(c, Some(s), f).value.0)
  {
    FeedbackPlacedSound(c.feedbacks, c.feedbackSources, s.feedbacks, s.feedbackSources, f,
                        Number(Get(c.feedbackVersions, f.feedbackId)) + 1);
  }

  lemma ReplayCallSound(c: Committed, s: Staged, r: ReplayPreparation)
    requires StagedSound(c, s) && SaveReplay(c, Some(s), r).Ok?
    ensures StagedSound(c, SaveReplay(c, Some(s), r).value.0)
  {
    ReplayPlacedSound(c.replays, c.readyReplays, s.replays, r, Number(Get(c.replayVersions, r.replayId)) + 1);
  }

  lemma OtherCalls(c: Committed, s: Staged, op: Op)
    requires !op.SavePlanOp? && !op.SaveDeadLetterOp? && !op.InsertFeedbackOp? && !op.SaveReplayOp?
    ensures SameIndexed(s, Stage(c, s, op).0)
  {
    hide SavePlan, SaveDeadLetter, InsertFeedback, SaveReplay, NextAfter;
    match op {
      case SaveDeliveryOp(d, v) =>
      case InsertPublicationOp(a) =>
      case StoreMaterialOp(m) =>
      case BindAnchorOp(a) =>
      case MarkConflictOp(k) =>
      case AppendAuditOp(e) =>
      case UpsertViewOp(v) =>
      case UpsertSummaryOp(v) =>
      case UpsertHealthOp(v) =>
    }
  }

  lemma StagingKeepsSound(c: Committed, s: Staged, op: Op)
    requires StagedSound(c, s) && KeepsDelivery(c, op)
    ensures StagedSound(c, Stage(c, s, op).0)
  {
    match op {
      case SavePlanOp(p, v) => if SavePlan(c, Some(s), p, v).Ok? { PlanCallSound(c, s, p, v); }
      case SaveDeadLetterOp(e, m) => if SaveDeadLetter(c, Some(s), e, m).Ok? { DeadLetterCallSound(c, s, e, m); }
      case InsertFeedbackOp(f) => if InsertFeedback(c, Some(s), f).Ok? { FeedbackCallSound(c, s, f); }
      case SaveReplayOp(r) => if SaveReplay(c, Some(s), r).Ok? { ReplayCallSound(c, s, r); }
      case _ => OtherCalls(c, s, op);
    }
  }

  lemma {:induction false} ScriptSound(c: Committed, ops: seq<Op>)
    requires forall i | 0 <= i < |ops| :: KeepsDelivery(c, ops[i])
    ensures StagedSound(c, Script(c, ops).0)
    decreases |ops|
  {
    if ops != [] {
      var front := ops[..|ops| - 1];
      ScriptSound(c, front);
      StagingKeepsSound(c, Script(c, front).0, ops[|ops| - 1]);
    }
  }

  ghost predicate UnitKeepsDelivery(c: Committed, unit: Unit) {
    unit.Transaction? ==> forall i | 0 <= i < |unit.ops| :: KeepsDelivery(c, unit.ops[i])
  }

  /** Every unit of a serial run saves plans for the deliveries they were created for. */
  ghost predicate UnitsKeepDelivery(c: Committed, units: seq<Unit>)
    decreases |units|
  {
    units == [] ||
    (var n := |units| - 1;
     UnitsKeepDelivery(c, units[..n]) && UnitKeepsDelivery(Serially(c, units[..n]), units[n]))
  }

  lemma UnitKeepsIndexes(c: Committed, unit: Unit)
    requires IndexesAgree(c) && UnitKeepsDelivery(c, unit)
    ensures IndexesAgree(Applied(c, unit))
  {
    match unit
    case Transaction(ops, _) =>
      ScriptSound(c, ops);
      CommitKeepsIndexes(c, Script(c, ops).0);
    case Access(_) =>
  }

  /** In every serial run each index stays exactly the scan of its table. */
  lemma {:induction false} SerialRunsKeepIndexes(c: Committed, units: seq<Unit>)
    requires IndexesAgree(c) && UnitsKeepDelivery(c, units)
    ensures IndexesAgree(Serially(c, units))
    decreases |units|
  {
    if units != [] {
      var n := |units| - 1;
      SerialRunsKeepIndexes(c, units[..n]);
      UnitKeepsIndexes(Serially(c, units[..n]), units[n]);
    }
  }

  /** So does every conflict-free interleaving. */
  lemma InterleavingsKeepIndexes(c: Committed, events: seq<Event>)
    requires IndexesAgree(c) && AllConflictFree(Start(c), events)
    requires UnitsKeepDelivery(c, Interleaved(Start(c), events).serial)
    ensures IndexesAgree(Interleaved(Start(c), events).committed)
  {
    InterleavingIsSerial(c, events);
    SerialRunsKeepIndexes(c, Interleaved(Start(c), events).serial);
  }

  /** Each index answers exactly what a scan of its table would find; a delivery has at most one scheduled
      plan and one open dead letter, a source at most one feedback and an approval at most one replay. */
  ghost predicate LookupsAreScans(c: Committed) {
    && (forall d, p :: Get(c.activePlans, d) == Some(p) <==> Listed(c.plans, d, p))
    && (forall d, x :: Get(c.activeDeadLetters, d) == Some(x) <==> Opened(c.deadLetters, d, x))
    && (forall k, f :: Get(c.feedbackSources, k) == Some(f) <==> SourceOf(c.feedbacks, k, f))
    && (forall k, r :: Get(c.readyReplays, k) == Some(r) <==> Approved(c.replays, k, r))
  }

  lemma AgreeingLookups(c: Committed)
    requires IndexesAgree(c)
    ensures LookupsAreScans(c)
  {
    forall d, p ensures Get(c.activePlans, d) == Some(p) <==> Listed(c.plans, d, p) {
      if d in c.activePlans {
        assert Listed(c.plans, d, c.activePlans[d]);
      }
    }
    forall d, x ensures Get(c.activeDeadLetters, d) == Some(x) <==> Opened(c.deadLetters, d, x) {
      if d in c.activeDeadLetters {
        assert Opened(c.deadLetters, d, c.activeDeadLetters[d]);
      }
    }
    forall k, f ensures Get(c.feedbackSources, k) == Some(f) <==> SourceOf(c.feedbacks, k, f) {
      if SourceOf(c.feedbacks, k, f) {
        assert (c.feedbacks[f].deliveryId, c.feedbacks[f].externalRef) == k;
      }
    }
    forall k, r ensures Get(c.readyReplays, k) == Some(r) <==> Approved(c.replays, k, r) {
      if Approved(c.replays, k, r) {
        assert (c.replays[r].deadLetterId, c.replays[r].approvalRef.value) == k;
      }
    }
  }
}
