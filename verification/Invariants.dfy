/** What every committed state satisfies, and what a lawful transaction keeps. */
module Invariants {
  import opened Common
  import opened Records
  import opened StoreModel
  import opened Indexes
  import opened Budgets
  import opened RecoveryRules
  import opened DeliveryRules
  import opened FeedbackRules
  import PublicationSteps

  // ---------------------------------------------------------------- tables of a committed state

  ghost predicate DeliveriesOk(ds: map<Id, Delivery>, versions: map<Id, nat>) {
    forall id | id in ds :: ds[id].deliveryId == id && WellFormed(ds[id]) && Get(versions, id) == Some(ds[id].version)
  }

  ghost predicate PlansOk(plans: map<Id, RetryPlan>, versions: map<Id, nat>) {
    forall id | id in plans ::
      && plans[id].retryPlanId == id && plans[id].remainingAttempts <= plans[id].maxAttempts
      && plans[id].version > 0 && Get(versions, id) == Some(plans[id].version)
  }

  /** The delivery of a dead letter is dead-lettered, and the entry names the failure just before that. */
  ghost predicate EntryOk(e: DeadLetterEntry, ds: map<Id, Delivery>) {
    && e.deliveryId in ds
    && var d := ds[e.deliveryId];
       var n := |d.history|;
       && d.status == DeadLettered && n >= 2
       && d.history[n - 1].toStatus == DeadLettered
       && d.history[n - 2].toStatus == Failed && d.history[n - 2].historyId == e.historyRef
  }

  ghost predicate DeadLettersOk(entries: map<Id, DeadLetterEntry>, ds: map<Id, Delivery>) {
    forall id | id in entries :: entries[id].deadLetterId == id && EntryOk(entries[id], ds)
  }

  /** Linked material points back to an entry of the same delivery. */
  ghost predicate LinkOk(m: FailureMaterial, entries: map<Id, DeadLetterEntry>) {
    m.deadLetterRef.Some? ==>
      m.deadLetterRef.value in entries && entries[m.deadLetterRef.value].deliveryId == m.deliveryId
  }

  ghost predicate MaterialsOk(ms: map<Id, FailureMaterial>, entries: map<Id, DeadLetterEntry>) {
    forall id | id in ms :: ms[id].failureMaterialId == id && LinkOk(ms[id], entries)
  }

  /** A ready replay carries its dead letter's audit chain, and the chain resolves. */
  ghost predicate ReplayOk(r: ReplayPreparation, entries: map<Id, DeadLetterEntry>, audits: seq<AuditEntry>) {
    r.status == Ready ==>
      && r.deadLetterId in entries && r.auditChainRef == entries[r.deadLetterId].auditChainRef
      && AuditChain(audits, r.auditChainRef) != []
  }

  ghost predicate ReplaysOk(rs: map<Id, ReplayPreparation>, entries: map<Id, DeadLetterEntry>, audits: seq<AuditEntry>) {
    forall id | id in rs :: rs[id].replayId == id && ReplayOk(rs[id], entries, audits)
  }

  /** An anchor is bound to a stored record of the kind its scope creates, fit to be replayed. */
  ghost predicate BoundOk(a: Anchor, publications: map<Id, Acceptance>, feedbacks: map<Id, Feedback>) {
    match a.bound
    case PublicationRef(id) =>
      && (a.scope.action.AcceptPublication? || a.scope.action.ConsumeCommittedOutboxFact?)
      && id in publications && PublicationSteps.RulingOf(publications[id]).Ok?
    case FeedbackRef(id) =>
      id in feedbacks && feedbacks[id].auditRef.Some? && FitsScope(a.scope.action, feedbacks[id].status)
  }

  ghost predicate AnchorsOk(anchors: map<(Scope, Id), Anchor>, publications: map<Id, Acceptance>,
                            feedbacks: map<Id, Feedback>)
  {
    forall k | k in anchors :: anchors[k].scope == k.0 && anchors[k].key == k.1 && BoundOk(anchors[k], publications, feedbacks)
  }

  ghost predicate Inv(c: Committed) {
    && DeliveriesOk(c.deliveries, c.deliveryVersions)
    && PlansOk(c.plans, c.planVersions)
    && DeadLettersOk(c.deadLetters, c.deliveries)
    && MaterialsOk(c.failureMaterials, c.deadLetters)
    && ReplaysOk(c.replays, c.deadLetters, c.audits)
    && AnchorsOk(c.anchors, c.publications, c.feedbacks)
    && IndexesAgree(c)
    && c.auditSequence == |c.audits|
  }

  lemma StoredDelivery(c: Committed, id: Id)
    requires Inv(c) && id in c.deliveries
    ensures c.deliveries[id].deliveryId == id && WellFormed(c.deliveries[id])
    ensures Get(c.deliveryVersions, id) == Some(c.deliveries[id].version)
  {
  }

  lemma StoredPlan(c: Committed, id: Id)
    requires Inv(c) && id in c.plans
    ensures c.plans[id].retryPlanId == id && Get(c.planVersions, id) == Some(c.plans[id].version)
    ensures c.plans[id].remainingAttempts <= c.plans[id].maxAttempts
  {
  }

  // ---------------------------------------------------------------- lawful transactions

  ghost predicate DeliveriesLawful(ds: map<Id, Delivery>, staged: map<Id, Delivery>) {
    forall id | id in staged ::
      id in ds && staged[id].deliveryId == id && WellFormed(staged[id]) && Evolves(ds[id], staged[id])
  }

  /** A plan is new with its whole budget, or the next version of itself with no more runs left than before. */
  ghost predicate PlanLawful(plans: map<Id, RetryPlan>, id: Id, p: RetryPlan) {
    && p.retryPlanId == id && p.remainingAttempts <= p.maxAttempts && p.version > 0
    && (id !in plans ==> p.remainingAttempts == p.maxAttempts)
    && (id in plans ==>
          && p.deliveryId == plans[id].deliveryId && p.maxAttempts == plans[id].maxAttempts
          && p.version == plans[id].version + 1 && RunsLeft(p) < RunsLeft(plans[id]))
  }

  ghost predicate PlansLawful(plans: map<Id, RetryPlan>, staged: map<Id, RetryPlan>) {
    forall id | id in staged :: PlanLawful(plans, id, staged[id])
  }

  ghost predicate DeadLettersLawful(staged: map<Id, DeadLetterEntry>, ds: map<Id, Delivery>,
                                    materials: map<Id, FailureMaterial>)
  {
    && (forall id | id in staged :: EntryOk(staged[id], ds))
    && (forall id | id in materials :: materials[id].failureMaterialId == id && LinkOk(materials[id], staged))
  }

  ghost predicate ReplaysLawful(c: Committed, staged: map<Id, ReplayPreparation>) {
    forall id | id in staged :: ReplayOk(staged[id], c.deadLetters, c.audits)
  }

  /** Publications and anchors are only ever added. */
  ghost predicate AnchorsLawful(c: Committed, s: Staged) {
    && AnchorsOk(s.anchors, s.publications, s.feedbacks)
    && (forall k | k in s.anchors :: k !in c.anchors)
    && (forall id | id in s.publications :: id !in c.publications)
    && (forall id | id in s.materials :: id !in c.materials)
  }

  /** Material, decision, its audit entry and its anchor come together. */
  ghost predicate Logged(s: Staged) {
    && s.materials.Keys == s.publications.Keys
    && (forall id | id in s.publications :: Announced(s, id))
  }

  ghost predicate Announced(s: Staged, id: Id)
    requires id in s.publications
  {
    && PublicationSteps.RulingOf(s.publications[id]).Ok? && s.publications[id].publicationId == id
    && (exists e | e in s.audits ::
          && e.subject == PublicationSubject(id) && s.publications[id].decisionAuditRef == Some(e.auditRef)
          && e.action == PublicationSteps.DecisionAction(s.publications[id].rejectReason))
    && (exists k | k in s.anchors :: s.anchors[k].bound == PublicationRef(id))
  }

  // Every record a transaction writes is logged under its own subject with the action that wrote it.

  ghost predicate LoggedAs(audits: seq<AuditEntry>, subject: Subject, action: Action) {
    exists e | e in audits :: e.subject == subject && e.action == action
  }

  /** A plan is requested when it is new; a run of it exhausts it or attempts its delivery again. */
  function PlanAction(plans: map<Id, RetryPlan>, id: Id, p: RetryPlan): Action {
    if id !in plans then RetryRequested else if p.status == PlanExhausted then RetryExhausted else RetryAttempted
  }

  /** A dispatch is logged with its start and with what came of it. */
  ghost predicate DispatchTold(audits: seq<AuditEntry>, id: Id, status: DeliveryStatus) {
    && LoggedAs(audits, DeliverySubject(id), DeliveryDispatchStarted)
    && ((status == Delivered && LoggedAs(audits, DeliverySubject(id), DeliveryDelivered))
        || (status == Failed && exists why :: LoggedAs(audits, DeliverySubject(id), DeliveryFailed(why))))
  }

  /** A delivery changes with its dispatch told, or with a plan, a feedback or a dead letter of its own. */
  ghost predicate DeliveryTold(s: Staged, id: Id, d: Delivery) {
    || DispatchTold(s.audits, id, d.status)
    || (exists p | p in s.plans :: s.plans[p].deliveryId == id)
    || (exists f | f in s.feedbacks :: s.feedbacks[f].deliveryId == id)
    || (exists x | x in s.deadLetters :: s.deadLetters[x].deliveryId == id && d.status == DeadLettered)
  }

  ghost predicate Told(plans: map<Id, RetryPlan>, s: Staged) {
    && (forall id | id in s.deliveries :: DeliveryTold(s, id, s.deliveries[id]))
    && (forall id | id in s.plans :: LoggedAs(s.audits, RetryPlanSubject(id), PlanAction(plans, id, s.plans[id])))
    && (forall id | id in s.deadLetters :: LoggedAs(s.audits, DeadLetterSubject(id), DeadLetterCreated))
    && (forall id | id in s.replays :: LoggedAs(s.audits, ReplaySubject(id), ReplayPreparationReady))
    && (forall id | id in s.feedbacks ::
          LoggedAs(s.audits, DeliverySubject(s.feedbacks[id].deliveryId), FeedbackRecorded(s.feedbacks[id].status)))
  }

  function Gained(ds: map<Id, Delivery>, staged: map<Id, Delivery>, id: Id): int
    requires id in ds
  {
    if id in staged then |staged[id].attempts| - |ds[id].attempts| else 0
  }

  /** New attempts equal newly spent budget, plus one on the delivery dispatched for the first time. */
  ghost predicate BalancedFor(c: Committed, s: Staged, credit: Option<Id>, id: Id)
    requires id in c.deliveries
  {
    Gained(c.deliveries, s.deliveries, id) ==
    Spent(c.plans + s.plans, id) - Spent(c.plans, id) + (if credit == Some(id) then 1 else 0)
  }

  /** Attempts are paid for; only a delivery never attempted is dispatched without a plan. */
  ghost predicate Balanced(c: Committed, s: Staged, credit: Option<Id>) {
    && (forall id | id in c.deliveries :: BalancedFor(c, s, credit, id))
    && (credit.Some? ==>
          && credit.value in c.deliveries && c.deliveries[credit.value].attempts == []
          && credit.value in s.deliveries && s.deliveries[credit.value].attempts != [])
  }

  ghost predicate Lawful(c: Committed, s: Staged, credit: Option<Id>) {
    LawfulTables(c, s) && Balanced(c, s, credit)
  }

  ghost predicate LawfulTables(c: Committed, s: Staged) {
    && StagedSound(c, s)
    && DeliveriesLawful(c.deliveries, s.deliveries)
    && PlansLawful(c.plans, s.plans)
    && DeadLettersLawful(s.deadLetters, c.deliveries + s.deliveries, s.failureMaterials)
    && ReplaysLawful(c, s.replays)
    && AnchorsLawful(c, s)
    && Logged(s)
    && Told(c.plans, s)
  }

  // ---------------------------------------------------------------- what a step does to the tables

  /** Rows already there are not touched. */
  ghost predicate Kept<K(!new), V(!new)>(before: map<K, V>, after: map<K, V>) {
    forall k | k in before :: k in after && after[k] == before[k]
  }

  ghost predicate DeliveriesEvolve(before: map<Id, Delivery>, after: map<Id, Delivery>) {
    before.Keys == after.Keys && forall id | id in before :: Evolves(before[id], after[id])
  }

  ghost predicate PlansAdvance(before: map<Id, RetryPlan>, after: map<Id, RetryPlan>) {
    forall id | id in before ::
      && id in after && after[id].deliveryId == before[id].deliveryId && after[id].maxAttempts == before[id].maxAttempts
      && after[id].version >= before[id].version
      && RunsLeft(after[id]) + (after[id].version - before[id].version) <= RunsLeft(before[id])
  }

  /** How committed states follow one another. */
  ghost predicate Follows(before: Committed, after: Committed) {
    && DeliveriesEvolve(before.deliveries, after.deliveries)
    && PlansAdvance(before.plans, after.plans)
    && Kept(before.feedbacks, after.feedbacks)
    && Kept(before.publications, after.publications)
    && Kept(before.materials, after.materials)
    && Kept(before.deadLetters, after.deadLetters)
    && Kept(before.replays, after.replays)
    && Kept(before.anchors, after.anchors)
    && before.audits <= after.audits
  }

  lemma FollowsReflexive(c: Committed)
    ensures Follows(c, c)
  {
    forall id | id in c.deliveries ensures Evolves(c.deliveries[id], c.deliveries[id]) {
      EvolvesReflexive(c.deliveries[id]);
    }
  }

  lemma FollowsTransitive(a: Committed, b: Committed, c: Committed)
    requires Follows(a, b) && Follows(b, c)
    ensures Follows(a, c)
  {
    forall id | id in a.deliveries ensures Evolves(a.deliveries[id], c.deliveries[id]) {
      EvolvesTransitive(a.deliveries[id], b.deliveries[id], c.deliveries[id]);
    }
    PlansAdvanceTransitive(a.plans, b.plans, c.plans);
  }

  lemma PlansAdvanceTransitive(a: map<Id, RetryPlan>, b: map<Id, RetryPlan>, c: map<Id, RetryPlan>)
    requires PlansAdvance(a, b) && PlansAdvance(b, c)
    ensures PlansAdvance(a, c)
  {
  }

  // ---------------------------------------------------------------- each table, one commit

  lemma DeliveriesStayOk(ds: map<Id, Delivery>, versions: map<Id, nat>, staged: map<Id, Delivery>)
    requires DeliveriesOk(ds, versions)
    requires forall id | id in staged :: staged[id].deliveryId == id && WellFormed(staged[id])
    ensures DeliveriesOk(ds + staged, versions + DeliveryVersions(staged))
  {
  }

  lemma DeliveriesCommit(ds: map<Id, Delivery>, staged: map<Id, Delivery>)
    requires DeliveriesLawful(ds, staged)
    ensures DeliveriesEvolve(ds, ds + staged)
  {
    forall id | id in ds ensures Evolves(ds[id], (ds + staged)[id]) {
      if id !in staged {
        EvolvesReflexive(ds[id]);
      }
    }
  }

  lemma PlansCommit(plans: map<Id, RetryPlan>, versions: map<Id, nat>, staged: map<Id, RetryPlan>)
    requires PlansOk(plans, versions) && PlansLawful(plans, staged)
    ensures PlansOk(plans + staged, versions + PlanVersions(staged))
    ensures PlansAdvance(plans, plans + staged)
  {
    forall id | id in plans + staged
      ensures Get(versions + PlanVersions(staged), id) == Some((plans + staged)[id].version)
    {
      if id in staged {
        assert PlanLawful(plans, id, staged[id]);
      }
    }
  }

  /** A dead-lettered delivery no longer changes, so its entry stays true. */
  lemma EntryStaysOk(e: DeadLetterEntry, before: map<Id, Delivery>, after: map<Id, Delivery>)
    requires EntryOk(e, before) && DeliveriesEvolve(before, after)
    ensures EntryOk(e, after)
  {
    TerminalIsFinal(before[e.deliveryId], after[e.deliveryId]);
  }

  lemma DeadLettersCommit(entries: map<Id, DeadLetterEntry>, active: map<Id, Id>, staged: map<Id, DeadLetterEntry>,
                          before: map<Id, Delivery>, after: map<Id, Delivery>,
                          ms: map<Id, FailureMaterial>, materials: map<Id, FailureMaterial>)
    requires DeadLettersOk(entries, before) && MaterialsOk(ms, entries) && DeliveriesEvolve(before, after)
    requires DeadLettersSound(entries, active, staged) && DeadLettersLawful(staged, after, materials)
    ensures DeadLettersOk(entries + staged, after) && MaterialsOk(ms + materials, entries + staged)
    ensures Kept(entries, entries + staged)
  {
    forall id | id in entries + staged
      ensures (entries + staged)[id].deadLetterId == id && EntryOk((entries + staged)[id], after)
    {
      if id !in staged {
        EntryStaysOk(entries[id], before, after);
      }
    }
  }

  lemma {:induction false} ChainGrows(xs: seq<AuditEntry>, ys: seq<AuditEntry>, chainRef: Id)
    ensures AuditChain(xs + ys, chainRef) == AuditChain(xs, chainRef) + AuditChain(ys, chainRef)
  {
    if xs == [] {
      assert xs + ys == ys;
    } else {
      assert (xs + ys)[1..] == xs[1..] + ys;
      ChainGrows(xs[1..], ys, chainRef);
    }
  }

  lemma ReplaysCommit(rs: map<Id, ReplayPreparation>, ready: map<(Id, Id), Id>, staged: map<Id, ReplayPreparation>,
                      entries: map<Id, DeadLetterEntry>, later: map<Id, DeadLetterEntry>,
                      audits: seq<AuditEntry>, more: seq<AuditEntry>)
    requires ReplaysOk(rs, entries, audits) && ReplaysSound(rs, ready, staged) && Kept(entries, later)
    requires forall id | id in staged :: ReplayOk(staged[id], entries, audits)
    ensures ReplaysOk(rs + staged, later, audits + more)
    ensures Kept(rs, rs + staged)
  {
    forall id | id in rs + staged ensures ReplayOk((rs + staged)[id], later, audits + more) {
      var r := (rs + staged)[id];
      assert ReplayOk(r, entries, audits);
      ChainGrows(audits, more, r.auditChainRef);
    }
  }

  lemma AnchorsCommit(anchors: map<(Scope, Id), Anchor>, publications: map<Id, Acceptance>, feedbacks: map<Id, Feedback>,
                      more: map<(Scope, Id), Anchor>, newPublications: map<Id, Acceptance>, newFeedbacks: map<Id, Feedback>)
    requires AnchorsOk(anchors, publications, feedbacks) && AnchorsOk(more, newPublications, newFeedbacks)
    requires forall id | id in newPublications :: id !in publications
    requires forall id | id in newFeedbacks :: id !in feedbacks
    requires forall k | k in more :: k !in anchors
    ensures AnchorsOk(anchors + more, publications + newPublications, feedbacks + newFeedbacks)
    ensures Kept(publications, publications + newPublications) && Kept(feedbacks, feedbacks + newFeedbacks)
    ensures Kept(anchors, anchors + more)
  {
    forall k | k in anchors + more
      ensures BoundOk((anchors + more)[k], publications + newPublications, feedbacks + newFeedbacks)
    {
      assert k in more ==> BoundOk(more[k], newPublications, newFeedbacks);
      assert k !in more ==> BoundOk(anchors[k], publications, feedbacks);
    }
  }

  // ---------------------------------------------------------------- one commit, all tables

  /** After a lawful commit every row is the earlier one or a lawful successor of it. */
  lemma LawfulFollows(c: Committed, s: Staged)
    requires Inv(c) && LawfulTables(c, s)
    ensures Follows(c, Overlay(c, s))
  {
    DeliveriesCommit(c.deliveries, s.deliveries);
    PlansCommit(c.plans, c.planVersions, s.plans);
  }

  /** A lawful commit keeps the invariant. */
  lemma LawfulCommit(c: Committed, s: Staged)
    requires Inv(c) && LawfulTables(c, s)
    ensures Inv(Overlay(c, s))
  {
    hide DeliveriesOk, PlansOk, DeadLettersOk, MaterialsOk, ReplaysOk, AnchorsOk, DeliveriesEvolve;
    DeliveriesStayOk(c.deliveries, c.deliveryVersions, s.deliveries);
    DeliveriesCommit(c.deliveries, s.deliveries);
    PlansCommit(c.plans, c.planVersions, s.plans);
    DeadLettersCommit(c.deadLetters, c.activeDeadLetters, s.deadLetters, c.deliveries, c.deliveries + s.deliveries,
                      c.failureMaterials, s.failureMaterials);
    ReplaysCommit(c.replays, c.readyReplays, s.replays, c.deadLetters, c.deadLetters + s.deadLetters, c.audits, s.audits);
    AnchorsCommit(c.anchors, c.publications, c.feedbacks, s.anchors, s.publications, s.feedbacks);
    CommitKeepsIndexes(c, s);
  }

  lemma AccessKeeps(c: Committed, e: AuditEntry)
    requires Inv(c)
    ensures Inv(AppendAccess(c, e)) && Follows(c, AppendAccess(c, e))
  {
    FollowsReflexive(c);
    forall id | id in c.replays ensures ReplayOk(c.replays[id], c.deadLetters, c.audits + [e]) {
      ChainGrows(c.audits, [e], c.replays[id].auditChainRef);
    }
  }
}
