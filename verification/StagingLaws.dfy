/** What a staging call is told, read off the stored records, and why a stale save never commits. */
module StagingLaws {
  import opened Common
  import opened Records
  import opened StoreModel
  import opened Interleaving
  import opened Indexes

  // ---------------------------------------------------------------- who is told what

  /** The call saves a record under a version other than the committed one, or links material never stored. */
  ghost predicate Stale(c: Committed, op: Op) {
    match op
    case SaveDeliveryOp(d, v) => Get(c.deliveryVersions, d.deliveryId) != Some(v)
    case SavePlanOp(p, v) => v.Some? && v.value != Number(Get(c.planVersions, p.retryPlanId))
    case SaveDeadLetterOp(e, m) =>
      m.failureMaterialId !in c.failureMaterialVersions && e.deadLetterId !in c.deadLetters && NoneOpen(c.deadLetters, e.deliveryId)
    case _ => false
  }

  ghost predicate NoneOpen(entries: map<Id, DeadLetterEntry>, d: Id) {
    forall x :: !Opened(entries, d, x)
  }

  /** Another plan is scheduled for the plan's delivery. */
  ghost predicate Rivalled(plans: map<Id, RetryPlan>, p: RetryPlan) {
    exists id :: id != p.retryPlanId && Listed(plans, p.deliveryId, id)
  }

  ghost predicate SourceTaken(feedbacks: map<Id, Feedback>, f: Feedback) {
    f.feedbackId in feedbacks || exists id :: SourceOf(feedbacks, (f.deliveryId, f.externalRef), id)
  }

  ghost predicate ReplayTaken(replays: map<Id, ReplayPreparation>, r: ReplayPreparation) {
    || r.replayId in replays
    || (r.approvalRef.Some? && exists id :: Approved(replays, (r.deadLetterId, r.approvalRef.value), id))
  }

  /** What the call would store is already there, committed or staged in its own transaction: a scan of the tables. */
  ghost predicate Taken(c: Committed, s: Staged, op: Op) {
    match op
    case SaveDeliveryOp(_, _) => false
    case InsertFeedbackOp(f) => SourceTaken(c.feedbacks, f) || SourceTaken(s.feedbacks, f)
    case InsertPublicationOp(a) => a.publicationId in c.publications || a.publicationId in s.publications
    case StoreMaterialOp(m) => m.publicationId in c.materials || m.publicationId in s.materials
    case SavePlanOp(p, v) =>
      || (v.None? && Number(Get(c.planVersions, p.retryPlanId)) != 0)
      || (p.status == PlanScheduled && (Rivalled(c.plans, p) || Rivalled(s.plans, p)))
    case SaveDeadLetterOp(e, m) =>
      || e.deadLetterId in c.deadLetters || !NoneOpen(c.deadLetters, e.deliveryId)
      || e.deadLetterId in s.deadLetters || exists x :: x in s.deadLetters && s.deadLetters[x].deliveryId == e.deliveryId
    case SaveReplayOp(r) => ReplayTaken(c.replays, r) || ReplayTaken(s.replays, r)
    case BindAnchorOp(a) => (a.scope, a.key) in c.anchors || (a.scope, a.key) in s.anchors
    case _ => false
  }

  /** The number a call that is not refused is told. */
  ghost function NumberTold(c: Committed, op: Op): Option<nat> {
    match op
    case SaveDeliveryOp(_, v) => Some(v + 1)
    case InsertFeedbackOp(f) => Some(Number(Get(c.feedbackVersions, f.feedbackId)) + 1)
    case InsertPublicationOp(a) => Some(Number(Get(c.publicationVersions, a.publicationId)) + 1)
    case SavePlanOp(p, _) => Some(Number(Get(c.planVersions, p.retryPlanId)) + 1)
    case SaveDeadLetterOp(_, _) => Some(1)
    case SaveReplayOp(r) => Some(Number(Get(c.replayVersions, r.replayId)) + 1)
    case _ => None
  }

  lemma RivalsIndexed(c: Committed, s: Staged, p: RetryPlan)
    requires PlansIndexed(c.plans, c.activePlans) && PlansSound(c.plans, c.activePlans, s.plans)
    ensures Rivalled(c.plans, p) <==> p.deliveryId in c.activePlans && c.activePlans[p.deliveryId] != p.retryPlanId
    ensures Rivalled(s.plans, p) <==> OtherScheduled(s.plans, p)
  {
    if p.deliveryId in c.activePlans {
      assert Listed(c.plans, p.deliveryId, c.activePlans[p.deliveryId]);
    }
    if OtherScheduled(s.plans, p) {
      var id :| id in s.plans && s.plans[id].deliveryId == p.deliveryId && s.plans[id].status == PlanScheduled
                && s.plans[id].retryPlanId != p.retryPlanId;
      assert Listed(s.plans, p.deliveryId, id);
    }
  }

  lemma PlanReply(c: Committed, s: Staged, p: RetryPlan, v: Option<nat>)
    requires PlansIndexed(c.plans, c.activePlans) && PlansSound(c.plans, c.activePlans, s.plans)
    ensures var op := SavePlanOp(p, v);
      Stage(c, s, op).1 == if Stale(c, op) then Refused(VersionConflict) else if Taken(c, s, op) then Refused(UniqueViolation)
                           else Numbered(NumberTold(c, op).value)
  {
    RivalsIndexed(c, s, p);
  }

  lemma DeadLetterReply(c: Committed, s: Staged, e: DeadLetterEntry, m: FailureMaterial)
    requires DeadLettersIndexed(c.deadLetters, c.activeDeadLetters)
    ensures var op := SaveDeadLetterOp(e, m);
      Stage(c, s, op).1 == if Stale(c, op) then Refused(VersionConflict) else if Taken(c, s, op) then Refused(UniqueViolation)
                           else Numbered(1)
  {
    if e.deliveryId in c.activeDeadLetters {
      assert Opened(c.deadLetters, e.deliveryId, c.activeDeadLetters[e.deliveryId]);
    }
    assert e.deliveryId in c.activeDeadLetters <==> !NoneOpen(c.deadLetters, e.deliveryId);
  }

  lemma SourcesIndexed(feedbacks: map<Id, Feedback>, sources: map<(Id, Id), Id>, f: Feedback)
    requires FeedbackIndexed(feedbacks, sources)
    ensures SourceTaken(feedbacks, f) <==> f.feedbackId in feedbacks || (f.deliveryId, f.externalRef) in sources
  {
    var k := (f.deliveryId, f.externalRef);
    if k in sources {
      assert SourceOf(feedbacks, k, sources[k]);
    }
    forall id | SourceOf(feedbacks, k, id) ensures k in sources {
      assert (feedbacks[id].deliveryId, feedbacks[id].externalRef) == k;
    }
  }

  lemma FeedbackReply(c: Committed, s: Staged, f: Feedback)
    requires FeedbackIndexed(c.feedbacks, c.feedbackSources) && FeedbackIndexed(s.feedbacks, s.feedbackSources)
    ensures var op := InsertFeedbackOp(f);
      Stage(c, s, op).1 == if Taken(c, s, op) then Refused(UniqueViolation) else Numbered(NumberTold(c, op).value)
  {
    hide SourceTaken;
    SourcesIndexed(c.feedbacks, c.feedbackSources, f);
    SourcesIndexed(s.feedbacks, s.feedbackSources, f);
  }

  lemma ReplaysTaken(c: Committed, s: Staged, r: ReplayPreparation)
    requires ReplaysIndexed(c.replays, c.readyReplays)
    ensures ReplayTaken(c.replays, r) <==>
            r.replayId in c.replays || (r.approvalRef.Some? && (r.deadLetterId, r.approvalRef.value) in c.readyReplays)
    ensures ReplayTaken(s.replays, r) <==> r.replayId in s.replays || (r.approvalRef.Some? && SameApproval(s.replays, r))
  {
    if r.approvalRef.Some? {
      var k := (r.deadLetterId, r.approvalRef.value);
      if k in c.readyReplays {
        assert Approved(c.replays, k, c.readyReplays[k]);
      }
      forall id | Approved(c.replays, k, id) ensures k in c.readyReplays {
        assert (c.replays[id].deadLetterId, c.replays[id].approvalRef.value) == k;
      }
      if SameApproval(s.replays, r) {
        var id :| id in s.replays && s.replays[id].deadLetterId == r.deadLetterId && s.replays[id].approvalRef == r.approvalRef;
        assert Approved(s.replays, k, id);
      }
    }
  }

  lemma ReplayReply(c: Committed, s: Staged, r: ReplayPreparation)
    requires ReplaysIndexed(c.replays, c.readyReplays)
    ensures var op := SaveReplayOp(r);
      Stage(c, s, op).1 == if Taken(c, s, op) then Refused(UniqueViolation) else Numbered(NumberTold(c, op).value)
  {
    hide ReplayTaken;
    ReplaysTaken(c, s, r);
  }

  lemma OtherReplies(c: Committed, s: Staged, op: Op)
    requires !op.SavePlanOp? && !op.SaveDeadLetterOp? && !op.InsertFeedbackOp? && !op.SaveReplayOp?
    ensures var reply := Stage(c, s, op).1;
      && (reply == Refused(VersionConflict) <==> Stale(c, op))
      && (reply == Refused(UniqueViolation) <==> !Stale(c, op) && Taken(c, s, op))
      && (reply.Refused? <==> Stale(c, op) || Taken(c, s, op))
      && (!reply.Refused? && NumberTold(c, op).Some? ==> reply == Numbered(NumberTold(c, op).value))
  {
    hide NextAfter, SavePlan, SaveReplay, SaveDeadLetter, InsertFeedback;
  }

  /** A staging call is refused for its version exactly when the version is stale, else for uniqueness exactly
      when a scan of the committed and staged tables finds what it would store already taken, and is
      otherwise told the version it will have. */
  lemma RepliesMeanScans(c: Committed, s: Staged, op: Op)
    requires IndexesAgree(c) && StagedSound(c, s)
    ensures var reply := Stage(c, s, op).1;
      && (reply == Refused(VersionConflict) <==> Stale(c, op))
      && (reply == Refused(UniqueViolation) <==> !Stale(c, op) && Taken(c, s, op))
      && (reply.Refused? <==> Stale(c, op) || Taken(c, s, op))
      && (!reply.Refused? && NumberTold(c, op).Some? ==> reply == Numbered(NumberTold(c, op).value))
  {
    hide Stage, Taken;
    match op {
      case SavePlanOp(p, v) => PlanReply(c, s, p, v);
      case SaveDeadLetterOp(e, m) => DeadLetterReply(c, s, e, m);
      case InsertFeedbackOp(f) => FeedbackReply(c, s, f);
      case SaveReplayOp(r) => ReplayReply(c, s, r);
      case _ => OtherReplies(c, s, op);
    }
  }

  // ---------------------------------------------------------------- stale saves

  /** The record a call saves under a version. */
  datatype VersionedRow = DeliveryOf(deliveryId: Id) | PlanOf(retryPlanId: Id)

  ghost function Target(op: Op): Option<VersionedRow> {
    match op
    case SaveDeliveryOp(d, _) => Some(DeliveryOf(d.deliveryId))
    case SavePlanOp(p, _) => Some(PlanOf(p.retryPlanId))
    case _ => None
  }

  /** The call saves the record under this version. */
  ghost predicate SavesUnder(op: Op, target: VersionedRow, v: nat) {
    match op
    case SaveDeliveryOp(d, expected) => target == DeliveryOf(d.deliveryId) && expected == v
    case SavePlanOp(p, expected) => target == PlanOf(p.retryPlanId) && expected == Some(v)
    case _ => false
  }

  /** The committed version of the record; none counts as zero. */
  ghost function VersionIn(c: Committed, target: VersionedRow): nat {
    match target
    case DeliveryOf(id) => Number(Get(c.deliveryVersions, id))
    case PlanOf(id) => Number(Get(c.planVersions, id))
  }

  ghost predicate StagedIn(s: Staged, target: VersionedRow) {
    match target
    case DeliveryOf(id) => id in s.deliveries
    case PlanOf(id) => id in s.plans
  }

  /** Whatever is staged carries the version after the committed one. */
  ghost predicate AtNextVersions(c: Committed, s: Staged) {
    && (forall id | id in s.deliveries :: s.deliveries[id].version == Number(Get(c.deliveryVersions, id)) + 1)
    && (forall id | id in s.plans :: s.plans[id].version == Number(Get(c.planVersions, id)) + 1)
  }

  lemma DeliveryCallVersions(c: Committed, s: Staged, d: Delivery, v: nat)
    requires AtNextVersions(c, s)
    ensures var (after, reply) := Stage(c, s, SaveDeliveryOp(d, v));
      && AtNextVersions(c, after) && (forall t | StagedIn(s, t) :: StagedIn(after, t))
      && (!reply.Refused? ==> StagedIn(after, DeliveryOf(d.deliveryId)))
  {
  }

  lemma PlanCallVersions(c: Committed, s: Staged, p: RetryPlan, v: Option<nat>)
    requires AtNextVersions(c, s)
    ensures var (after, reply) := Stage(c, s, SavePlanOp(p, v));
      && AtNextVersions(c, after) && (forall t | StagedIn(s, t) :: StagedIn(after, t))
      && (!reply.Refused? ==> StagedIn(after, PlanOf(p.retryPlanId)))
  {
  }

  ghost predicate SameSaves(s: Staged, t: Staged) {
    s.deliveries == t.deliveries && s.plans == t.plans
  }

  lemma InsertsApart(c: Committed, s: Staged, op: Op)
    requires op.InsertFeedbackOp? || op.SaveDeadLetterOp? || op.SaveReplayOp?
    ensures SameSaves(s, Stage(c, s, op).0)
  {
  }

  lemma OthersApart(c: Committed, s: Staged, op: Op)
    requires Target(op).None? && !op.InsertFeedbackOp? && !op.SaveDeadLetterOp? && !op.SaveReplayOp?
    ensures SameSaves(s, Stage(c, s, op).0)
  {
    hide NextAfter, SaveReplay, SaveDeadLetter, InsertFeedback;
    match op {
      case InsertPublicationOp(a) =>
      case StoreMaterialOp(m) =>
      case BindAnchorOp(a) =>
      case MarkConflictOp(k) =>
      case AppendAuditOp(e) =>
      case UpsertViewOp(v) =>
      case UpsertSummaryOp(v) =>
      case UpsertHealthOp(v) =>
    }
  }

  /** Each call keeps what is staged at its next version and what is saved staged. */
  lemma CallVersions(c: Committed, s: Staged, op: Op)
    requires AtNextVersions(c, s)
    ensures var (after, reply) := Stage(c, s, op);
      && AtNextVersions(c, after) && (forall t | StagedIn(s, t) :: StagedIn(after, t))
      && (Target(op).Some? && !reply.Refused? ==> StagedIn(after, Target(op).value))
  {
    hide Stage;
    match op {
      case SaveDeliveryOp(d, v) => DeliveryCallVersions(c, s, d, v);
      case SavePlanOp(p, v) => PlanCallVersions(c, s, p, v);
      case InsertFeedbackOp(_) => InsertsApart(c, s, op);
      case SaveDeadLetterOp(_, _) => InsertsApart(c, s, op);
      case SaveReplayOp(_) => InsertsApart(c, s, op);
      case _ => OthersApart(c, s, op);
    }
  }

  /** Some call of the transaction saved the record and was not refused. */
  ghost predicate SavedBy(ops: seq<Op>, replies: seq<Reply>, target: VersionedRow) {
    |ops| == |replies| && exists i | 0 <= i < |ops| :: Target(ops[i]) == Some(target) && !replies[i].Refused?
  }

  lemma {:induction false} ScriptVersions(c: Committed, ops: seq<Op>)
    ensures var (s, replies) := Script(c, ops);
      && |replies| == |ops| && AtNextVersions(c, s)
      && (forall i | 0 <= i < |ops| && Target(ops[i]).Some? && !replies[i].Refused? :: StagedIn(s, Target(ops[i]).value))
    decreases |ops|
  {
    hide Stage, AtNextVersions, StagedIn, Target;
    if ops == [] {
      NothingStaged(c);
    } else {
      var n := |ops| - 1;
      ScriptVersions(c, ops[..n]);
      CallVersions(c, Script(c, ops[..n]).0, ops[n]);
      var before, after := Script(c, ops[..n]), Script(c, ops);
      forall i | 0 <= i < |ops| && Target(ops[i]).Some? && !after.1[i].Refused? ensures StagedIn(after.0, Target(ops[i]).value) {
        if i < n {
          assert ops[..n][i] == ops[i] && before.1[i] == after.1[i];
        }
      }
    }
  }

  lemma NothingStaged(c: Committed)
    ensures AtNextVersions(c, NOTHING)
  {
  }

  /** A commit raises the version of what it saves by one and leaves the others alone. */
  lemma CommitVersions(c: Committed, s: Staged, target: VersionedRow)
    requires AtNextVersions(c, s)
    ensures VersionIn(Overlay(c, s), target) == VersionIn(c, target) + (if StagedIn(s, target) then 1 else 0)
  {
    hide Overlay;
    CommittedVersions(c, s);
    match target {
      case DeliveryOf(id) => assert id in DeliveryVersions(s.deliveries) <==> id in s.deliveries;
      case PlanOf(id) => assert id in PlanVersions(s.plans) <==> id in s.plans;
    }
  }

  lemma CommittedVersions(c: Committed, s: Staged)
    ensures Overlay(c, s).deliveryVersions == c.deliveryVersions + DeliveryVersions(s.deliveries)
    ensures Overlay(c, s).planVersions == c.planVersions + PlanVersions(s.plans)
  {
    hide PlanIndex, DeadLetterIndex, ReadyIndex, SortedKeys, NextAfter;
  }

  /** A save under a version the record has passed is refused. */
  lemma PassedIsStale(c: Committed, s: Staged, op: Op, target: VersionedRow, v: nat)
    requires SavesUnder(op, target, v) && v != VersionIn(c, target)
    ensures Stage(c, s, op) == (s, Refused(VersionConflict))
  {
  }

  /** No event lowers a version, and committing a transaction that saved the record raises it by one. */
  lemma EventVersions(c: Committed, w: World, e: Event, target: VersionedRow)
    requires Explained(c, w)
    ensures VersionIn(Interleaving.After(w, e).committed, target) >= VersionIn(w.committed, target)
    ensures e.Commit? && e.handle in w.sessions && SavedBy(w.sessions[e.handle].ops, w.sessions[e.handle].replies, target) ==>
            VersionIn(Interleaving.After(w, e).committed, target) == VersionIn(w.committed, target) + 1
  {
    hide Overlay, Stage, AtNextVersions;
    if e.Commit? && e.handle in w.sessions {
      var session := w.sessions[e.handle];
      assert Scripted(w.committed, session);
      ScriptVersions(w.committed, session.ops);
      CommitVersions(w.committed, session.staged, target);
    }
  }

  lemma {:induction false} VersionsRise(c: Committed, events: seq<Event>, j: nat, target: VersionedRow)
    requires AllConflictFree(Start(c), events) && j <= |events|
    ensures VersionIn(Interleaved(Start(c), events[..j]).committed, target) <= VersionIn(Interleaved(Start(c), events).committed, target)
    decreases |events|
  {
    hide Interleaving.After, VersionIn, Explained, ConflictFree;
    if j == |events| {
      assert events[..j] == events;
    } else {
      var n := |events| - 1;
      var front := events[..n];
      PrefixConflictFree(c, events, n);
      assert front[..j] == events[..j];
      VersionsRise(c, front, j, target);
      InterleavingIsSerial(c, front);
      EventVersions(c, Interleaved(Start(c), front), events[n], target);
    }
  }

  lemma PrefixConflictFree(c: Committed, events: seq<Event>, n: nat)
    requires AllConflictFree(Start(c), events) && n <= |events|
    ensures AllConflictFree(Start(c), events[..n])
  {
    assert forall i | 0 <= i < n :: events[..n][..i] == events[..i] && events[..n][i] == events[i];
  }

  lemma OneEvent(w: World, events: seq<Event>, k: nat)
    requires k < |events|
    ensures Interleaved(w, events[..k + 1]) == Interleaving.After(Interleaved(w, events[..k]), events[k])
  {
    assert events[..k + 1][..k] == events[..k];
  }

  /** No update is lost: in a conflict-free interleaving, once a transaction's save of a delivery or plan has
      committed, saving it under a version read before that commit is refused, whatever happened since and
      in whichever transaction. */
  lemma StaleSaveRefused(c: Committed, events: seq<Event>, read: nat, k: nat, target: VersionedRow, s: Staged, op: Op)
    requires AllConflictFree(Start(c), events) && read <= k < |events|
    requires var w := Interleaved(Start(c), events[..k]);
      && events[k].Commit? && events[k].handle in w.sessions
      && SavedBy(w.sessions[events[k].handle].ops, w.sessions[events[k].handle].replies, target)
    requires SavesUnder(op, target, VersionIn(Interleaved(Start(c), events[..read]).committed, target))
    ensures Stage(Interleaved(Start(c), events).committed, s, op) == (s, Refused(VersionConflict))
  {
    hide Interleaving.After, VersionIn, Explained, AllConflictFree, Interleaved, Stage, SavedBy, SavesUnder;
    PrefixConflictFree(c, events, k);
    assert events[..k][..read] == events[..read];
    VersionsRise(c, events[..k], read, target);
    InterleavingIsSerial(c, events[..k]);
    EventVersions(c, Interleaved(Start(c), events[..k]), events[k], target);
    OneEvent(Start(c), events, k);
    VersionsRise(c, events, k + 1, target);
    PassedIsStale(Interleaved(Start(c), events).committed, s, op, target, VersionIn(Interleaved(Start(c), events[..read]).committed, target));
  }
}
