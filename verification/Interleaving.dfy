/** Interleaved transactions: when every commit is free of conflicts with the open
    transactions, the store ends as if the committed ones had run one at a time. */
module Interleaving {
  import opened Common
  import opened Records
  import opened StoreModel

  // ---------------------------------------------------------------- one staging call

  datatype Op =
    | SaveDeliveryOp(delivery: Delivery, expected: nat)
    | InsertFeedbackOp(feedback: Feedback)
    | InsertPublicationOp(acceptance: Acceptance)
    | StoreMaterialOp(material: Material)
    | SavePlanOp(plan: RetryPlan, planVersion: Option<nat>)
    | SaveDeadLetterOp(entry: DeadLetterEntry, failure: FailureMaterial)
    | SaveReplayOp(replay: ReplayPreparation)
    | BindAnchorOp(anchor: Anchor)
    | MarkConflictOp(conflict: Conflict)
    | AppendAuditOp(audit: AuditEntry)
    | UpsertViewOp(view: TransportView)
    | UpsertSummaryOp(summary: FailureSummary)
    | UpsertHealthOp(health: BackendHealth)

  /** What the caller of a staging call is told; the provisional audit number is not part of it. */
  datatype Reply = Numbered(number: nat) | Projected(version: string) | Recorded | Refused(error: RepositoryError)

  function Answered(s: Staged, outcome: Outcome): (Staged, Reply) {
    match outcome
    case Ok((after, number)) => (after, Numbered(number))
    case Err(e) => (s, Refused(e))
  }

  function Unnumbered(s: Staged, outcome: Outcome): (Staged, Reply) {
    match outcome
    case Ok((after, _)) => (after, Recorded)
    case Err(e) => (s, Refused(e))
  }

  function Versioned(s: Staged, outcome: Result<(Staged, string), RepositoryError>): (Staged, Reply) {
    match outcome
    case Ok((after, version)) => (after, Projected(version))
    case Err(e) => (s, Refused(e))
  }

  /** Staging into an open transaction against a committed state. */
  function Stage(c: Committed, s: Staged, op: Op): (Staged, Reply) {
    match op
    case SaveDeliveryOp(d, v) => Answered(s, SaveDelivery(c, Some(s), d, v))
    case InsertFeedbackOp(f) => Answered(s, InsertFeedback(c, Some(s), f))
    case InsertPublicationOp(a) => Answered(s, InsertPublication(c, Some(s), a))
    case StoreMaterialOp(m) => Answered(s, StoreMaterial(c, Some(s), m))
    case SavePlanOp(p, v) => Answered(s, SavePlan(c, Some(s), p, v))
    case SaveDeadLetterOp(e, m) => Answered(s, SaveDeadLetter(c, Some(s), e, m))
    case SaveReplayOp(r) => Answered(s, SaveReplay(c, Some(s), r))
    case BindAnchorOp(a) => Answered(s, BindAnchor(c, Some(s), a))
    case MarkConflictOp(k) => Unnumbered(s, MarkConflict(Some(s), k))
    case AppendAuditOp(e) => Unnumbered(s, AppendAudit(c, Some(s), e))
    case UpsertViewOp(v) => Versioned(s, UpsertView(c, Some(s), v))
    case UpsertSummaryOp(v) => Versioned(s, UpsertSummary(c, Some(s), v))
    case UpsertHealthOp(v) => Versioned(s, UpsertHealth(c, Some(s), v))
  }

  /** Committing the staged set writes none of the records and index keys the call looks up or writes. */
  ghost predicate Clear(s: Staged, op: Op) {
    match op
    case SaveDeliveryOp(d, _) => d.deliveryId !in s.deliveries
    case InsertFeedbackOp(f) => f.feedbackId !in s.feedbacks && (f.deliveryId, f.externalRef) !in s.feedbackSources
    case InsertPublicationOp(a) => a.publicationId !in s.publications
    case StoreMaterialOp(m) => m.publicationId !in s.materials
    case SavePlanOp(p, _) => p.retryPlanId !in s.plans && PlanFree(s.plans, p.deliveryId)
    case SaveDeadLetterOp(e, m) =>
      && e.deadLetterId !in s.deadLetters && DeadLetterFree(s.deadLetters, e.deliveryId)
      && m.failureMaterialId !in s.failureMaterials
    case SaveReplayOp(r) =>
      r.replayId !in s.replays && (r.approvalRef.Some? ==> ReadyFree(s.replays, r.deadLetterId, r.approvalRef.value))
    case BindAnchorOp(a) => (a.scope, a.key) !in s.anchors
    case MarkConflictOp(_) => true
    case AppendAuditOp(_) => true
    case UpsertViewOp(v) => v.viewId !in s.views
    case UpsertSummaryOp(v) => v.summaryId !in s.summaries
    case UpsertHealthOp(v) => v.backendId !in s.health
  }

  ghost predicate PlanFree(plans: map<Id, RetryPlan>, d: Id) {
    forall id | id in plans :: plans[id].deliveryId != d
  }

  ghost predicate DeadLetterFree(entries: map<Id, DeadLetterEntry>, d: Id) {
    forall id | id in entries :: entries[id].deliveryId != d
  }

  ghost predicate ReadyFree(replays: map<Id, ReplayPreparation>, d: Id, a: Id) {
    forall id | id in replays :: !(replays[id].deadLetterId == d && replays[id].approvalRef == Some(a))
  }

  // ---------------------------------------------------------------- a commit elsewhere is not noticed

  lemma {:induction false} PlanIndexMisses(active: map<Id, Id>, staged: map<Id, RetryPlan>, ids: seq<Id>, d: Id)
    requires PlanFree(staged, d)
    ensures Get(PlanIndex(active, staged, ids), d) == Get(active, d)
    decreases |ids|
  {
    if ids != [] {
      PlanIndexMisses(active, staged, ids[..|ids| - 1], d);
    }
  }

  lemma {:induction false} DeadLetterIndexMisses(active: map<Id, Id>, staged: map<Id, DeadLetterEntry>,
                                                 ids: seq<Id>, d: Id)
    requires DeadLetterFree(staged, d)
    ensures Get(DeadLetterIndex(active, staged, ids), d) == Get(active, d)
    decreases |ids|
  {
    if ids != [] {
      DeadLetterIndexMisses(active, staged, ids[..|ids| - 1], d);
    }
  }

  lemma {:induction false} ReadyIndexMisses(ready: map<(Id, Id), Id>, staged: map<Id, ReplayPreparation>,
                                            ids: seq<Id>, d: Id, a: Id)
    requires ReadyFree(staged, d, a)
    ensures Get(ReadyIndex(ready, staged, ids), (d, a)) == Get(ready, (d, a))
    decreases |ids|
  {
    if ids != [] {
      ReadyIndexMisses(ready, staged, ids[..|ids| - 1], d, a);
    }
  }

  // What a staging call looks up is the same after a commit that is clear of it.

  lemma RowUnnoticed<K, V>(rows: map<K, V>, staged: map<K, V>, k: K)
    requires k !in staged
    ensures Get(rows + staged, k) == Get(rows, k)
  {
  }

  lemma DeliverySaveUnnoticed(c: Committed, other: Staged, s: Staged, d: Delivery, v: nat)
    requires d.deliveryId !in other.deliveries
    ensures SaveDelivery(Overlay(c, other), Some(s), d, v) == SaveDelivery(c, Some(s), d, v)
  {
    RowUnnoticed(c.deliveryVersions, DeliveryVersions(other.deliveries), d.deliveryId);
  }

  lemma FeedbackUnnoticed(c: Committed, other: Staged, s: Staged, f: Feedback)
    requires f.feedbackId !in other.feedbacks && (f.deliveryId, f.externalRef) !in other.feedbackSources
    ensures InsertFeedback(Overlay(c, other), Some(s), f) == InsertFeedback(c, Some(s), f)
  {
    RowUnnoticed(c.feedbacks, other.feedbacks, f.feedbackId);
    RowUnnoticed(c.feedbackSources, other.feedbackSources, (f.deliveryId, f.externalRef));
    RowUnnoticed(c.feedbackVersions, FeedbackVersions(other.feedbacks), f.feedbackId);
  }

  lemma PublicationUnnoticed(c: Committed, other: Staged, s: Staged, a: Acceptance)
    requires a.publicationId !in other.publications
    ensures InsertPublication(Overlay(c, other), Some(s), a) == InsertPublication(c, Some(s), a)
  {
    RowUnnoticed(c.publications, other.publications, a.publicationId);
    RowUnnoticed(c.publicationVersions, NextNumbers(c.publicationVersions, other.publications.Keys), a.publicationId);
  }

  lemma MaterialUnnoticed(c: Committed, other: Staged, s: Staged, m: Material)
    requires m.publicationId !in other.materials
    ensures StoreMaterial(Overlay(c, other), Some(s), m) == StoreMaterial(c, Some(s), m)
  {
    RowUnnoticed(c.materials, other.materials, m.publicationId);
  }

  lemma PlanSaveUnnoticed(c: Committed, other: Staged, s: Staged, p: RetryPlan, v: Option<nat>)
    requires p.retryPlanId !in other.plans && PlanFree(other.plans, p.deliveryId)
    ensures SavePlan(Overlay(c, other), Some(s), p, v) == SavePlan(c, Some(s), p, v)
  {
    RowUnnoticed(c.planVersions, PlanVersions(other.plans), p.retryPlanId);
    PlanIndexMisses(c.activePlans, other.plans, SortedKeys(other.plans.Keys), p.deliveryId);
  }

  lemma DeadLetterSaveUnnoticed(c: Committed, other: Staged, s: Staged, e: DeadLetterEntry, m: FailureMaterial)
    requires e.deadLetterId !in other.deadLetters && DeadLetterFree(other.deadLetters, e.deliveryId)
    requires m.failureMaterialId !in other.failureMaterials
    ensures SaveDeadLetter(Overlay(c, other), Some(s), e, m) == SaveDeadLetter(c, Some(s), e, m)
  {
    RowUnnoticed(c.deadLetters, other.deadLetters, e.deadLetterId);
    RowUnnoticed(c.failureMaterialVersions, MaterialVersions(other.failureMaterials), m.failureMaterialId);
    DeadLetterIndexMisses(c.activeDeadLetters, other.deadLetters, SortedKeys(other.deadLetters.Keys), e.deliveryId);
  }

  lemma ReplaySaveUnnoticed(c: Committed, other: Staged, s: Staged, r: ReplayPreparation)
    requires r.replayId !in other.replays
    requires r.approvalRef.Some? ==> ReadyFree(other.replays, r.deadLetterId, r.approvalRef.value)
    ensures SaveReplay(Overlay(c, other), Some(s), r) == SaveReplay(c, Some(s), r)
  {
    RowUnnoticed(c.replays, other.replays, r.replayId);
    RowUnnoticed(c.replayVersions, ReplayVersions(other.replays), r.replayId);
    if r.approvalRef.Some? {
      ReadyIndexMisses(c.readyReplays, other.replays, SortedKeys(other.replays.Keys), r.deadLetterId, r.approvalRef.value);
    }
  }

  lemma AnchorUnnoticed(c: Committed, other: Staged, s: Staged, a: Anchor)
    requires (a.scope, a.key) !in other.anchors
    ensures BindAnchor(Overlay(c, other), Some(s), a) == BindAnchor(c, Some(s), a)
  {
    RowUnnoticed(c.anchors, other.anchors, (a.scope, a.key));
  }

  lemma ViewUnnoticed(c: Committed, other: Staged, s: Staged, v: TransportView)
    requires v.viewId !in other.views
    ensures UpsertView(Overlay(c, other), Some(s), v) == UpsertView(c, Some(s), v)
  {
    RowUnnoticed(c.views, other.views, v.viewId);
  }

  lemma SummaryUnnoticed(c: Committed, other: Staged, s: Staged, v: FailureSummary)
    requires v.summaryId !in other.summaries
    ensures UpsertSummary(Overlay(c, other), Some(s), v) == UpsertSummary(c, Some(s), v)
  {
    RowUnnoticed(c.summaryVersions, NextVersions(c.summaryVersions, other.summaries.Keys), v.summaryId);
  }

  lemma HealthUnnoticed(c: Committed, other: Staged, s: Staged, v: BackendHealth)
    requires v.backendId !in other.health
    ensures UpsertHealth(Overlay(c, other), Some(s), v) == UpsertHealth(c, Some(s), v)
  {
    RowUnnoticed(c.healthVersions, NextVersions(c.healthVersions, other.health.Keys), v.backendId);
  }

  /** A staging call answers and stages the same before and after a commit of a set
      that is clear of it. */
  lemma Unnoticed(c: Committed, other: Staged, s: Staged, op: Op)
    requires Clear(other, op)
    ensures Stage(Overlay(c, other), s, op) == Stage(c, s, op)
  {
    match op {
      case SaveDeliveryOp(d, v) => DeliverySaveUnnoticed(c, other, s, d, v);
      case InsertFeedbackOp(f) => FeedbackUnnoticed(c, other, s, f);
      case InsertPublicationOp(a) => PublicationUnnoticed(c, other, s, a);
      case StoreMaterialOp(m) => MaterialUnnoticed(c, other, s, m);
      case SavePlanOp(p, v) => PlanSaveUnnoticed(c, other, s, p, v);
      case SaveDeadLetterOp(e, m) => DeadLetterSaveUnnoticed(c, other, s, e, m);
      case SaveReplayOp(r) => ReplaySaveUnnoticed(c, other, s, r);
      case BindAnchorOp(a) => AnchorUnnoticed(c, other, s, a);
      case MarkConflictOp(_) =>
      case AppendAuditOp(_) =>
      case UpsertViewOp(v) => ViewUnnoticed(c, other, s, v);
      case UpsertSummaryOp(v) => SummaryUnnoticed(c, other, s, v);
      case UpsertHealthOp(v) => HealthUnnoticed(c, other, s, v);
    }
  }

  // ---------------------------------------------------------------- transactions as scripts

  /** Staging the calls in order, from nothing, against one committed state. */
  function Script(c: Committed, ops: seq<Op>): (Staged, seq<Reply>)
    decreases |ops|
  {
    if ops == [] then (NOTHING, [])
    else
      var (s, replies) := Script(c, ops[..|ops| - 1]);
      var (after, reply) := Stage(c, s, ops[|ops| - 1]);
      (after, replies + [reply])
  }

  ghost predicate Avoids(ops: seq<Op>, s: Staged) {
    forall i | 0 <= i < |ops| :: Clear(s, ops[i])
  }

  lemma {:induction false} ScriptUnnoticed(c: Committed, other: Staged, ops: seq<Op>)
    requires Avoids(ops, other)
    ensures Script(Overlay(c, other), ops) == Script(c, ops)
    decreases |ops|
  {
    if ops != [] {
      var front := ops[..|ops| - 1];
      ScriptUnnoticed(c, other, front);
      Unnoticed(c, other, Script(c, front).0, ops[|ops| - 1]);
    }
  }

  lemma {:induction false} ScriptIgnoresAccess(c: Committed, e: AuditEntry, ops: seq<Op>)
    ensures Script(AppendAccess(c, e), ops) == Script(c, ops)
    decreases |ops|
  {
    if ops != [] {
      ScriptIgnoresAccess(c, e, ops[..|ops| - 1]);
    }
  }

  // ---------------------------------------------------------------- interleaved runs

  /** An open transaction with the calls made on it so far and their answers. */
  datatype Session = Session(staged: Staged, ops: seq<Op>, replies: seq<Reply>)

  /** What reached the committed state, in commit order. */
  datatype Unit = Transaction(ops: seq<Op>, replies: seq<Reply>) | Access(entry: AuditEntry)

  datatype World = World(committed: Committed, sessions: map<nat, Session>, last: nat, serial: seq<Unit>)

  datatype Event = Begin | StageCall(handle: nat, op: Op) | Commit(handle: nat) | Rollback(handle: nat)
                 | AccessCall(entry: AuditEntry)

  function Start(c: Committed): World {
    World(c, map[], 0, [])
  }

  function After(w: World, e: Event): World {
    match e
    case Begin => w.(last := w.last + 1, sessions := w.sessions[w.last + 1 := Session(NOTHING, [], [])])
    case StageCall(t, op) =>
      if t !in w.sessions then w
      else
        var session := w.sessions[t];
        var (staged, reply) := Stage(w.committed, session.staged, op);
        w.(sessions := w.sessions[t := Session(staged, session.ops + [op], session.replies + [reply])])
    case Commit(t) =>
      if t !in w.sessions then w
      else
        var session := w.sessions[t];
        w.(committed := Overlay(w.committed, session.staged), sessions := w.sessions - {t},
           serial := w.serial + [Transaction(session.ops, session.replies)])
    case Rollback(t) => w.(sessions := w.sessions - {t})
    case AccessCall(entry) =>
      w.(committed := AppendAccess(w.committed, entry), serial := w.serial + [Access(entry)])
  }

  function Interleaved(w: World, events: seq<Event>): World
    decreases |events|
  {
    if events == [] then w else After(Interleaved(w, events[..|events| - 1]), events[|events| - 1])
  }

  /** No other open transaction has so far staged a record or index key the commit writes. */
  ghost predicate ConflictFree(w: World, e: Event) {
    e.Commit? && e.handle in w.sessions ==>
      forall t | t in w.sessions && t != e.handle :: Avoids(w.sessions[t].ops, w.sessions[e.handle].staged)
  }

  ghost predicate AllConflictFree(w: World, events: seq<Event>) {
    forall i | 0 <= i < |events| :: ConflictFree(Interleaved(w, events[..i]), events[i])
  }

  // ---------------------------------------------------------------- serial runs

  function Applied(c: Committed, unit: Unit): Committed {
    match unit
    case Transaction(ops, _) => Overlay(c, Script(c, ops).0)
    case Access(entry) => AppendAccess(c, entry)
  }

  /** The units run one at a time. */
  function Serially(c: Committed, units: seq<Unit>): Committed
    decreases |units|
  {
    if units == [] then c else Applied(Serially(c, units[..|units| - 1]), units[|units| - 1])
  }

  /** Run one at a time, every staging call gets the recorded answer. */
  ghost predicate SameReplies(c: Committed, units: seq<Unit>)
    decreases |units|
  {
    units == [] ||
    (var before, last := units[..|units| - 1], units[|units| - 1];
     SameReplies(c, before) && (last.Transaction? ==> Script(Serially(c, before), last.ops).1 == last.replies))
  }

  /** Committed state as the serial run leaves it; open transactions as their scripts would rebuild them. */
  ghost predicate Explained(c: Committed, w: World) {
    && w.committed == Serially(c, w.serial)
    && SameReplies(c, w.serial)
    && forall t | t in w.sessions :: Scripted(w.committed, w.sessions[t])
  }

  ghost predicate Scripted(c: Committed, session: Session) {
    Script(c, session.ops) == (session.staged, session.replies)
  }

  lemma StageStaysExplained(c: Committed, w: World, t: nat, op: Op)
    requires Explained(c, w)
    ensures Explained(c, After(w, StageCall(t, op)))
  {
    if t in w.sessions {
      var session := w.sessions[t];
      assert Scripted(w.committed, session);
      assert (session.ops + [op])[..|session.ops|] == session.ops;
    }
  }

  lemma CommitStaysExplained(c: Committed, w: World, t: nat)
    requires Explained(c, w) && ConflictFree(w, Commit(t))
    ensures Explained(c, After(w, Commit(t)))
  {
    if t in w.sessions {
      var session, after := w.sessions[t], After(w, Commit(t));
      assert Scripted(w.committed, session);
      assert after.serial[..|after.serial| - 1] == w.serial;
      forall u | u in after.sessions ensures Scripted(after.committed, after.sessions[u]) {
        assert Scripted(w.committed, w.sessions[u]);
        ScriptUnnoticed(w.committed, session.staged, w.sessions[u].ops);
      }
    }
  }

  lemma AccessStaysExplained(c: Committed, w: World, entry: AuditEntry)
    requires Explained(c, w)
    ensures Explained(c, After(w, AccessCall(entry)))
  {
    var after := After(w, AccessCall(entry));
    assert after.serial[..|after.serial| - 1] == w.serial;
    forall u | u in after.sessions ensures Scripted(after.committed, after.sessions[u]) {
      assert Scripted(w.committed, w.sessions[u]);
      ScriptIgnoresAccess(w.committed, entry, w.sessions[u].ops);
    }
  }

  /** Serializability: a conflict-free interleaving leaves every table, version, index and log
      as running its committed transactions one at a time in commit order, with the same answers. */
  lemma {:induction false} InterleavingIsSerial(c: Committed, events: seq<Event>)
    requires AllConflictFree(Start(c), events)
    ensures var w := Interleaved(Start(c), events);
      w.committed == Serially(c, w.serial) && SameReplies(c, w.serial) && Explained(c, w)
    decreases |events|
  {
    if events != [] {
      var front, last := events[..|events| - 1], events[|events| - 1];
      assert forall i | 0 <= i < |front| :: front[..i] == events[..i] && front[i] == events[i];
      assert ConflictFree(Interleaved(Start(c), events[..|events| - 1]), last);
      InterleavingIsSerial(c, front);
      var w := Interleaved(Start(c), front);
      match last
      case Begin => assert forall t | t in w.sessions :: Scripted(w.committed, w.sessions[t]);
      case StageCall(t, op) => StageStaysExplained(c, w, t, op);
      case Commit(t) => CommitStaysExplained(c, w, t);
      case Rollback(t) =>
      case AccessCall(entry) => AccessStaysExplained(c, w, entry);
    }
  }

  // ---------------------------------------------------------------- the audit log under any interleaving

  /** Whatever the interleaving, audits only grow at the end and the counter is their number. */
  lemma {:induction false} AuditsAppendOnly(w: World, events: seq<Event>)
    requires w.committed.auditSequence == |w.committed.audits|
    ensures var after := Interleaved(w, events).committed;
      && after.auditSequence == |after.audits|
      && w.committed.audits <= after.audits
    decreases |events|
  {
    if events != [] {
      AuditsAppendOnly(w, events[..|events| - 1]);
    }
  }

  /** So a sequence number read at one moment denotes the same entry at every later one. */
  lemma LogGrows(w: World, events: seq<Event>, j: nat, k: nat)
    requires j <= k <= |events| && w.committed.auditSequence == |w.committed.audits|
    ensures Interleaved(w, events[..j]).committed.audits <= Interleaved(w, events[..k]).committed.audits
  {
    hide Interleaved, After;
    AuditsAppendOnly(w, events[..j]);
    AuditsAppendOnly(Interleaved(w, events[..j]), events[j..k]);
    EventsThenEvents(w, events[..j], events[j..k]);
    assert events[..k] == events[..j] + events[j..k];
  }

  // ---------------------------------------------------------------- why the condition is needed

  /** A new plan, scheduled for a delivery without one. */
  predicate Fresh(c: Committed, p: RetryPlan) {
    p.status == PlanScheduled && p.retryPlanId !in c.planVersions && p.deliveryId !in c.activePlans
  }

  /** The call that saves a new plan. */
  function Scheduling(p: RetryPlan): Op {
    SavePlanOp(p, None)
  }

  function OneStaged(p: RetryPlan): Staged {
    NOTHING.(plans := NOTHING.plans[p.retryPlanId := p.(version := 1)])
  }

  /** Committing it stores it and points the index at it. */
  lemma OneCommitted(c: Committed, p: RetryPlan, id: Id)
    requires p.status == PlanScheduled
    ensures var after := Overlay(c, OneStaged(p));
      && Get(after.plans, id) == (if id == p.retryPlanId then Some(p.(version := 1)) else Get(c.plans, id))
      && Get(after.planVersions, id) == (if id == p.retryPlanId then Some(1) else Get(c.planVersions, id))
      && Get(after.activePlans, p.deliveryId) == Some(p.retryPlanId)
  {
    OnePlanIndex(c.activePlans, OneStaged(p).plans, p.retryPlanId);
  }

  lemma OneCall(c: Committed, op: Op)
    ensures Script(c, [op]).0 == Stage(c, NOTHING, op).0
    ensures Script(c, [op]).1 == [Stage(c, NOTHING, op).1]
  {
    assert [op][..0] == [];
    assert Script(c, [op][..0]) == (NOTHING, []);
    assert [] + [Stage(c, NOTHING, op).1] == [Stage(c, NOTHING, op).1];
  }

  lemma OneStage(c: Committed, p: RetryPlan)
    requires Fresh(c, p)
    ensures Stage(c, NOTHING, Scheduling(p)).0 == OneStaged(p)
  {
    assert SavePlan(c, Some(NOTHING), p, None) == Ok((OneStaged(p), 1));
  }

  lemma OneScript(c: Committed, p: RetryPlan)
    requires Fresh(c, p)
    ensures Script(c, [Scheduling(p)]).0 == OneStaged(p)
  {
    OneCall(c, Scheduling(p));
    OneStage(c, p);
  }

  lemma RefusedWhileActive(c: Committed, q: RetryPlan, active: Id)
    requires q.status == PlanScheduled && q.retryPlanId != active
    requires Get(c.planVersions, q.retryPlanId) == None && Get(c.activePlans, q.deliveryId) == Some(active)
    ensures Script(c, [Scheduling(q)]) == (NOTHING, [Refused(UniqueViolation)])
  {
    OneCall(c, Scheduling(q));
    assert SavePlan(c, Some(NOTHING), q, None) == Err(UniqueViolation);
    assert Stage(c, NOTHING, Scheduling(q)) == (NOTHING, Refused(UniqueViolation));
  }

  /** Once one plan is committed, a second for the same delivery is refused at staging. */
  lemma SecondRefused(c: Committed, p: RetryPlan, q: RetryPlan)
    requires Fresh(c, p) && Fresh(c, q) && p.deliveryId == q.deliveryId && p.retryPlanId != q.retryPlanId
    ensures Script(Overlay(c, OneStaged(p)), [Scheduling(q)]) == (NOTHING, [Refused(UniqueViolation)])
  {
    OneCommitted(c, p, q.retryPlanId);
    RefusedWhileActive(Overlay(c, OneStaged(p)), q, p.retryPlanId);
  }

  /** The interleaving in which both plans are staged before either is committed. */
  function Overlapping(p: RetryPlan, q: RetryPlan): seq<Event> {
    [Begin, Begin, StageCall(1, Scheduling(p)), StageCall(2, Scheduling(q)), Commit(1), Commit(2)]
  }

  lemma {:induction false} EventsThenEvents(w: World, xs: seq<Event>, ys: seq<Event>)
    ensures Interleaved(w, xs + ys) == Interleaved(Interleaved(w, xs), ys)
    decreases |ys|
  {
    if ys == [] {
      assert xs + ys == xs;
    } else {
      assert (xs + ys)[..|xs + ys| - 1] == xs + ys[..|ys| - 1];
      EventsThenEvents(w, xs, ys[..|ys| - 1]);
    }
  }

  lemma TwoEvents(w: World, a: Event, b: Event)
    ensures Interleaved(w, [a, b]) == After(After(w, a), b)
  {
    assert [a, b][..1] == [a] && [a][..0] == [];
    assert Interleaved(w, [a]) == After(w, a);
  }

  /** A staging call on one of two sessions. */
  lemma Staging(w: World, t: nat, p: RetryPlan) returns (after: World)
    requires t in w.sessions && w.sessions[t].staged == NOTHING && Fresh(w.committed, p)
    ensures after == After(w, StageCall(t, Scheduling(p)))
    ensures after.committed == w.committed && after.sessions.Keys == w.sessions.Keys
    ensures after.sessions[t].staged == OneStaged(p)
    ensures forall u | u in w.sessions && u != t :: after.sessions[u] == w.sessions[u]
  {
    OneStage(w.committed, p);
    after := After(w, StageCall(t, Scheduling(p)));
  }

  lemma OverlapCommitted(c: Committed, p: RetryPlan, q: RetryPlan)
    requires Fresh(c, p) && Fresh(c, q)
    ensures Interleaved(Start(c), Overlapping(p, q)).committed == Overlay(Overlay(c, OneStaged(p)), OneStaged(q))
  {
    var begins, stagings, commits :=
      [Begin, Begin], [StageCall(1, Scheduling(p)), StageCall(2, Scheduling(q))], [Commit(1), Commit(2)];
    assert Overlapping(p, q) == begins + stagings + commits;
    EventsThenEvents(Start(c), begins + stagings, commits);
    EventsThenEvents(Start(c), begins, stagings);
    var w2 := BothBegun(c);
    var w4 := BothStaged(w2, p, q);
    BothCommitted(w4, p, q);
  }

  lemma BothBegun(c: Committed) returns (w: World)
    ensures w == Interleaved(Start(c), [Begin, Begin])
    ensures w.committed == c && 1 in w.sessions && 2 in w.sessions
    ensures w.sessions[1].staged == NOTHING && w.sessions[2].staged == NOTHING
  {
    TwoEvents(Start(c), Begin, Begin);
    w := After(After(Start(c), Begin), Begin);
  }

  lemma BothStaged(w: World, p: RetryPlan, q: RetryPlan) returns (after: World)
    requires 1 in w.sessions && w.sessions[1].staged == NOTHING && Fresh(w.committed, p)
    requires 2 in w.sessions && w.sessions[2].staged == NOTHING && Fresh(w.committed, q)
    ensures after == Interleaved(w, [StageCall(1, Scheduling(p)), StageCall(2, Scheduling(q))])
    ensures after.committed == w.committed && 1 in after.sessions && 2 in after.sessions
    ensures after.sessions[1].staged == OneStaged(p) && after.sessions[2].staged == OneStaged(q)
  {
    TwoEvents(w, StageCall(1, Scheduling(p)), StageCall(2, Scheduling(q)));
    var w1 := Staging(w, 1, p);
    after := Staging(w1, 2, q);
  }

  lemma BothCommitted(w: World, p: RetryPlan, q: RetryPlan)
    requires 1 in w.sessions && w.sessions[1].staged == OneStaged(p)
    requires 2 in w.sessions && w.sessions[2].staged == OneStaged(q)
    ensures Interleaved(w, [Commit(1), Commit(2)]).committed == Overlay(Overlay(w.committed, OneStaged(p)), OneStaged(q))
  {
    hide Stage, Script, Overlay;
    TwoEvents(w, Commit(1), Commit(2));
  }

  lemma BothStored(c: Committed, p: RetryPlan, q: RetryPlan)
    requires Fresh(c, p) && Fresh(c, q) && p.deliveryId == q.deliveryId && p.retryPlanId != q.retryPlanId
    ensures var end := Overlay(Overlay(c, OneStaged(p)), OneStaged(q));
      && Get(end.plans, p.retryPlanId) == Some(p.(version := 1))
      && Get(end.plans, q.retryPlanId) == Some(q.(version := 1))
      && Get(end.activePlans, p.deliveryId) == Some(q.retryPlanId)
  {
    OneCommitted(c, p, p.retryPlanId);
    OneCommitted(Overlay(c, OneStaged(p)), q, p.retryPlanId);
    OneCommitted(Overlay(c, OneStaged(p)), q, q.retryPlanId);
  }

  /** The condition is needed. Two transactions that both schedule a plan for one delivery both
      commit, because a commit checks nothing: both plans are stored as scheduled and only the later
      is in the index. Run one at a time, in either order, the second call is refused. */
  lemma OverlapIsNotSerial(c: Committed, p: RetryPlan, q: RetryPlan)
    requires Fresh(c, p) && Fresh(c, q) && p.deliveryId == q.deliveryId && p.retryPlanId != q.retryPlanId
    ensures var end := Interleaved(Start(c), Overlapping(p, q)).committed;
      && Get(end.plans, p.retryPlanId) == Some(p.(version := 1))
      && Get(end.plans, q.retryPlanId) == Some(q.(version := 1))
      && Get(end.activePlans, p.deliveryId) == Some(q.retryPlanId)
    ensures var pFirst := Overlay(c, Script(c, [Scheduling(p)]).0);
      Script(pFirst, [Scheduling(q)]) == (NOTHING, [Refused(UniqueViolation)])
    ensures var qFirst := Overlay(c, Script(c, [Scheduling(q)]).0);
      Script(qFirst, [Scheduling(p)]) == (NOTHING, [Refused(UniqueViolation)])
  {
    OneScript(c, p);
    OneScript(c, q);
    SecondRefused(c, p, q);
    SecondRefused(c, q, p);
    OverlapCommitted(c, p, q);
    BothStored(c, p, q);
  }
}
