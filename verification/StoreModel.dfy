/** The committed state of the in-memory store, a staged transaction, what each
    staging call checks and records, and what a commit lays over the committed state. */
module StoreModel {
  import opened Common
  import opened Numerals
  import opened Records

  datatype Committed = Committed(
    deliveries: map<Id, Delivery>,
    deliveryVersions: map<Id, nat>,
    feedbacks: map<Id, Feedback>,
    feedbackVersions: map<Id, nat>,
    feedbackSources: map<(Id, Id), Id>,
    publications: map<Id, Acceptance>,
    materials: map<Id, Material>,
    publicationVersions: map<Id, nat>,
    views: map<Id, TransportView>,
    summaries: map<Id, FailureSummary>,
    summaryVersions: map<Id, string>,
    health: map<Id, BackendHealth>,
    healthVersions: map<Id, string>,
    plans: map<Id, RetryPlan>,
    planVersions: map<Id, nat>,
    activePlans: map<Id, Id>,
    deadLetters: map<Id, DeadLetterEntry>,
    deadLetterVersions: map<Id, nat>,
    activeDeadLetters: map<Id, Id>,
    replays: map<Id, ReplayPreparation>,
    replayVersions: map<Id, nat>,
    readyReplays: map<(Id, Id), Id>,
    failureMaterials: map<Id, FailureMaterial>,
    failureMaterialVersions: map<Id, nat>,
    anchors: map<(Scope, Id), Anchor>,
    conflicts: seq<Conflict>,
    audits: seq<AuditEntry>,
    auditSequence: nat)

  datatype Staged = Staged(
    deliveries: map<Id, Delivery>,
    feedbacks: map<Id, Feedback>,
    feedbackSources: map<(Id, Id), Id>,
    publications: map<Id, Acceptance>,
    materials: map<Id, Material>,
    views: map<Id, TransportView>,
    summaries: map<Id, FailureSummary>,
    health: map<Id, BackendHealth>,
    plans: map<Id, RetryPlan>,
    deadLetters: map<Id, DeadLetterEntry>,
    replays: map<Id, ReplayPreparation>,
    failureMaterials: map<Id, FailureMaterial>,
    anchors: map<(Scope, Id), Anchor>,
    conflicts: seq<Conflict>,
    audits: seq<AuditEntry>)

  const NOTHING: Staged :=
    Staged(map[], map[], map[], map[], map[], map[], map[], map[], map[], map[], map[], map[], map[], [], [])

  const EMPTY: Committed :=
    Committed(map[], map[], map[], map[], map[], map[], map[], map[], map[], map[], map[], map[], map[], map[],
              map[], map[], map[], map[], map[], map[], map[], map[], map[], map[], map[], [], [], 0)

  // ---------------------------------------------------------------- projection versions

  const VERSION_PREFIX: string := "projection_v"

  /** The projection version after the given one; unreadable text restarts at one. */
  function NextAfter(current: Option<string>): string {
    var next :=
      if current.Some? && VERSION_PREFIX <= current.value then
        match ParseU64(current.value[|VERSION_PREFIX|..])
        case Some(v) => v + 1
        case None => 1
      else 1;
    VERSION_PREFIX + Decimal(next)
  }

  // ---------------------------------------------------------------- staging

  type Outcome = Result<(Staged, nat), RepositoryError>

  /** A version that may be missing counts as zero. */
  function Number(version: Option<nat>): nat {
    if version.Some? then version.value else 0
  }

  function NextNumber(version: Option<nat>): nat {
    Number(version) + 1
  }

  // Each call looks up a few committed values and then decides on those alone.

  function SaveDelivery(c: Committed, t: Option<Staged>, d: Delivery, expected: nat): Outcome {
    PlaceDelivery(Get(c.deliveryVersions, d.deliveryId), t, d, expected)
  }

  function PlaceDelivery(current: Option<nat>, t: Option<Staged>, d: Delivery, expected: nat): Outcome {
    if current != Some(expected) then Err(VersionConflict)
    else if t.None? then Err(Unavailable)
    else
      Ok((t.value.(deliveries := t.value.deliveries[d.deliveryId := d.(version := expected + 1)]), expected + 1))
  }

  function InsertFeedback(c: Committed, t: Option<Staged>, f: Feedback): Outcome {
    PlaceFeedback(Get(c.feedbacks, f.feedbackId).Some? || Get(c.feedbackSources, (f.deliveryId, f.externalRef)).Some?,
                  Get(c.feedbackVersions, f.feedbackId), t, f)
  }

  function PlaceFeedback(taken: bool, current: Option<nat>, t: Option<Staged>, f: Feedback): Outcome {
    var source := (f.deliveryId, f.externalRef);
    if taken then Err(UniqueViolation)
    else if t.None? then Err(Unavailable)
    else if f.feedbackId in t.value.feedbacks || source in t.value.feedbackSources then Err(UniqueViolation)
    else
      Ok((t.value.(feedbackSources := t.value.feedbackSources[source := f.feedbackId],
                   feedbacks := t.value.feedbacks[f.feedbackId := f.(version := Number(current) + 1)]), Number(current) + 1))
  }

  function InsertPublication(c: Committed, t: Option<Staged>, a: Acceptance): Outcome {
    PlacePublication(Get(c.publications, a.publicationId).Some?, Get(c.publicationVersions, a.publicationId), t, a)
  }

  function PlacePublication(taken: bool, current: Option<nat>, t: Option<Staged>, a: Acceptance): Outcome {
    if taken then Err(UniqueViolation)
    else if t.None? then Err(Unavailable)
    else if a.publicationId in t.value.publications then Err(UniqueViolation)
    else Ok((t.value.(publications := t.value.publications[a.publicationId := a]), Number(current) + 1))
  }

  function StoreMaterial(c: Committed, t: Option<Staged>, m: Material): Outcome {
    PlaceMaterial(Get(c.materials, m.publicationId).Some?, t, m)
  }

  function PlaceMaterial(taken: bool, t: Option<Staged>, m: Material): Outcome {
    if taken then Err(UniqueViolation)
    else if t.None? then Err(Unavailable)
    else if m.publicationId in t.value.materials then Err(UniqueViolation)
    else Ok((t.value.(materials := t.value.materials[m.publicationId := m]), 0))
  }

  function SavePlan(c: Committed, t: Option<Staged>, p: RetryPlan, expected: Option<nat>): Outcome {
    PlacePlan(Get(c.planVersions, p.retryPlanId), Get(c.activePlans, p.deliveryId), t, p, expected)
  }

  function PlacePlan(current: Option<nat>, active: Option<Id>, t: Option<Staged>, p: RetryPlan, expected: Option<nat>): Outcome {
    if expected.Some? && expected.value != Number(current) then Err(VersionConflict)
    else if expected.None? && Number(current) != 0 then Err(UniqueViolation)
    else if p.status == PlanScheduled && active.Some? && active.value != p.retryPlanId then Err(UniqueViolation)
    else if t.None? then Err(Unavailable)
    else if p.status == PlanScheduled && OtherScheduled(t.value.plans, p) then Err(UniqueViolation)
    else
      Ok((t.value.(plans := t.value.plans[p.retryPlanId := p.(version := Number(current) + 1)]), Number(current) + 1))
  }

  /** Some other staged plan is scheduled for the same delivery. */
  predicate OtherScheduled(plans: map<Id, RetryPlan>, p: RetryPlan) {
    exists id | id in plans :: plans[id].deliveryId == p.deliveryId && plans[id].status == PlanScheduled
                               && plans[id].retryPlanId != p.retryPlanId
  }

  function SaveDeadLetter(c: Committed, t: Option<Staged>, e: DeadLetterEntry, m: FailureMaterial): Outcome {
    PlaceDeadLetter(Get(c.deadLetters, e.deadLetterId).Some? || Get(c.activeDeadLetters, e.deliveryId).Some?,
                    Get(c.failureMaterialVersions, m.failureMaterialId), t, e, m)
  }

  function PlaceDeadLetter(taken: bool, current: Option<nat>, t: Option<Staged>, e: DeadLetterEntry, m: FailureMaterial)
    : Outcome
  {
    if taken then Err(UniqueViolation)
    else if current.None? then Err(VersionConflict)
    else if t.None? then Err(Unavailable)
    else if e.deadLetterId in t.value.deadLetters || SameDelivery(t.value.deadLetters, e) then Err(UniqueViolation)
    else
      var linked := m.(deadLetterRef := Some(e.deadLetterId), version := current.value + 1);
      Ok((t.value.(deadLetters := t.value.deadLetters[e.deadLetterId := e.(version := 1)],
                   failureMaterials := t.value.failureMaterials[m.failureMaterialId := linked]), 1))
  }

  predicate SameDelivery(entries: map<Id, DeadLetterEntry>, e: DeadLetterEntry) {
    exists id | id in entries :: entries[id].deliveryId == e.deliveryId
  }

  function SaveReplay(c: Committed, t: Option<Staged>, r: ReplayPreparation): Outcome {
    PlaceReplay(Get(c.replays, r.replayId).Some?
                || (r.approvalRef.Some? && Get(c.readyReplays, (r.deadLetterId, r.approvalRef.value)).Some?),
                Get(c.replayVersions, r.replayId), t, r)
  }

  function PlaceReplay(taken: bool, current: Option<nat>, t: Option<Staged>, r: ReplayPreparation): Outcome {
    if taken then Err(UniqueViolation)
    else if t.None? then Err(Unavailable)
    else if r.replayId in t.value.replays then Err(UniqueViolation)
    else if r.approvalRef.Some? && SameApproval(t.value.replays, r) then Err(UniqueViolation)
    else Ok((t.value.(replays := t.value.replays[r.replayId := r.(version := Number(current) + 1)]), Number(current) + 1))
  }

  predicate SameApproval(replays: map<Id, ReplayPreparation>, r: ReplayPreparation) {
    exists id | id in replays :: replays[id].deadLetterId == r.deadLetterId && replays[id].approvalRef == r.approvalRef
  }

  function BindAnchor(c: Committed, t: Option<Staged>, a: Anchor): Outcome {
    PlaceAnchor(Get(c.anchors, (a.scope, a.key)).Some?, t, a)
  }

  function PlaceAnchor(taken: bool, t: Option<Staged>, a: Anchor): Outcome {
    if taken then Err(UniqueViolation)
    else if t.None? then Err(Unavailable)
    else if (a.scope, a.key) in t.value.anchors then Err(UniqueViolation)
    else Ok((t.value.(anchors := t.value.anchors[(a.scope, a.key) := a]), 0))
  }

  function MarkConflict(t: Option<Staged>, k: Conflict): Outcome {
    if t.None? then Err(Unavailable)
    else Ok((t.value.(conflicts := t.value.conflicts + [k]), 0))
  }

  /** The number reported is the next one at staging time; it is not reserved. */
  function AppendAudit(c: Committed, t: Option<Staged>, e: AuditEntry): Outcome {
    PlaceAudit(c.auditSequence, t, e)
  }

  function PlaceAudit(current: nat, t: Option<Staged>, e: AuditEntry): Outcome {
    if t.None? then Err(Unavailable)
    else Ok((t.value.(audits := t.value.audits + [e]), current + 1))
  }

  function UpsertView(c: Committed, t: Option<Staged>, v: TransportView): Result<(Staged, string), RepositoryError> {
    PlaceView(if v.viewId in c.views then Some(c.views[v.viewId].version) else None, t, v)
  }

  function PlaceView(current: Option<string>, t: Option<Staged>, v: TransportView)
    : Result<(Staged, string), RepositoryError>
  {
    if t.None? then Err(Unavailable)
    else
      var next := NextAfter(current);
      Ok((t.value.(views := t.value.views[v.viewId := v.(version := next)]), next))
  }

  function UpsertSummary(c: Committed, t: Option<Staged>, s: FailureSummary): Result<(Staged, string), RepositoryError> {
    PlaceSummary(Get(c.summaryVersions, s.summaryId), t, s)
  }

  function PlaceSummary(current: Option<string>, t: Option<Staged>, s: FailureSummary)
    : Result<(Staged, string), RepositoryError>
  {
    if t.None? then Err(Unavailable)
    else Ok((t.value.(summaries := t.value.summaries[s.summaryId := s]), NextAfter(current)))
  }

  function UpsertHealth(c: Committed, t: Option<Staged>, h: BackendHealth): Result<(Staged, string), RepositoryError> {
    PlaceHealth(Get(c.healthVersions, h.backendId), t, h)
  }

  function PlaceHealth(current: Option<string>, t: Option<Staged>, h: BackendHealth)
    : Result<(Staged, string), RepositoryError>
  {
    if t.None? then Err(Unavailable)
    else Ok((t.value.(health := t.value.health[h.backendId := h]), NextAfter(current)))
  }

  // ---------------------------------------------------------------- index maintenance at commit

  function PlanIndexStep(active: map<Id, Id>, id: Id, p: RetryPlan): map<Id, Id> {
    if p.status == PlanScheduled then active[p.deliveryId := id]
    else if Get(active, p.deliveryId) == Some(id) then active - {p.deliveryId}
    else active
  }

  /** The active-plan index after the staged plans are visited in the given order. */
  function PlanIndex(active: map<Id, Id>, staged: map<Id, RetryPlan>, ids: seq<Id>): map<Id, Id>
    decreases |ids|
  {
    if ids == [] then active
    else
      var last := ids[|ids| - 1];
      var before := PlanIndex(active, staged, ids[..|ids| - 1]);
      if last in staged then PlanIndexStep(before, last, staged[last]) else before
  }

  function DeadLetterIndexStep(active: map<Id, Id>, id: Id, e: DeadLetterEntry): map<Id, Id> {
    if e.status != Closed then active[e.deliveryId := id]
    else if Get(active, e.deliveryId) == Some(id) then active - {e.deliveryId}
    else active
  }

  function DeadLetterIndex(active: map<Id, Id>, staged: map<Id, DeadLetterEntry>, ids: seq<Id>): map<Id, Id>
    decreases |ids|
  {
    if ids == [] then active
    else
      var last := ids[|ids| - 1];
      var before := DeadLetterIndex(active, staged, ids[..|ids| - 1]);
      if last in staged then DeadLetterIndexStep(before, last, staged[last]) else before
  }

  function ReadyIndexStep(ready: map<(Id, Id), Id>, id: Id, r: ReplayPreparation): map<(Id, Id), Id> {
    if r.approvalRef.Some? then ready[(r.deadLetterId, r.approvalRef.value) := id] else ready
  }

  function ReadyIndex(ready: map<(Id, Id), Id>, staged: map<Id, ReplayPreparation>, ids: seq<Id>): map<(Id, Id), Id>
    decreases |ids|
  {
    if ids == [] then ready
    else
      var last := ids[|ids| - 1];
      var before := ReadyIndex(ready, staged, ids[..|ids| - 1]);
      if last in staged then ReadyIndexStep(before, last, staged[last]) else before
  }

  // A transaction that stages a single row takes a single index step.

  lemma SortedSingleton(id: Id)
    ensures SortedKeys({id}) == [id]
  {
    assert {id} - {id} == {};
    assert Least({id}) == id;
  }

  lemma OnePlanIndex(active: map<Id, Id>, staged: map<Id, RetryPlan>, id: Id)
    requires staged.Keys == {id}
    ensures PlanIndex(active, staged, SortedKeys(staged.Keys)) == PlanIndexStep(active, id, staged[id])
  {
    SortedSingleton(id);
    assert [id][..0] == [];
    assert PlanIndex(active, staged, []) == active;
  }

  // ---------------------------------------------------------------- versions written by a commit

  function DeliveryVersions(rows: map<Id, Delivery>): map<Id, nat> {
    map id | id in rows :: rows[id].version
  }

  function FeedbackVersions(rows: map<Id, Feedback>): map<Id, nat> {
    map id | id in rows :: rows[id].version
  }

  function PlanVersions(rows: map<Id, RetryPlan>): map<Id, nat> {
    map id | id in rows :: rows[id].version
  }

  function DeadLetterVersions(rows: map<Id, DeadLetterEntry>): map<Id, nat> {
    map id | id in rows :: rows[id].version
  }

  function ReplayVersions(rows: map<Id, ReplayPreparation>): map<Id, nat> {
    map id | id in rows :: rows[id].version
  }

  function MaterialVersions(rows: map<Id, FailureMaterial>): map<Id, nat> {
    map id | id in rows :: rows[id].version
  }

  function NextNumbers(current: map<Id, nat>, ids: set<Id>): map<Id, nat> {
    map id | id in ids :: NextNumber(Get(current, id))
  }

  function NextVersions(current: map<Id, string>, ids: set<Id>): map<Id, string> {
    map id | id in ids :: NextAfter(Get(current, id))
  }

  /** The rows of `m` whose keys are done. */
  function Part<K, V>(m: map<K, V>, done: set<K>): map<K, V> {
    map k | k in m && k in done :: m[k]
  }

  lemma PartGrows<K, V>(base: map<K, V>, m: map<K, V>, done: set<K>, k: K)
    requires k in m
    ensures (base + Part(m, done))[k := m[k]] == base + Part(m, done + {k})
  {
  }

  lemma PartMisses<K, V>(base: map<K, V>, m: map<K, V>, done: set<K>, k: K)
    requires k !in done
    ensures Get(base + Part(m, done), k) == Get(base, k)
  {
  }

  lemma PartMissesIf<K, V>(base: map<K, V>, m: map<K, V>, done: set<K>, k: K)
    ensures k !in done ==> Get(base + Part(m, done), k) == Get(base, k)
  {
  }

  lemma PartNone<K, V>(base: map<K, V>, m: map<K, V>)
    ensures base + Part(m, {}) == base
  {
  }

  lemma PartAll<K, V>(m: map<K, V>, done: set<K>)
    requires m.Keys <= done
    ensures Part(m, done) == m
  {
  }

  // ---------------------------------------------------------------- commit

  /** The unconditional overlay a commit performs. */
  function Overlay(c: Committed, s: Staged): Committed {
    Committed(
      c.deliveries + s.deliveries,
      c.deliveryVersions + DeliveryVersions(s.deliveries),
      c.feedbacks + s.feedbacks,
      c.feedbackVersions + FeedbackVersions(s.feedbacks),
      c.feedbackSources + s.feedbackSources,
      c.publications + s.publications,
      c.materials + s.materials,
      c.publicationVersions + NextNumbers(c.publicationVersions, s.publications.Keys),
      c.views + s.views,
      c.summaries + s.summaries,
      c.summaryVersions + NextVersions(c.summaryVersions, s.summaries.Keys),
      c.health + s.health,
      c.healthVersions + NextVersions(c.healthVersions, s.health.Keys),
      c.plans + s.plans,
      c.planVersions + PlanVersions(s.plans),
      PlanIndex(c.activePlans, s.plans, SortedKeys(s.plans.Keys)),
      c.deadLetters + s.deadLetters,
      c.deadLetterVersions + DeadLetterVersions(s.deadLetters),
      DeadLetterIndex(c.activeDeadLetters, s.deadLetters, SortedKeys(s.deadLetters.Keys)),
      c.replays + s.replays,
      c.replayVersions + ReplayVersions(s.replays),
      ReadyIndex(c.readyReplays, s.replays, SortedKeys(s.replays.Keys)),
      c.failureMaterials + s.failureMaterials,
      c.failureMaterialVersions + MaterialVersions(s.failureMaterials),
      c.anchors + s.anchors,
      c.conflicts + s.conflicts,
      c.audits + s.audits,
      c.auditSequence + |s.audits|)
  }

  /** The committed state after a commit of the transaction, if it is open. */
  function Committing(c: Committed, t: Option<Staged>): Committed {
    match t
    case Some(s) => Overlay(c, s)
    case None => c
  }

  /** An access entry goes straight to the committed log. */
  function AppendAccess(c: Committed, e: AuditEntry): Committed {
    c.(audits := c.audits + [e], auditSequence := c.auditSequence + 1)
  }

  // ---------------------------------------------------------------- seeding

  function SeededDelivery(c: Committed, d: Delivery): Committed {
    c.(deliveries := c.deliveries[d.deliveryId := d.(version := 1)],
       deliveryVersions := c.deliveryVersions[d.deliveryId := 1])
  }

  predicate PlanSeedRefused(c: Committed, p: RetryPlan) {
    p.retryPlanId in c.plans || (p.status == PlanScheduled && p.deliveryId in c.activePlans)
  }

  function SeededPlan(c: Committed, p: RetryPlan): Committed {
    c.(plans := c.plans[p.retryPlanId := p.(version := 1)],
       planVersions := c.planVersions[p.retryPlanId := 1],
       activePlans := if p.status == PlanScheduled then c.activePlans[p.deliveryId := p.retryPlanId] else c.activePlans)
  }

  function SeededMaterial(c: Committed, m: FailureMaterial): Committed {
    c.(failureMaterials := c.failureMaterials[m.failureMaterialId := m.(version := 1)],
       failureMaterialVersions := c.failureMaterialVersions[m.failureMaterialId := 1])
  }

  // ---------------------------------------------------------------- ordered scans

  /** Scheduled plans due at `now` whose identifier is past the cursor, in identifier order. */
  function DuePlans(plans: map<Id, RetryPlan>, ids: seq<Id>, cursor: string, now: Timestamp): seq<RetryPlan>
  {
    if ids == [] then []
    else if ids[0] !in plans then DuePlans(plans, ids[1..], cursor, now)
    else
      var p := plans[ids[0]];
      (if p.status == PlanScheduled && AtMost(p.nextAttemptAt, now) && Before(cursor, p.retryPlanId)
       then [p] else [])
      + DuePlans(plans, ids[1..], cursor, now)
  }

  function Take<T>(xs: seq<T>, limit: nat): seq<T> {
    if |xs| <= limit then xs else xs[..limit]
  }

  function DueRetryPlans(c: Committed, cursor: string, limit: nat, now: Timestamp): seq<RetryPlan> {
    Take(DuePlans(c.plans, SortedKeys(c.plans.Keys), cursor, now), limit)
  }

  /** Scheduled deliveries in identifier order; those up to the cursor only when no delivery at all is past it. */
  function Schedulable(deliveries: map<Id, Delivery>, ids: seq<Id>, cursor: string, wraps: bool): seq<Delivery> {
    if ids == [] then []
    else if ids[0] !in deliveries then Schedulable(deliveries, ids[1..], cursor, wraps)
    else
      var d := deliveries[ids[0]];
      (if d.status == Scheduled && (wraps || Before(cursor, d.deliveryId)) then [d] else [])
      + Schedulable(deliveries, ids[1..], cursor, wraps)
  }

  predicate AnyAfter(ids: set<Id>, cursor: string) {
    exists id | id in ids :: Before(cursor, id)
  }

  function SchedulablePage(c: Committed, cursor: string, limit: nat): seq<Delivery> {
    Take(Schedulable(c.deliveries, SortedKeys(c.deliveries.Keys), cursor, !AnyAfter(c.deliveries.Keys, cursor)), limit)
  }

  /** The committed entries that belong to a chain. */
  function AuditChain(audits: seq<AuditEntry>, chainRef: Id): seq<AuditEntry> {
    if audits == [] then []
    else (if ChainRef(audits[0].auditRef) == chainRef then [audits[0]] else []) + AuditChain(audits[1..], chainRef)
  }
}
