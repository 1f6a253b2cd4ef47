/** Projection versions count committed upserts: the k-th carries the number k. */
module Projections {
  import opened Common
  import opened Numerals
  import opened Records
  import opened StoreModel
  import opened Interleaving

  datatype Projection = ViewOf(viewId: Id) | SummaryOf(summaryId: Id) | HealthOf(backendId: Id)

  /** The committed version of a projection. */
  function VersionIn(c: Committed, p: Projection): Option<string> {
    match p
    case ViewOf(id) => if id in c.views then Some(c.views[id].version) else None
    case SummaryOf(id) => Get(c.summaryVersions, id)
    case HealthOf(id) => Get(c.healthVersions, id)
  }

  predicate Upserts(op: Op, p: Projection) {
    match op
    case UpsertViewOp(v) => p == ViewOf(v.viewId)
    case UpsertSummaryOp(s) => p == SummaryOf(s.summaryId)
    case UpsertHealthOp(h) => p == HealthOf(h.backendId)
    case _ => false
  }

  predicate Touches(ops: seq<Op>, p: Projection) {
    exists i | 0 <= i < |ops| :: Upserts(ops[i], p)
  }

  // ---------------------------------------------------------------- numbered versions

  function VersionNo(k: nat): string {
    VERSION_PREFIX + Decimal(k)
  }

  /** The projection has been upserted k times. */
  predicate AtVersion(version: Option<string>, k: nat) {
    version == if k == 0 then None else Some(VersionNo(k))
  }

  /** The version after the k-th is the one numbered k + 1; this rests on parsing undoing printing. */
  lemma NextIsNumbered(version: Option<string>, k: nat)
    requires AtVersion(version, k) && k < U64_LIMIT
    ensures NextAfter(version) == VersionNo(k + 1)
  {
    hide Decimal, ParseU64;
    if k > 0 {
      assert VersionNo(k)[|VERSION_PREFIX|..] == Decimal(k);
      ParseDecimal(k);
    } else {
      Fits();
    }
  }

  lemma Fits()
    ensures VersionNo(1) == VERSION_PREFIX + Decimal(1)
  {
  }

  // ---------------------------------------------------------------- one transaction

  /** The transaction has staged the projection under the version after the committed one. */
  predicate StagedNext(c: Committed, s: Staged, p: Projection) {
    match p
    case ViewOf(id) => id in s.views && s.views[id].version == NextAfter(VersionIn(c, p))
    case SummaryOf(id) => id in s.summaries
    case HealthOf(id) => id in s.health
  }

  predicate NotStaged(s: Staged, p: Projection) {
    match p
    case ViewOf(id) => id !in s.views
    case SummaryOf(id) => id !in s.summaries
    case HealthOf(id) => id !in s.health
  }

  predicate SameProjections(s: Staged, after: Staged) {
    after.views == s.views && after.summaries == s.summaries && after.health == s.health
  }

  predicate Unprojected(s: Staged, o: Outcome) {
    o.Ok? ==> SameProjections(s, o.value.0)
  }

  // Every other call leaves the staged projections alone.

  lemma DeliveryUnprojected(c: Committed, s: Staged, d: Delivery, v: nat)
    ensures Unprojected(s, SaveDelivery(c, Some(s), d, v))
  {
  }

  lemma FeedbackUnprojected(c: Committed, s: Staged, f: Feedback)
    ensures Unprojected(s, InsertFeedback(c, Some(s), f))
  {
  }

  lemma PublicationUnprojected(c: Committed, s: Staged, a: Acceptance)
    ensures Unprojected(s, InsertPublication(c, Some(s), a))
  {
  }

  lemma MaterialUnprojected(c: Committed, s: Staged, m: Material)
    ensures Unprojected(s, StoreMaterial(c, Some(s), m))
  {
  }

  lemma PlanUnprojected(c: Committed, s: Staged, p: RetryPlan, v: Option<nat>)
    ensures Unprojected(s, SavePlan(c, Some(s), p, v))
  {
    hide OtherScheduled;
  }

  lemma DeadLetterUnprojected(c: Committed, s: Staged, e: DeadLetterEntry, m: FailureMaterial)
    ensures Unprojected(s, SaveDeadLetter(c, Some(s), e, m))
  {
    hide SameDelivery;
  }

  lemma ReplayUnprojected(c: Committed, s: Staged, r: ReplayPreparation)
    ensures Unprojected(s, SaveReplay(c, Some(s), r))
  {
    hide SameApproval, Get;
  }

  lemma AnchorUnprojected(c: Committed, s: Staged, a: Anchor)
    ensures Unprojected(s, BindAnchor(c, Some(s), a))
  {
  }

  lemma OtherCallsUnprojected(c: Committed, s: Staged, op: Op)
    requires !op.UpsertViewOp? && !op.UpsertSummaryOp? && !op.UpsertHealthOp?
    ensures SameProjections(s, Stage(c, s, op).0)
  {
    hide SaveDelivery, InsertFeedback, InsertPublication, StoreMaterial, SavePlan, SaveDeadLetter, SaveReplay, BindAnchor;
    match op {
      case SaveDeliveryOp(d, v) => DeliveryUnprojected(c, s, d, v);
      case InsertFeedbackOp(f) => FeedbackUnprojected(c, s, f);
      case InsertPublicationOp(a) => PublicationUnprojected(c, s, a);
      case StoreMaterialOp(m) => MaterialUnprojected(c, s, m);
      case SavePlanOp(p, v) => PlanUnprojected(c, s, p, v);
      case SaveDeadLetterOp(e, m) => DeadLetterUnprojected(c, s, e, m);
      case SaveReplayOp(r) => ReplayUnprojected(c, s, r);
      case BindAnchorOp(a) => AnchorUnprojected(c, s, a);
      case MarkConflictOp(_) =>
      case AppendAuditOp(_) =>
    }
  }

  lemma OtherOpKeeps(c: Committed, s: Staged, op: Op, p: Projection)
    requires !Upserts(op, p)
    ensures NotStaged(s, p) ==> NotStaged(Stage(c, s, op).0, p)
    ensures StagedNext(c, s, p) ==> StagedNext(c, Stage(c, s, op).0, p)
  {
    hide NextAfter;
    if op.UpsertViewOp? || op.UpsertSummaryOp? || op.UpsertHealthOp? {
      UpsertKeeps(c, s, op, p);
    } else {
      hide Stage;
      OtherCallsUnprojected(c, s, op);
    }
  }

  lemma UpsertKeeps(c: Committed, s: Staged, op: Op, p: Projection)
    requires !Upserts(op, p) && (op.UpsertViewOp? || op.UpsertSummaryOp? || op.UpsertHealthOp?)
    ensures NotStaged(s, p) ==> NotStaged(Stage(c, s, op).0, p)
    ensures StagedNext(c, s, p) ==> StagedNext(c, Stage(c, s, op).0, p)
  {
    hide NextAfter;
    hide SaveDelivery, InsertFeedback, InsertPublication, StoreMaterial, SavePlan, SaveDeadLetter, SaveReplay;
    hide BindAnchor, MarkConflict, AppendAudit;
  }

  lemma UpsertStages(c: Committed, s: Staged, op: Op, p: Projection)
    requires Upserts(op, p)
    ensures StagedNext(c, Stage(c, s, op).0, p) && Stage(c, s, op).1 == Projected(NextAfter(VersionIn(c, p)))
  {
    hide NextAfter;
  }

  /** Every upsert in a transaction is answered with the version after the committed one, and that is
      what the transaction stages. */
  lemma {:induction false} ScriptUpserts(c: Committed, ops: seq<Op>, p: Projection)
    ensures var (s, replies) := Script(c, ops);
      && |replies| == |ops|
      && (if Touches(ops, p) then StagedNext(c, s, p) else NotStaged(s, p))
      && forall i | 0 <= i < |ops| && Upserts(ops[i], p) :: replies[i] == Projected(NextAfter(VersionIn(c, p)))
    decreases |ops|
  {
    hide Stage, NextAfter, Upserts, VersionIn, StagedNext;
    if ops != [] {
      var front, last := ops[..|ops| - 1], ops[|ops| - 1];
      ScriptUpserts(c, front, p);
      var s := Script(c, front).0;
      if Upserts(last, p) {
        UpsertStages(c, s, last, p);
      } else {
        OtherOpKeeps(c, s, last, p);
        assert Touches(ops, p) ==> Touches(front, p) by {
          if Touches(ops, p) {
            var i :| 0 <= i < |ops| && Upserts(ops[i], p);
            assert Upserts(front[i], p);
          }
        }
      }
      assert Touches(front, p) ==> Touches(ops, p) by {
        if Touches(front, p) {
          var i :| 0 <= i < |front| && Upserts(front[i], p);
          assert Upserts(ops[i], p);
        }
      }
    } else {
      NothingStaged(p);
    }
  }

  lemma NothingStaged(p: Projection)
    ensures NotStaged(NOTHING, p)
  {
  }

  /** The version returned while staging is the one committed. */
  lemma CommitVersions(c: Committed, s: Staged, p: Projection)
    ensures StagedNext(c, s, p) ==> VersionIn(Overlay(c, s), p) == Some(NextAfter(VersionIn(c, p)))
    ensures NotStaged(s, p) ==> VersionIn(Overlay(c, s), p) == VersionIn(c, p)
  {
    hide NextAfter;
  }

  // ---------------------------------------------------------------- serial runs

  /** Committed transactions that upsert the projection. */
  function UpsertCount(units: seq<Unit>, p: Projection): nat
    decreases |units|
  {
    if units == [] then 0
    else
      var last := units[|units| - 1];
      UpsertCount(units[..|units| - 1], p) + (if last.Transaction? && Touches(last.ops, p) then 1 else 0)
  }

  lemma UnitCounts(c: Committed, unit: Unit, p: Projection, k: nat)
    requires AtVersion(VersionIn(c, p), k) && k < U64_LIMIT
    ensures AtVersion(VersionIn(Applied(c, unit), p), if unit.Transaction? && Touches(unit.ops, p) then k + 1 else k)
    ensures unit.Transaction? ==>
      var replies := Script(c, unit.ops).1;
      && |replies| == |unit.ops|
      && forall i | 0 <= i < |unit.ops| && Upserts(unit.ops[i], p) :: replies[i] == Projected(VersionNo(k + 1))
  {
    hide Overlay, Script, NextAfter, Upserts, VersionNo, StagedNext, NotStaged;
    NextIsNumbered(VersionIn(c, p), k);
    match unit
    case Transaction(ops, _) =>
      ScriptUpserts(c, ops, p);
      CommitVersions(c, Script(c, ops).0, p);
    case Access(_) =>
  }

  /** In every serial run the k-th committed upsert of a projection is stored under the prefix followed by
      k in decimal. By serializability the same holds of every conflict-free interleaving. */
  lemma {:induction false} VersionsCountUpserts(c: Committed, units: seq<Unit>, p: Projection, k: nat)
    requires AtVersion(VersionIn(c, p), k) && k + UpsertCount(units, p) < U64_LIMIT
    ensures AtVersion(VersionIn(Serially(c, units), p), k + UpsertCount(units, p))
    decreases |units|
  {
    hide Applied, VersionIn, AtVersion;
    if units != [] {
      var n := |units| - 1;
      VersionsCountUpserts(c, units[..n], p, k);
      UnitCounts(Serially(c, units[..n]), units[n], p, k + UpsertCount(units[..n], p));
    }
  }

  lemma InterleavedVersionsCount(c: Committed, events: seq<Event>, p: Projection, k: nat)
    requires AllConflictFree(Start(c), events)
    requires var units := Interleaved(Start(c), events).serial;
      AtVersion(VersionIn(c, p), k) && k + UpsertCount(units, p) < U64_LIMIT
    ensures var w := Interleaved(Start(c), events);
      AtVersion(VersionIn(w.committed, p), k + UpsertCount(w.serial, p))
  {
    hide VersionIn, AtVersion, Explained, SameReplies, Serially, Interleaved, AllConflictFree;
    InterleavingIsSerial(c, events);
    VersionsCountUpserts(c, Interleaved(Start(c), events).serial, p, k);
  }
}
