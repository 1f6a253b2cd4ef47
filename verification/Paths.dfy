/** Runs seen as the ends of their calls: every commit lawful, one after another. */
module Paths {
  import opened Common
  import opened Records
  import opened StoreModel
  import opened Steps
  import opened Budgets
  import opened Invariants
  import opened RecoveryRules
  import PublicationSteps
  import Rules = DeliveryRules

  /** How one call ended, the delivery it may have dispatched first and the plan it ran, if any. */
  datatype Move = Move(exit: Exit, credit: Option<Id>, plan: Option<Id>)

  /** Committing lowers the runs the plan has left. */
  ghost predicate Lowers(c: Committed, s: Staged, id: Id) {
    id in c.plans && id in s.plans && RunsLeft(s.plans[id]) < RunsLeft(c.plans[id])
  }

  ghost predicate LawfulMove(c: Committed, m: Move) {
    m.exit.Commits? ==> Lawful(c, m.exit.staged, m.credit) && (m.plan.Some? ==> Lowers(c, m.exit.staged, m.plan.value))
  }

  function Path(c: Committed, moves: seq<Move>): Committed
    decreases |moves|
  {
    if moves == [] then c else After(Path(c, moves[..|moves| - 1]), moves[|moves| - 1].exit)
  }

  ghost predicate LawfulPath(c: Committed, moves: seq<Move>)
    decreases |moves|
  {
    moves == [] ||
    (var front := moves[..|moves| - 1];
     LawfulPath(c, front) && LawfulMove(Path(c, front), moves[|moves| - 1]))
  }

  // ---------------------------------------------------------------- invariant and order of states

  lemma MoveKeeps(c: Committed, m: Move)
    requires Inv(c) && LawfulMove(c, m)
    ensures Inv(After(c, m.exit)) && Follows(c, After(c, m.exit))
  {
    match m.exit {
      case Commits(s) =>
        LawfulCommit(c, s);
        LawfulFollows(c, s);
      case Appends(e) => AccessKeeps(c, e);
      case _ => FollowsReflexive(c);
    }
  }

  lemma {:induction false} PathKeeps(c: Committed, moves: seq<Move>)
    requires Inv(c) && LawfulPath(c, moves)
    ensures Inv(Path(c, moves)) && Follows(c, Path(c, moves))
    decreases |moves|
  {
    if moves == [] {
      FollowsReflexive(c);
    } else {
      var front := moves[..|moves| - 1];
      PathKeeps(c, front);
      MoveKeeps(Path(c, front), moves[|moves| - 1]);
      FollowsTransitive(c, Path(c, front), Path(c, moves));
    }
  }

  // ---------------------------------------------------------------- conservation of attempts

  /** First dispatches of a delivery that are committed. */
  function FirstDispatches(moves: seq<Move>, id: Id): nat
    decreases |moves|
  {
    if moves == [] then 0
    else FirstDispatches(moves[..|moves| - 1], id) + FirstDispatch(moves[|moves| - 1], id)
  }

  function FirstDispatch(m: Move, id: Id): nat {
    if m.credit == Some(id) && m.exit.Commits? then 1 else 0
  }

  function AttemptCount(ds: map<Id, Delivery>, id: Id): nat {
    if id in ds then |ds[id].attempts| else 0
  }

  /** Attempts no plan has paid for. */
  ghost function Unpaid(ds: map<Id, Delivery>, plans: map<Id, RetryPlan>, id: Id): int {
    AttemptCount(ds, id) - Spent(plans, id)
  }

  lemma CommitConserves(c: Committed, s: Staged, credit: Option<Id>, id: Id)
    requires Balanced(c, s, credit) && id in c.deliveries
    ensures Unpaid(c.deliveries + s.deliveries, c.plans + s.plans, id) ==
            Unpaid(c.deliveries, c.plans, id) + (if credit == Some(id) then 1 else 0)
    ensures credit == Some(id) ==> AttemptCount(c.deliveries, id) == 0
  {
    assert BalancedFor(c, s, credit, id);
  }

  lemma MoveConserves(c: Committed, m: Move, id: Id)
    requires LawfulMove(c, m) && id in c.deliveries
    ensures Unpaid(After(c, m.exit).deliveries, After(c, m.exit).plans, id) ==
            Unpaid(c.deliveries, c.plans, id) + FirstDispatch(m, id)
    ensures FirstDispatch(m, id) > 0 ==> AttemptCount(c.deliveries, id) == 0
  {
    hide After, LawfulTables, Balanced, Spent, AttemptCount, Lowers;
    DeliveriesAfter(c, m.exit);
    PlansAfter(c, m.exit);
    match m.exit {
      case Commits(s) => CommitConserves(c, s, m.credit, id);
      case Appends(_) =>
      case _ =>
    }
  }

  lemma AttemptsGrow(c: Committed, m: Move, id: Id)
    requires LawfulMove(c, m) && id in c.deliveries
    ensures id in After(c, m.exit).deliveries
    ensures AttemptCount(After(c, m.exit).deliveries, id) >= AttemptCount(c.deliveries, id)
    ensures FirstDispatch(m, id) == 1 ==> AttemptCount(After(c, m.exit).deliveries, id) > 0
  {
    match m.exit {
      case Commits(s) => CommitGrows(c, s, m.credit, id);
      case Appends(_) =>
      case _ =>
    }
  }

  lemma CommitGrows(c: Committed, s: Staged, credit: Option<Id>, id: Id)
    requires DeliveriesLawful(c.deliveries, s.deliveries) && Balanced(c, s, credit) && id in c.deliveries
    ensures AttemptCount(c.deliveries + s.deliveries, id) >= AttemptCount(c.deliveries, id)
    ensures credit == Some(id) ==> AttemptCount(c.deliveries + s.deliveries, id) > 0
  {
    DeliveriesCommit(c.deliveries, s.deliveries);
  }

  lemma {:induction false} PathConserves(c: Committed, moves: seq<Move>, id: Id)
    requires Inv(c) && LawfulPath(c, moves) && id in c.deliveries
    ensures id in Path(c, moves).deliveries
    ensures Unpaid(Path(c, moves).deliveries, Path(c, moves).plans, id) ==
            Unpaid(c.deliveries, c.plans, id) + FirstDispatches(moves, id)
    ensures FirstDispatches(moves, id) <= 1
    ensures FirstDispatches(moves, id) == 1 ==> AttemptCount(Path(c, moves).deliveries, id) > 0
    decreases |moves|
  {
    if moves != [] {
      var front, last := moves[..|moves| - 1], moves[|moves| - 1];
      PathConserves(c, front, id);
      PathKeeps(c, front);
      MoveConserves(Path(c, front), last, id);
      AttemptsGrow(Path(c, front), last, id);
    }
  }

  // ---------------------------------------------------------------- retries end

  function CommittedRuns(moves: seq<Move>, id: Id): nat
    decreases |moves|
  {
    if moves == [] then 0
    else CommittedRuns(moves[..|moves| - 1], id) + CommittedRun(moves[|moves| - 1], id)
  }

  function CommittedRun(m: Move, id: Id): nat {
    if m.plan == Some(id) && m.exit.Commits? then 1 else 0
  }

  lemma MoveLowers(c: Committed, m: Move, id: Id)
    requires Inv(c) && LawfulMove(c, m) && id in c.plans
    ensures id in After(c, m.exit).plans
    ensures CommittedRun(m, id) + RunsLeft(After(c, m.exit).plans[id]) <= RunsLeft(c.plans[id])
  {
    MoveKeeps(c, m);
  }

  lemma {:induction false} PathRetriesEnd(c: Committed, moves: seq<Move>, id: Id)
    requires Inv(c) && LawfulPath(c, moves) && id in c.plans
    ensures id in Path(c, moves).plans
    ensures CommittedRuns(moves, id) + RunsLeft(Path(c, moves).plans[id]) <= RunsLeft(c.plans[id])
    decreases |moves|
  {
    if moves != [] {
      var front := moves[..|moves| - 1];
      PathRetriesEnd(c, front, id);
      PathKeeps(c, front);
      MoveLowers(Path(c, front), moves[|moves| - 1], id);
    }
  }

  // ---------------------------------------------------------------- nothing changes unlogged

  /** The publication's material, its decision, the audit entry of the decision and its anchor are all there. */
  ghost predicate DecidedTogether(before: Committed, after: Committed, id: Id) {
    && id in after.materials && id !in before.materials
    && id in after.publications && PublicationSteps.RulingOf(after.publications[id]).Ok?
    && DecisionLogged(before.audits, after.audits, after.publications[id])
    && AnchorAdded(before.anchors, after.anchors, id)
  }

  ghost predicate DecisionLogged(before: seq<AuditEntry>, after: seq<AuditEntry>, a: Acceptance) {
    exists i | |before| <= i < |after| ::
      && after[i].subject == PublicationSubject(a.publicationId) && a.decisionAuditRef == Some(after[i].auditRef)
      && after[i].action == PublicationSteps.DecisionAction(a.rejectReason)
  }

  ghost predicate AnchorAdded(before: map<(Scope, Id), Anchor>, after: map<(Scope, Id), Anchor>, id: Id) {
    exists k | k in after :: k !in before && after[k].bound == PublicationRef(id)
  }

  lemma EntryAdded(before: seq<AuditEntry>, added: seq<AuditEntry>, id: Id, a: Acceptance)
    requires a.publicationId == id
    requires exists e | e in added :: e.subject == PublicationSubject(id) && a.decisionAuditRef == Some(e.auditRef)
                                      && e.action == PublicationSteps.DecisionAction(a.rejectReason)
    ensures DecisionLogged(before, before + added, a)
  {
    var e :| e in added && e.subject == PublicationSubject(id) && a.decisionAuditRef == Some(e.auditRef)
             && e.action == PublicationSteps.DecisionAction(a.rejectReason);
    var j :| 0 <= j < |added| && added[j] == e;
    assert (before + added)[|before| + j] == e;
  }

  lemma AnchorInAll(before: map<(Scope, Id), Anchor>, added: map<(Scope, Id), Anchor>, id: Id)
    requires exists k | k in added :: added[k].bound == PublicationRef(id)
    requires forall k | k in added :: k !in before
    ensures AnchorAdded(before, before + added, id)
  {
    var k :| k in added && added[k].bound == PublicationRef(id);
    assert k in before + added && (before + added)[k] == added[k];
  }

  lemma CommitDecides(c: Committed, s: Staged, id: Id)
    requires AnchorsLawful(c, s) && Logged(s) && id in s.publications
    ensures DecidedTogether(c, Overlay(c, s), id)
  {
    assert Announced(s, id);
    EntryAdded(c.audits, s.audits, id, s.publications[id]);
    AnchorInAll(c.anchors, s.anchors, id);
  }

  /** Only a commit of the publication makes it appear. */
  lemma AppearsByCommit(c: Committed, exit: Exit, id: Id)
    requires id in After(c, exit).publications && id !in c.publications
    ensures exit.Commits? && id in exit.staged.publications && After(c, exit) == Overlay(c, exit.staged)
  {
  }

  lemma MoveDecides(c: Committed, m: Move, id: Id)
    requires LawfulMove(c, m) && id in After(c, m.exit).publications && id !in c.publications
    ensures DecidedTogether(c, After(c, m.exit), id)
  {
    AppearsByCommit(c, m.exit, id);
    CommitDecides(c, m.exit.staged, id);
  }
}
