/** What retry cycles achieve: each run's item tells how it left its plan, a cycle is a run of
    service calls, and following the cursors visits every due plan exactly once. */
module RetrySweep {
  import opened Common
  import opened Records
  import opened StoreModel
  import opened Steps
  import opened Jobs
  import opened Invariants
  import opened ServiceEffects
  import opened Runs
  import opened RecoveryRules
  import opened RecoverySteps
  import opened RetryCycles
  import Rules = DeliveryRules

  function Ids(plans: seq<RetryPlan>): (ids: seq<Id>)
    ensures |ids| == |plans| && forall i | 0 <= i < |plans| :: ids[i] == plans[i].retryPlanId
  {
    seq(|plans|, i requires 0 <= i < |plans| => plans[i].retryPlanId)
  }

  // ---------------------------------------------------------------- one run

  /** How a run leaves its plan: an attempt spent, exhausted, or untouched. */
  ghost predicate LeftAs(before: RetryPlan, item: ItemResult, after: RetryPlan) {
    match item
    case Done => before.remainingAttempts > 0
                 && after == before.(remainingAttempts := before.remainingAttempts - 1, version := before.version + 1)
    case SetAside => before.remainingAttempts == 0 && after == before.(status := PlanExhausted, version := before.version + 1)
    case FailedItem => after == before
  }

  lemma AttemptLeaves(c: Committed, p: RetryPlan, d: Delivery, actor: Actor, trace: Id, at: Timestamp, ports: RunPorts,
                      faults: Faults) returns (after: RetryPlan)
    requires Get(c.planVersions, p.retryPlanId) == Some(p.version) && Rules.WellFormed(d)
    requires AttemptBody(c, p, d, actor, trace, at, ports, faults).Ok?
    ensures AttemptBody(c, p, d, actor, trace, at, ports, faults).value.0.plans == map[p.retryPlanId := after]
    ensures LeftAs(p, ItemOf(AttemptBody(c, p, d, actor, trace, at, ports, faults).value.1), after)
  {
    hide StageAttempt, Rules.WellFormed;
    var moved, attempted, entry := AttemptShape(c, p, d, actor, trace, at, ports, faults);
    after := attempted.(version := p.version + 1);
  }

  lemma ExhaustLeaves(c: Committed, p: RetryPlan, actor: Actor, trace: Id, at: Timestamp, auditId: Option<Id>, faults: Faults)
    returns (after: RetryPlan)
    requires Get(c.planVersions, p.retryPlanId) == Some(p.version)
    requires ExhaustBody(c, p, actor, trace, at, auditId, faults).Ok?
    ensures ExhaustBody(c, p, actor, trace, at, auditId, faults).value.0.plans == map[p.retryPlanId := after]
    ensures LeftAs(p, ItemOf(ExhaustBody(c, p, actor, trace, at, auditId, faults).value.1), after)
  {
    hide StageExhaust;
    var exhausted, entry := ExhaustShape(c, p, actor, trace, at, auditId, faults);
    after := exhausted.(version := p.version + 1);
  }

  lemma BodyLeaves(c: Committed, p: RetryPlan, actor: Actor, trace: Id, at: Timestamp, ports: RunPorts, faults: Faults)
    returns (after: RetryPlan)
    requires Inv(c) && Get(c.plans, p.retryPlanId) == Some(p)
    requires RunPlanBody(c, p, actor, trace, at, ports, faults).Ok?
    ensures RunPlanBody(c, p, actor, trace, at, ports, faults).value.0.plans == map[p.retryPlanId := after]
    ensures LeftAs(p, ItemOf(RunPlanBody(c, p, actor, trace, at, ports, faults).value.1), after)
  {
    hide AttemptBody, ExhaustBody, Rules.WellFormed;
    StoredPlan(c, p.retryPlanId);
    StoredDelivery(c, p.deliveryId);
    if HasRemaining(p) {
      after := AttemptLeaves(c, p, c.deliveries[p.deliveryId], actor, trace, at, ports, faults);
    } else {
      after := ExhaustLeaves(c, p, actor, trace, at, ports.auditId, faults);
    }
  }

  lemma Rewritten(plans: map<Id, RetryPlan>, id: Id, p: RetryPlan)
    ensures plans + map[id := p] == plans[id := p]
    ensures Get(plans, id) == Some(p) ==> plans[id := p] == plans
  {
  }

  lemma RunLeaves(st: State, p: RetryPlan, job: CycleJob, i: nat) returns (after: RetryPlan)
    requires Inv(st.committed) && Get(st.committed.plans, p.retryPlanId) == Some(p)
    ensures LeftAs(p, ItemOf(CycleStep(st, p, job, i).outcome), after)
    ensures Next(st, CycleStep(st, p, job, i)).committed.plans == st.committed.plans[p.retryPlanId := after]
  {
    hide RunPlanBody, After;
    PlansAfter(st.committed, CycleStep(st, p, job, i).exit);
    Rewritten(st.committed.plans, p.retryPlanId, p);
    var body := RunPlanBody(st.committed, p, job.actor, job.trace, job.now, job.answers(i), st.faults);
    if body.Err? || st.faults.commit.Some? {
      after := p;
    } else {
      after := BodyLeaves(st.committed, p, job.actor, job.trace, job.now, job.answers(i), st.faults);
      Rewritten(st.committed.plans, p.retryPlanId, after);
    }
  }

  // ---------------------------------------------------------------- one cycle

  /** The service calls a cycle makes. */
  function CycleTurns(st: State, plans: seq<RetryPlan>, job: CycleJob): seq<Turn>
    decreases |plans|
  {
    if plans == [] then []
    else
      var n := |plans| - 1;
      CycleTurns(st, plans[..n], job)
      + [Turn(RunCall(plans[n].retryPlanId, job.now, job.answers(n)), job.actor, job.trace, Cycle(st, plans[..n], job).faults)]
  }

  /** The page holds stored plans, each once. */
  ghost predicate StoredPage(c: Committed, plans: seq<RetryPlan>) {
    && (forall i | 0 <= i < |plans| :: Get(c.plans, plans[i].retryPlanId) == Some(plans[i]))
    && (forall i, j | 0 <= i < j < |plans| :: plans[i].retryPlanId != plans[j].retryPlanId)
  }

  /** Each plan of the page is left as its item says and no other plan is touched. */
  ghost predicate CycleLeft(before: map<Id, RetryPlan>, plans: seq<RetryPlan>, items: seq<ItemResult>, after: map<Id, RetryPlan>) {
    && |items| == |plans| && before.Keys == after.Keys
    && (forall i | 0 <= i < |plans| ::
          plans[i].retryPlanId in after && LeftAs(plans[i], items[i], after[plans[i].retryPlanId]))
    && (forall id | id in before && id !in Ids(plans) :: after[id] == before[id])
  }

  lemma OneMoreLeft(before: map<Id, RetryPlan>, plans: seq<RetryPlan>, items: seq<ItemResult>, during: map<Id, RetryPlan>,
                    p: RetryPlan, item: ItemResult, after: RetryPlan)
    requires CycleLeft(before, plans, items, during) && LeftAs(p, item, after)
    requires p.retryPlanId in before && p.retryPlanId !in Ids(plans)
    ensures CycleLeft(before, plans + [p], items + [item], during[p.retryPlanId := after])
  {
    assert forall i | 0 <= i < |plans| :: Ids(plans + [p])[i] == Ids(plans)[i];
    assert Ids(plans + [p]) == Ids(plans) + [p.retryPlanId];
  }

  lemma UpTo(plans: seq<RetryPlan>, n: nat)
    requires n == |plans| - 1
    ensures plans[..n] + [plans[n]] == plans
  {
  }

  /** A retry cycle is a run of service calls, and it leaves every plan of its page as counted. */
  lemma {:induction false} CycleEffect(st: State, plans: seq<RetryPlan>, job: CycleJob)
    requires Inv(st.committed) && StoredPage(st.committed, plans)
    ensures Cycle(st, plans, job).committed == Run(st.committed, CycleTurns(st, plans, job))
    ensures Inv(Cycle(st, plans, job).committed)
    ensures CycleLeft(st.committed.plans, plans, CycleItems(st, plans, job), Cycle(st, plans, job).committed.plans)
    decreases |plans|
  {
    hide ExitOf, RunPlan, After, Inv;
    if plans != [] {
      var n := |plans| - 1;
      CycleEffect(st, plans[..n], job);
      CycleGrows(st, plans, job, n);
    } else {
      assert Ids(plans) == [];
    }
  }

  lemma CycleGrows(st: State, plans: seq<RetryPlan>, job: CycleJob, n: nat)
    requires n == |plans| - 1 && StoredPage(st.committed, plans)
    requires var front := plans[..n];
      && Inv(Cycle(st, front, job).committed)
      && Cycle(st, front, job).committed == Run(st.committed, CycleTurns(st, front, job))
      && CycleLeft(st.committed.plans, front, CycleItems(st, front, job), Cycle(st, front, job).committed.plans)
    ensures Cycle(st, plans, job).committed == Run(st.committed, CycleTurns(st, plans, job))
    ensures Inv(Cycle(st, plans, job).committed)
    ensures CycleLeft(st.committed.plans, plans, CycleItems(st, plans, job), Cycle(st, plans, job).committed.plans)
  {
    hide RunPlan, After, Inv, ExitOf;
    var front, p := plans[..n], plans[n];
    var before := Cycle(st, front, job);
    UpTo(plans, n);
    assert p.retryPlanId !in Ids(front);
    var after := RunLeaves(before, p, job, n);
    OneMoreLeft(st.committed.plans, front, CycleItems(st, front, job), before.committed.plans, p,
                ItemOf(CycleStep(before, p, job, n).outcome), after);
    RunTurn(before, p, job, n);
    var turns := CycleTurns(st, plans, job);
    assert turns[..|turns| - 1] == CycleTurns(st, front, job);
  }

  /** Running a stored plan is a turn of the run. */
  lemma RunTurn(st: State, p: RetryPlan, job: CycleJob, i: nat)
    requires Inv(st.committed) && Get(st.committed.plans, p.retryPlanId) == Some(p)
    ensures var t := Turn(RunCall(p.retryPlanId, job.now, job.answers(i)), job.actor, job.trace, st.faults);
      Next(st, CycleStep(st, p, job, i)).committed == Taken(st.committed, t)
    ensures Inv(Next(st, CycleStep(st, p, job, i)).committed)
  {
    hide After, Inv, RunPlan, ReportExit, ForwardExit;
    RunCallLawful(st.committed, p, job.actor, job.trace, job.now, job.answers(i), st.faults);
    ExitKeeps(st.committed, CycleStep(st, p, job, i).exit);
  }

  // ---------------------------------------------------------------- the due plans as an ordered scan

  predicate IsDue(p: RetryPlan, cursor: string, now: Timestamp) {
    p.status == PlanScheduled && AtMost(p.nextAttemptAt, now) && Before(cursor, p.retryPlanId)
  }

  /** Plans are stored under their identifiers. */
  ghost predicate Keyed(plans: map<Id, RetryPlan>) {
    forall id | id in plans :: plans[id].retryPlanId == id
  }

  /** The scan finds exactly the due plans, in identifier order. */
  lemma {:induction false} DueScan(plans: map<Id, RetryPlan>, ids: seq<Id>, cursor: string, now: Timestamp)
    requires Keyed(plans) && Increasing(ids)
    ensures var due := DuePlans(plans, ids, cursor, now);
      && Increasing(Ids(due))
      && forall p :: p in due <==> p.retryPlanId in ids && Get(plans, p.retryPlanId) == Some(p) && IsDue(p, cursor, now)
  {
    if ids != [] {
      assert ids == [ids[0]] + ids[1..];
      DueScan(plans, ids[1..], cursor, now);
      var rest := DuePlans(plans, ids[1..], cursor, now);
      forall i | 0 <= i < |rest| ensures Before(ids[0], rest[i].retryPlanId) {
        assert rest[i] in rest;
      }
    }
  }

  /** The scan does not look at plans up to the cursor. */
  lemma {:induction false} DueAgrees(plans: map<Id, RetryPlan>, others: map<Id, RetryPlan>, ids: seq<Id>, cursor: string, now: Timestamp)
    requires Keyed(plans) && Keyed(others)
    requires forall id | id in ids && Before(cursor, id) :: Get(plans, id) == Get(others, id)
    ensures DuePlans(plans, ids, cursor, now) == DuePlans(others, ids, cursor, now)
  {
    if ids != [] {
      assert ids[0] in ids;
      DueAgrees(plans, others, ids[1..], cursor, now);
    }
  }

  /** Below every identifier left, the cursor does not matter. */
  lemma {:induction false} DueBelow(plans: map<Id, RetryPlan>, ids: seq<Id>, a: string, b: string, now: Timestamp)
    requires Keyed(plans) && forall id | id in ids :: Before(a, id) && Before(b, id)
    ensures DuePlans(plans, ids, a, now) == DuePlans(plans, ids, b, now)
  {
    if ids != [] {
      assert ids[0] in ids;
      DueBelow(plans, ids[1..], a, b, now);
    }
  }

  lemma Shifted<T>(x: T, rest: seq<T>, k: nat)
    requires 0 < k <= |rest| + 1
    ensures ([x] + rest)[k..] == rest[k - 1..]
    ensures ([x] + rest)[k - 1] == if k == 1 then x else rest[k - 2]
  {
  }

  lemma FirstResumes(plans: map<Id, RetryPlan>, ids: seq<Id>, cursor: string, now: Timestamp)
    requires Keyed(plans) && Increasing(ids) && ids != [] && Before(cursor, ids[0])
    ensures DuePlans(plans, ids, ids[0], now) == DuePlans(plans, ids[1..], cursor, now)
  {
    var h := ids[0];
    forall id | id in ids[1..] ensures Before(h, id) && Before(cursor, id) {
      BeforeTransitive(cursor, h, id);
    }
    DueBelow(plans, ids[1..], h, cursor, now);
    BeforeTotal(h, h);
  }

  lemma NoneDue(plans: map<Id, RetryPlan>, cursor: string, now: Timestamp)
    ensures DuePlans(plans, [], cursor, now) == []
  {
  }

  /** What the first identifier adds to the scan. */
  function FirstDue(plans: map<Id, RetryPlan>, ids: seq<Id>, cursor: string, now: Timestamp): seq<RetryPlan>
    requires ids != []
  {
    if ids[0] in plans && IsDue(plans[ids[0]], cursor, now) then [plans[ids[0]]] else []
  }

  lemma DueStep(plans: map<Id, RetryPlan>, ids: seq<Id>, cursor: string, now: Timestamp)
    requires ids != []
    ensures DuePlans(plans, ids, cursor, now) == FirstDue(plans, ids, cursor, now) + DuePlans(plans, ids[1..], cursor, now)
  {
  }

  /** Scanning on from the k-th plan found yields the plans after it. */
  lemma {:induction false} DueResumes(plans: map<Id, RetryPlan>, ids: seq<Id>, cursor: string, now: Timestamp, k: nat)
    requires Keyed(plans) && Increasing(ids) && 0 < k <= |DuePlans(plans, ids, cursor, now)|
    decreases |ids|, 1
    ensures var due := DuePlans(plans, ids, cursor, now);
      DuePlans(plans, ids, due[k - 1].retryPlanId, now) == due[k..]
  {
    hide Before, Increasing, DuePlans;
    NoneDue(plans, cursor, now);
    var rest := DuePlans(plans, ids[1..], cursor, now);
    DueStep(plans, ids, cursor, now);
    if FirstDue(plans, ids, cursor, now) == [] {
      ResumesInRest(plans, ids, cursor, now, k);
    } else {
      Shifted(plans[ids[0]], rest, k);
      if k == 1 {
        FirstResumes(plans, ids, cursor, now);
      } else {
        ResumesInRest(plans, ids, cursor, now, k - 1);
      }
    }
  }

  /** The first identifier is below every plan found after it. */
  lemma {:induction false} ResumesInRest(plans: map<Id, RetryPlan>, ids: seq<Id>, cursor: string, now: Timestamp, k: nat)
    requires Keyed(plans) && Increasing(ids) && ids != [] && 0 < k <= |DuePlans(plans, ids[1..], cursor, now)|
    decreases |ids|, 0
    ensures var rest := DuePlans(plans, ids[1..], cursor, now);
      DuePlans(plans, ids, rest[k - 1].retryPlanId, now) == rest[k..]
  {
    var rest := DuePlans(plans, ids[1..], cursor, now);
    DueScan(plans, ids[1..], cursor, now);
    DueResumes(plans, ids[1..], cursor, now, k);
    var p := rest[k - 1];
    assert p in rest;
    BeforeTotal(ids[0], p.retryPlanId);
    DueStep(plans, ids, p.retryPlanId, now);
  }

  // ---------------------------------------------------------------- following the cursors

  /** A round of the sweep: its page size and its job. */
  datatype Round = Round(size: nat, job: CycleJob)

  /** The plans run when each cycle starts where the cursor of the one before it ended. */
  function Swept(st: State, cursor: string, rounds: seq<Round>): seq<RetryPlan>
    decreases |rounds|
  {
    if rounds == [] then []
    else
      var page := DueRetryPlans(st.committed, cursor, rounds[0].size, rounds[0].job.now);
      page + Swept(Cycle(st, page, rounds[0].job), CursorAfter(page, cursor), rounds[1..])
  }

  function TotalSize(rounds: seq<Round>): nat {
    if rounds == [] then 0 else rounds[0].size + TotalSize(rounds[1..])
  }

  function AllDue(c: Committed, cursor: string, now: Timestamp): seq<RetryPlan> {
    DuePlans(c.plans, SortedKeys(c.plans.Keys), cursor, now)
  }

  lemma PrefixIncreases(due: seq<RetryPlan>, page: seq<RetryPlan>)
    requires Increasing(Ids(due)) && page <= due
    ensures Increasing(Ids(page)) && forall i, j | 0 <= i < j < |page| :: page[i].retryPlanId != page[j].retryPlanId
  {
    assert forall i | 0 <= i < |page| :: Ids(due)[i] == Ids(page)[i];
    forall i, j | 0 <= i < j < |page| ensures page[i].retryPlanId != page[j].retryPlanId {
      assert Before(Ids(page)[i], Ids(page)[j]);
      BeforeTotal(page[i].retryPlanId, page[i].retryPlanId);
    }
  }

  lemma PageStored(c: Committed, cursor: string, size: nat, now: Timestamp)
    requires Inv(c)
    ensures StoredPage(c, DueRetryPlans(c, cursor, size, now))
  {
    hide Before, Increasing, DuePlans, IsDue, DeadLettersOk, MaterialsOk, ReplaysOk, AnchorsOk;
    var page := DueRetryPlans(c, cursor, size, now);
    SortedKeysOrder(c.plans.Keys);
    DueScan(c.plans, SortedKeys(c.plans.Keys), cursor, now);
    forall i | 0 <= i < |page| ensures Get(c.plans, page[i].retryPlanId) == Some(page[i]) {
      assert page[i] in AllDue(c, cursor, now);
    }
    PrefixIncreases(AllDue(c, cursor, now), page);
  }

  /** After a cycle the plans still due past its cursor are the ones its page left. */
  lemma DueAfterCycle(st: State, cursor: string, size: nat, job: CycleJob)
    requires Inv(st.committed)
    ensures var page := DueRetryPlans(st.committed, cursor, size, job.now);
      && Inv(Cycle(st, page, job).committed)
      && AllDue(Cycle(st, page, job).committed, CursorAfter(page, cursor), job.now) ==
         AllDue(st.committed, cursor, job.now)[|page|..]
  {
    hide Cycle, CycleItems, Run, CycleTurns, DuePlans;
    var page := DueRetryPlans(st.committed, cursor, size, job.now);
    PageStored(st.committed, cursor, size, job.now);
    CycleEffect(st, page, job);
    DuePastPage(st.committed.plans, cursor, size, job.now, CycleItems(st, page, job), Cycle(st, page, job).committed.plans);
  }

  lemma DuePastPage(plans: map<Id, RetryPlan>, cursor: string, size: nat, now: Timestamp, items: seq<ItemResult>,
                    after: map<Id, RetryPlan>)
    requires Keyed(plans) && Keyed(after)
    requires CycleLeft(plans, Take(DuePlans(plans, SortedKeys(plans.Keys), cursor, now), size), items, after)
    ensures var due := DuePlans(plans, SortedKeys(plans.Keys), cursor, now);
      var page := Take(due, size);
      DuePlans(after, SortedKeys(after.Keys), CursorAfter(page, cursor), now) == due[|page|..]
  {
    var ids := SortedKeys(plans.Keys);
    var due := DuePlans(plans, ids, cursor, now);
    var page := Take(due, size);
    SortedKeysOrder(plans.Keys);
    if page != [] {
      DueResumes(plans, ids, cursor, now, |page|);
    }
    NotInPage(plans, ids, cursor, now, page);
    DueAgrees(plans, after, ids, CursorAfter(page, cursor), now);
  }

  /** No plan past the page's cursor is on the page. */
  lemma NotInPage(plans: map<Id, RetryPlan>, ids: seq<Id>, cursor: string, now: Timestamp, page: seq<RetryPlan>)
    requires Keyed(plans) && Increasing(ids) && page <= DuePlans(plans, ids, cursor, now)
    ensures forall id | Before(CursorAfter(page, cursor), id) :: id !in Ids(page)
  {
    hide DuePlans, IsDue;
    DueScan(plans, ids, cursor, now);
    var due := DuePlans(plans, ids, cursor, now);
    forall i | 0 <= i < |page| ensures !Before(CursorAfter(page, cursor), Ids(page)[i]) {
      var n := |page| - 1;
      assert Ids(due)[i] == Ids(page)[i] && Ids(due)[n] == Ids(page)[n];
      BeforeTotal(Ids(page)[n], Ids(page)[i]);
    }
  }

  /** Following the cursors at a fixed time runs the plans due at the start, in identifier order,
      as far as the page sizes reach, whatever each run comes to. */
  lemma {:induction false} SweepFollowsDue(st: State, cursor: string, rounds: seq<Round>, now: Timestamp)
    requires Inv(st.committed) && forall r | r in rounds :: r.job.now == now
    ensures Swept(st, cursor, rounds) == Take(AllDue(st.committed, cursor, now), TotalSize(rounds))
    decreases |rounds|
  {
    hide Inv, Cycle, DuePlans;
    if rounds != [] {
      var page := DueRetryPlans(st.committed, cursor, rounds[0].size, now);
      assert rounds[0] in rounds;
      DueAfterCycle(st, cursor, rounds[0].size, rounds[0].job);
      SweepFollowsDue(Cycle(st, page, rounds[0].job), CursorAfter(page, cursor), rounds[1..], now);
      TakeTwice(AllDue(st.committed, cursor, now), rounds[0].size, TotalSize(rounds[1..]));
    }
  }

  lemma TakeTwice<T>(xs: seq<T>, a: nat, b: nat)
    ensures Take(xs, a + b) == Take(xs, a) + Take(xs[|Take(xs, a)|..], b)
  {
  }

  const ORIGIN: string := "origin"

  /** A sweep from the origin whose pages are large enough runs each plan due then exactly once,
      and every plan the service creates is past the origin. */
  lemma SweepVisitsOnce(st: State, rounds: seq<Round>, now: Timestamp)
    requires Inv(st.committed) && forall r | r in rounds :: r.job.now == now
    requires TotalSize(rounds) >= |AllDue(st.committed, ORIGIN, now)|
    ensures Increasing(Ids(Swept(st, ORIGIN, rounds)))
    ensures forall p :: p in Swept(st, ORIGIN, rounds) <==>
                        Get(st.committed.plans, p.retryPlanId) == Some(p) && IsDue(p, ORIGIN, now)
  {
    SweepFollowsDue(st, ORIGIN, rounds, now);
    SortedKeysOrder(st.committed.plans.Keys);
    DueScan(st.committed.plans, SortedKeys(st.committed.plans.Keys), ORIGIN, now);
  }

  lemma CreatedPastOrigin(d: Delivery, reason: string, policyRef: Id, maxAttempts: nat, now: Timestamp, later: Timestamp)
    requires CreatePlan(d, reason, policyRef, maxAttempts, now).Ok? && AtMost(now, later)
    ensures IsDue(CreatePlan(d, reason, policyRef, maxAttempts, now).value, ORIGIN, later)
  {
    assert PlanId(d.deliveryId, policyRef, now)[0] == 'r' && ORIGIN[0] == 'o';
  }
}
