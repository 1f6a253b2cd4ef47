/** What a progression batch achieves: it is a run of service calls, touches only the deliveries of
    its page, and its counters say how each was left. */
module BatchEffects {
  import opened Common
  import opened Records
  import opened StoreModel
  import opened Steps
  import opened Jobs
  import opened Invariants
  import opened ServiceEffects
  import opened Runs
  import opened Paths
  import opened DeliverySteps
  import opened DeliveryBatches
  import Rules = DeliveryRules

  function Ids(page: seq<Delivery>): (ids: seq<Id>)
    ensures |ids| == |page| && forall i | 0 <= i < |page| :: ids[i] == page[i].deliveryId
  {
    seq(|page|, i requires 0 <= i < |page| => page[i].deliveryId)
  }

  // ---------------------------------------------------------------- one dispatch

  /** A done item is a delivery that arrived with one attempt more; a skipped one is untouched; a failed
      one is untouched or failed with one attempt more. */
  ghost predicate LeftAs(before: Delivery, item: ItemResult, after: Delivery) {
    || (item != Done && after == before)
    || (item != SetAside && after.attemptCount == before.attemptCount + 1 && after.version == before.version + 1
        && after.status == (if item == Done then Delivered else Failed))
  }

  lemma DispatchLeaves(c: Committed, d: Delivery, actor: Actor, trace: Id, turn: DispatchAnswer, faults: Faults)
    returns (after: Delivery)
    requires Rules.AttemptsOk(d)
    requires DispatchBody(c, d, actor, trace, turn.startedAt, turn.answer, turn.finishedAt, faults).Ok?
    ensures var (s, outcome) := DispatchBody(c, d, actor, trace, turn.startedAt, turn.answer, turn.finishedAt, faults).value;
      s.deliveries == map[d.deliveryId := after] && ItemOf(outcome) != SetAside && LeftAs(d, ItemOf(outcome), after)
  {
    hide Rules.Dispatch, Rules.AttemptsOk;
    var moved := Rules.Dispatch(d, d.status, turn.startedAt, turn.answer, turn.finishedAt).value.0;
    Rules.DispatchEffect(d, turn.startedAt, turn.answer, turn.finishedAt);
    DeliverySaved(c, NOTHING, d, moved);
    after := Rules.Saved(d, moved);
  }

  lemma Rewritten(ds: map<Id, Delivery>, id: Id, d: Delivery)
    ensures ds + map[id := d] == ds[id := d]
    ensures Get(ds, id) == Some(d) ==> ds[id := d] == ds
  {
  }

  lemma StepLeaves(st: State, d: Delivery, job: BatchJob, i: nat) returns (after: Delivery)
    requires Inv(st.committed) && Get(st.committed.deliveries, d.deliveryId) == Some(d)
    ensures LeftAs(d, ItemOf(BatchStep(st, d, job, i).outcome), after)
    ensures Next(st, BatchStep(st, d, job, i)).committed.deliveries == st.committed.deliveries[d.deliveryId := after]
  {
    hide DispatchBody, After, Rules.AttemptsOk;
    var c, turn := st.committed, job.answers(i);
    DeliveriesAfter(c, BatchStep(st, d, job, i).exit);
    Rewritten(c.deliveries, d.deliveryId, d);
    StoredDelivery(c, d.deliveryId);
    var body := DispatchBody(c, d, job.actor, job.trace, turn.startedAt, turn.answer, turn.finishedAt, st.faults);
    if body.Err? || st.faults.commit.Some? {
      after := d;
    } else {
      after := DispatchLeaves(c, d, job.actor, job.trace, turn, st.faults);
      Rewritten(c.deliveries, d.deliveryId, after);
    }
  }

  // ---------------------------------------------------------------- one batch

  /** The service calls a batch makes. */
  function BatchTurns(st: State, page: seq<Delivery>, job: BatchJob): seq<Turn>
    decreases |page|
  {
    if page == [] then []
    else
      var n := |page| - 1;
      var turn := job.answers(n);
      BatchTurns(st, page[..n], job)
      + [Turn(ProgressCall(page[n].deliveryId, turn.startedAt, turn.answer, turn.finishedAt), job.actor, job.trace,
              Batch(st, page[..n], job).faults)]
  }

  /** The page holds stored deliveries, each once. */
  ghost predicate StoredPage(c: Committed, page: seq<Delivery>) {
    && (forall i | 0 <= i < |page| :: Get(c.deliveries, page[i].deliveryId) == Some(page[i]))
    && (forall i, j | 0 <= i < j < |page| :: page[i].deliveryId != page[j].deliveryId)
  }

  ghost predicate BatchLeft(before: map<Id, Delivery>, page: seq<Delivery>, items: seq<ItemResult>, after: map<Id, Delivery>) {
    && |items| == |page| && before.Keys == after.Keys
    && (forall i | 0 <= i < |page| :: page[i].deliveryId in after && LeftAs(page[i], items[i], after[page[i].deliveryId]))
    && (forall id | id in before && id !in Ids(page) :: after[id] == before[id])
  }

  lemma OneMoreLeft(before: map<Id, Delivery>, page: seq<Delivery>, items: seq<ItemResult>, during: map<Id, Delivery>,
                    d: Delivery, item: ItemResult, after: Delivery)
    requires BatchLeft(before, page, items, during) && LeftAs(d, item, after)
    requires d.deliveryId in before && d.deliveryId !in Ids(page)
    ensures BatchLeft(before, page + [d], items + [item], during[d.deliveryId := after])
  {
    assert forall i | 0 <= i < |page| :: Ids(page + [d])[i] == Ids(page)[i];
    assert Ids(page + [d]) == Ids(page) + [d.deliveryId];
  }

  /** Dispatching a delivery is a turn of the run. */
  lemma DispatchTurn(st: State, d: Delivery, job: BatchJob, i: nat)
    requires Inv(st.committed)
    ensures var turn := job.answers(i);
      var t := Turn(ProgressCall(d.deliveryId, turn.startedAt, turn.answer, turn.finishedAt), job.actor, job.trace, st.faults);
      Next(st, BatchStep(st, d, job, i)).committed == Taken(st.committed, t)
    ensures Inv(Next(st, BatchStep(st, d, job, i)).committed)
  {
    hide After, Inv, ProgressOne, ReportExit, RecoveryExit;
    var turn := job.answers(i);
    ProgressCallLawful(st.committed, d.deliveryId, job.actor, job.trace, turn.startedAt, turn.answer, turn.finishedAt, st.faults);
    MoveKeeps(st.committed, Move(BatchStep(st, d, job, i).exit, Some(d.deliveryId), None));
  }

  lemma UpTo(page: seq<Delivery>, n: nat)
    requires n == |page| - 1
    ensures page[..n] + [page[n]] == page
  {
  }

  /** A progression batch is a run of service calls, and it leaves every delivery of its page as counted. */
  lemma {:induction false} BatchEffect(st: State, page: seq<Delivery>, job: BatchJob)
    requires Inv(st.committed) && StoredPage(st.committed, page)
    ensures Batch(st, page, job).committed == Run(st.committed, BatchTurns(st, page, job))
    ensures Inv(Batch(st, page, job).committed)
    ensures BatchLeft(st.committed.deliveries, page, BatchItems(st, page, job), Batch(st, page, job).committed.deliveries)
    decreases |page|
  {
    hide ExitOf, ProgressOne, After, Inv;
    if page != [] {
      var n := |page| - 1;
      BatchEffect(st, page[..n], job);
      BatchGrows(st, page, job, n);
    } else {
      assert Ids(page) == [];
    }
  }

  lemma BatchGrows(st: State, page: seq<Delivery>, job: BatchJob, n: nat)
    requires n == |page| - 1 && StoredPage(st.committed, page)
    requires var front := page[..n];
      && Inv(Batch(st, front, job).committed)
      && Batch(st, front, job).committed == Run(st.committed, BatchTurns(st, front, job))
      && BatchLeft(st.committed.deliveries, front, BatchItems(st, front, job), Batch(st, front, job).committed.deliveries)
    ensures Batch(st, page, job).committed == Run(st.committed, BatchTurns(st, page, job))
    ensures Inv(Batch(st, page, job).committed)
    ensures BatchLeft(st.committed.deliveries, page, BatchItems(st, page, job), Batch(st, page, job).committed.deliveries)
  {
    hide ProgressOne, After, Inv, ExitOf;
    var front, d := page[..n], page[n];
    var before := Batch(st, front, job);
    UpTo(page, n);
    assert d.deliveryId !in Ids(front);
    var after := StepLeaves(before, d, job, n);
    OneMoreLeft(st.committed.deliveries, front, BatchItems(st, front, job), before.committed.deliveries, d,
                ItemOf(BatchStep(before, d, job, n).outcome), after);
    DispatchTurn(before, d, job, n);
    var turns := BatchTurns(st, page, job);
    assert turns[..|turns| - 1] == BatchTurns(st, front, job);
  }

  // ---------------------------------------------------------------- the page

  /** The scan finds scheduled deliveries only, in identifier order; unless it wraps, only those past the cursor. */
  lemma {:induction false} SchedulableScan(ds: map<Id, Delivery>, ids: seq<Id>, cursor: string, wraps: bool)
    requires Increasing(ids) && forall id | id in ds :: ds[id].deliveryId == id
    ensures var found := Schedulable(ds, ids, cursor, wraps);
      && Increasing(Ids(found))
      && forall d :: d in found <==> d.deliveryId in ids && Get(ds, d.deliveryId) == Some(d) && d.status == Scheduled
                                     && (wraps || Before(cursor, d.deliveryId))
  {
    if ids != [] {
      assert ids == [ids[0]] + ids[1..];
      SchedulableScan(ds, ids[1..], cursor, wraps);
      var rest := Schedulable(ds, ids[1..], cursor, wraps);
      forall i | 0 <= i < |rest| ensures Before(ids[0], rest[i].deliveryId) {
        assert rest[i] in rest;
      }
    }
  }

  lemma PrefixIncreases(found: seq<Delivery>, page: seq<Delivery>)
    requires Increasing(Ids(found)) && page <= found
    ensures Increasing(Ids(page)) && forall i, j | 0 <= i < j < |page| :: page[i].deliveryId != page[j].deliveryId
  {
    assert forall i | 0 <= i < |page| :: Ids(found)[i] == Ids(page)[i];
    forall i, j | 0 <= i < j < |page| ensures page[i].deliveryId != page[j].deliveryId {
      assert Before(Ids(page)[i], Ids(page)[j]);
      BeforeTotal(page[i].deliveryId, page[i].deliveryId);
    }
  }

  lemma PageStored(c: Committed, cursor: string, size: nat)
    requires Inv(c)
    ensures var page := SchedulablePage(c, cursor, size);
      StoredPage(c, page) && Increasing(Ids(page)) && forall i | 0 <= i < |page| :: page[i].status == Scheduled
  {
    hide Before, Increasing, Schedulable, AnyAfter, DeadLettersOk, MaterialsOk, ReplaysOk, AnchorsOk;
    var page := SchedulablePage(c, cursor, size);
    var found := Schedulable(c.deliveries, SortedKeys(c.deliveries.Keys), cursor, !AnyAfter(c.deliveries.Keys, cursor));
    SortedKeysOrder(c.deliveries.Keys);
    SchedulableScan(c.deliveries, SortedKeys(c.deliveries.Keys), cursor, !AnyAfter(c.deliveries.Keys, cursor));
    PrefixIncreases(found, page);
    forall i | 0 <= i < |page| ensures Get(c.deliveries, page[i].deliveryId) == Some(page[i]) && page[i].status == Scheduled {
      assert page[i] in found;
    }
  }

  // ---------------------------------------------------------------- the counters

  /** Deliveries of the page with the status, in the given table. */
  function WithStatus(ds: map<Id, Delivery>, page: seq<Delivery>, status: DeliveryStatus): nat
    decreases |page|
  {
    if page == [] then 0
    else
      var id := page[|page| - 1].deliveryId;
      WithStatus(ds, page[..|page| - 1], status) + (if id in ds && ds[id].status == status then 1 else 0)
  }

  lemma {:induction false} DoneHaveArrived(page: seq<Delivery>, items: seq<ItemResult>, after: map<Id, Delivery>)
    requires |items| == |page| && forall i | 0 <= i < |page| :: page[i].status == Scheduled
    requires forall i | 0 <= i < |page| :: page[i].deliveryId in after && LeftAs(page[i], items[i], after[page[i].deliveryId])
    ensures Count(items, Done) == WithStatus(after, page, Delivered)
    ensures Count(items, FailedItem) >= WithStatus(after, page, Failed)
    decreases |page|
  {
    if page != [] {
      DoneHaveArrived(page[..|page| - 1], items[..|items| - 1], after);
    }
  }

  /** The dispatched counter of a batch is the number of its deliveries that have arrived when it ends. */
  lemma BatchCountsArrivals(st: State, cursor: string, size: nat, job: BatchJob)
    requires Inv(st.committed)
    ensures var page := SchedulablePage(st.committed, cursor, size);
      var end := Batch(st, page, job).committed;
      && Inv(end) && Count(BatchItems(st, page, job), Done) == WithStatus(end.deliveries, page, Delivered)
      && forall id | id in st.committed.deliveries && id !in Ids(page) :: Get(end.deliveries, id) == Some(st.committed.deliveries[id])
  {
    hide Inv, Batch, BatchItems, SchedulablePage, Run, BatchTurns;
    var page := SchedulablePage(st.committed, cursor, size);
    PageStored(st.committed, cursor, size);
    BatchEffect(st, page, job);
    DoneHaveArrived(page, BatchItems(st, page, job), Batch(st, page, job).committed.deliveries);
  }
}
