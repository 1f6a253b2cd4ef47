/** Which deliveries a progression batch takes up, how its pages follow one another, and what each item means. */
module BatchPages {
  import opened Common
  import opened Records
  import opened StoreModel
  import opened Steps
  import opened Jobs
  import opened Invariants
  import opened ServiceEffects
  import opened DeliverySteps
  import opened DeliveryBatches
  import opened DispatchOutcomes
  import opened BatchEffects
  import Rules = DeliveryRules

  // ---------------------------------------------------------------- pages

  ghost predicate NonePast(c: Committed, cursor: string) {
    forall id | id in c.deliveries :: !Before(cursor, id)
  }

  /** A stored, scheduled delivery past the cursor; past the last stored identifier the scan starts over. */
  ghost predicate Eligible(c: Committed, cursor: string, d: Delivery) {
    && Get(c.deliveries, d.deliveryId) == Some(d) && d.status == Scheduled
    && (Before(cursor, d.deliveryId) || NonePast(c, cursor))
  }

  /** A page is the first eligible deliveries in identifier order, as many as its limit allows. */
  lemma PageScan(c: Committed, cursor: string, size: nat)
    requires Inv(c)
    ensures var page := SchedulablePage(c, cursor, size);
      && |page| <= size && Increasing(Ids(page))
      && (forall d | d in page :: Eligible(c, cursor, d))
      && (forall d | Eligible(c, cursor, d) && d !in page ::
            |page| == size && forall e | e in page :: Before(e.deliveryId, d.deliveryId))
  {
    hide Before, Increasing, Schedulable, Inv;
    var ids, wraps := SortedKeys(c.deliveries.Keys), !AnyAfter(c.deliveries.Keys, cursor);
    var found, page := Schedulable(c.deliveries, ids, cursor, wraps), SchedulablePage(c, cursor, size);
    SortedKeysOrder(c.deliveries.Keys);
    OwnIds(c);
    SchedulableScan(c.deliveries, ids, cursor, wraps);
    PrefixIncreases(found, page);
    assert wraps <==> NonePast(c, cursor);
    forall d | Eligible(c, cursor, d) && d !in page
      ensures |page| == size && forall e | e in page :: Before(e.deliveryId, d.deliveryId)
    {
      assert d in found;
      PastThePage(found, size, d);
    }
  }

  lemma OwnIds(c: Committed)
    requires Inv(c)
    ensures forall id | id in c.deliveries :: c.deliveries[id].deliveryId == id
  {
    hide Rules.WellFormed;
  }

  lemma PastThePage(found: seq<Delivery>, size: nat, d: Delivery)
    requires Increasing(Ids(found)) && d in found && d !in Take(found, size)
    ensures |Take(found, size)| == size && forall e | e in Take(found, size) :: Before(e.deliveryId, d.deliveryId)
  {
    hide Before;
    var j :| 0 <= j < |found| && found[j] == d;
    forall e | e in Take(found, size) ensures Before(e.deliveryId, d.deliveryId) {
      var i :| 0 <= i < |Take(found, size)| && Take(found, size)[i] == e;
      assert Before(Ids(found)[i], Ids(found)[j]);
    }
  }

  /** The page after a page, whatever happened to the deliveries in between, lies past it; it starts over only when no
      identifier is left past it. */
  lemma NextPageFollows(c: Committed, cursor: string, size: nat, later: Committed, nextSize: nat)
    requires Inv(c) && Inv(later) && later.deliveries.Keys == c.deliveries.Keys && SchedulablePage(c, cursor, size) != []
    ensures var page := SchedulablePage(c, cursor, size);
      var next := SchedulablePage(later, CursorAfter(page, cursor), nextSize);
      || (forall d, e | d in page && e in next :: Before(d.deliveryId, e.deliveryId))
      || NonePast(later, page[|page| - 1].deliveryId)
  {
    hide SchedulablePage, Before, Inv;
    var page := SchedulablePage(c, cursor, size);
    var last := page[|page| - 1].deliveryId;
    var next := SchedulablePage(later, last, nextSize);
    PageScan(c, cursor, size);
    PageScan(later, last, nextSize);
    if !NonePast(later, last) {
      forall d, e | d in page && e in next ensures Before(d.deliveryId, e.deliveryId) {
        LastIsGreatest(page, d);
        if d.deliveryId != last {
          BeforeTransitive(d.deliveryId, last, e.deliveryId);
        }
      }
    }
  }

  lemma LastIsGreatest(page: seq<Delivery>, d: Delivery)
    requires Increasing(Ids(page)) && d in page
    ensures d.deliveryId == page[|page| - 1].deliveryId || Before(d.deliveryId, page[|page| - 1].deliveryId)
  {
    hide Before;
    var i :| 0 <= i < |page| && page[i] == d;
    if i < |page| - 1 {
      assert Before(Ids(page)[i], Ids(page)[|page| - 1]);
    }
  }

  // ---------------------------------------------------------------- items

  /** The delivery is gone, or names a capability but is no longer scheduled, its clock ran backwards, or the answer does
      not settle. */
  ghost predicate Overtaken(c: Committed, id: Id, t: DispatchAnswer) {
    id in c.deliveries ==>
      && !IsBlank(c.deliveries[id].capabilityId)
      && (c.deliveries[id].status != Scheduled || Before(t.finishedAt, t.startedAt) || !Settling(t.answer))
  }

  /** The audit log refuses a dispatch that would have committed, in a way that reads as a conflict. */
  ghost predicate LogConflicts(c: Committed, id: Id, t: DispatchAnswer, faults: Faults) {
    && Progressable(c, id, t.startedAt, t.answer, t.finishedAt, NO_FAULTS) && faults.append.Some?
    && faults.append.value in {VersionConflict, UniqueViolation, SequenceConflict}
  }

  lemma DispatchErrors(d: Delivery, startedAt: Timestamp, answer: Result<BackendResult, TransportError>, finishedAt: Timestamp)
    requires Rules.AttemptsOk(d) && Rules.Dispatch(d, d.status, startedAt, answer, finishedAt).Err?
    ensures var e := FromDomain(Rules.Dispatch(d, d.status, startedAt, answer, finishedAt).error);
      if IsBlank(d.capabilityId) then e.ValidationError? else e.ConflictError?
  {
    hide IsBlank, Rules.Settle;
    if d.status == Scheduled && !IsBlank(d.capabilityId) {
      var (started, begun) := Rules.StartAttempt(d, d.capabilityId, startedAt).value;
      var recorded := started.(history := d.history + [Rules.Transition(d.deliveryId, Scheduled, Dispatching, "dispatching_started", startedAt)]);
      Rules.StartKeeps(d, d.capabilityId, startedAt);
      Rules.KeepsAttempts(started, recorded);
      SettleErrors(recorded, begun, answer, finishedAt);
    }
  }

  lemma SettleErrors(d: Delivery, a: Attempt, answer: Result<BackendResult, TransportError>, at: Timestamp)
    requires Rules.AttemptsOk(d) && d.status == Dispatching && a == d.attempts[|d.attempts| - 1]
    requires Rules.Settle(d, a, answer, at).Err?
    ensures FromDomain(Rules.Settle(d, a, answer, at).error).ConflictError?
  {
    Rules.FindsOwn(d, |d.attempts| - 1);
    assert Rules.AttemptOk(d, |d.attempts| - 1);
    FailureTexts();
  }

  /** An item is done when its dispatch commits and the backend accepts, set aside when the delivery was overtaken or the
      log reports a conflict, and failed otherwise. */
  lemma ItemMeaning(st: State, d: Delivery, job: BatchJob, i: nat)
    requires Inv(st.committed)
    ensures var t, item := job.answers(i), ItemOf(BatchStep(st, d, job, i).outcome);
      && (item == Done <==> Progressable(st.committed, d.deliveryId, t.startedAt, t.answer, t.finishedAt, st.faults) && t.answer.Ok?)
      && (item == SetAside <==> Overtaken(st.committed, d.deliveryId, t) || LogConflicts(st.committed, d.deliveryId, t, st.faults))
  {
    hide Inv, IsBlank, Rules.Dispatch, Rules.WellFormed, Rules.AttemptsOk, SaveDelivery, Overlay, Attempted, Narrated, Redispatched;
    var c, id, t := st.committed, d.deliveryId, job.answers(i);
    ProgressDecided(c, id, job.actor, job.trace, t.startedAt, t.answer, t.finishedAt, st.faults);
    if id in c.deliveries && !Progressable(c, id, t.startedAt, t.answer, t.finishedAt, st.faults) {
      RefusalKind(c, c.deliveries[id], id, job.actor, job.trace, t, st.faults);
    }
  }

  /** How a dispatch that does not commit is refused. */
  lemma RefusalKind(c: Committed, d: Delivery, id: Id, actor: Actor, trace: Id, t: DispatchAnswer, faults: Faults)
    requires Inv(c) && Get(c.deliveries, id) == Some(d)
    requires !Progressable(c, id, t.startedAt, t.answer, t.finishedAt, faults)
    ensures var r := ProgressOne(c, id, actor, trace, t.startedAt, t.answer, t.finishedAt, faults).outcome;
      && r.Err? && !r.error.NotFoundError?
      && (r.error.ConflictError? <==> Overtaken(c, id, t) || LogConflicts(c, id, t, faults))
  {
    hide Rules.Dispatch, SaveDelivery, Inv, Rules.WellFormed, IsBlank, EndedAs, Narrated;
    StoredDelivery(c, id);
    SoundAttempts(d);
    if d.status == Scheduled {
      DispatchOutcome(d, t.startedAt, t.answer, t.finishedAt);
    } else {
      OnlyScheduledDispatches(d, t.startedAt, t.answer, t.finishedAt);
    }
    if Rules.Dispatch(d, d.status, t.startedAt, t.answer, t.finishedAt).Ok? {
      DeliverySaves(c, NOTHING, d, Rules.Dispatch(d, d.status, t.startedAt, t.answer, t.finishedAt).value.0);
    } else {
      DispatchErrors(d, t.startedAt, t.answer, t.finishedAt);
    }
  }
}
