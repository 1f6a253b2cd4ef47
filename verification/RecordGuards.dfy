/** What the operations on one delivery accept, for any record, sound or not. */
module RecordGuards {
  import opened Common
  import opened Records
  import opened DeliveryRules

  /** The i-th attempt is the first under the identifier. */
  ghost predicate FirstNamed(attempts: seq<Attempt>, id: Id, i: nat) {
    i < |attempts| && attempts[i].attemptId == id && forall j | 0 <= j < i :: attempts[j].attemptId != id
  }

  /** A lookup finds the first attempt under the identifier, or there is none. */
  lemma {:induction false} FindsFirstNamed(attempts: seq<Attempt>, id: Id)
    ensures forall i: nat :: FindAttempt(attempts, id) == Some(i) <==> FirstNamed(attempts, id, i)
    ensures FindAttempt(attempts, id) == None <==> forall i | 0 <= i < |attempts| :: attempts[i].attemptId != id
  {
    if attempts != [] && attempts[0].attemptId != id {
      var rest := attempts[1..];
      FindsFirstNamed(rest, id);
      forall i: nat ensures FirstNamed(attempts, id, i) <==> i > 0 && FirstNamed(rest, id, i - 1) {
        if i > 0 && FirstNamed(rest, id, i - 1) {
          forall j | 0 <= j < i ensures attempts[j].attemptId != id {
            assert j > 0 ==> attempts[j] == rest[j - 1];
          }
        }
        if FirstNamed(attempts, id, i) {
          assert forall j | 0 <= j < |rest| :: rest[j] == attempts[j + 1];
        }
      }
      assert forall j | 0 <= j < |rest| :: rest[j] == attempts[j + 1];
    }
  }

  /** An attempt is closed exactly when it is the referenced one, stored, still open and not started later; then it
      alone changes, and only in its end. */
  lemma FinishGuard(d: Delivery, attemptId: Id, result: BackendResult, at: Timestamp)
    ensures FinishAttempt(d, attemptId, result, at).Ok? <==>
            && d.lastAttemptRef == Some(attemptId)
            && exists i: nat :: FirstNamed(d.attempts, attemptId, i) && d.attempts[i].finishedAt.None? && AtMost(d.attempts[i].startedAt, at)
    ensures FinishAttempt(d, attemptId, result, at).Ok? ==>
      exists i: nat :: FirstNamed(d.attempts, attemptId, i) && FinishAttempt(d, attemptId, result, at).value.0 ==
        d.(attempts := d.attempts[i := d.attempts[i].(backendRef := result.backendRef, finishedAt := Some(at),
                                                      resultStatus := Some(result.status))])
  {
    FindsFirstNamed(d.attempts, attemptId);
  }

  /** A delivery is delivered exactly when it is dispatching and the attempt is its own referenced, stored one, finished
      with success. */
  lemma DeliverGuard(d: Delivery, a: Attempt)
    ensures MarkDelivered(d, a).Ok? <==>
            && d.status == Dispatching && a.deliveryId == d.deliveryId && d.lastAttemptRef == Some(a.attemptId)
            && a.finishedAt.Some? && a.resultStatus == Some(BackendDelivered)
            && exists i: nat :: FirstNamed(d.attempts, a.attemptId, i)
    ensures MarkDelivered(d, a).Ok? ==>
      exists i: nat :: FirstNamed(d.attempts, a.attemptId, i)
                       && MarkDelivered(d, a).value == d.(status := Delivered, attempts := d.attempts[i := a])
  {
    FindsFirstNamed(d.attempts, a.attemptId);
  }

  /** A delivery is completed exactly when it is delivered and its own acknowledged feedback is on its referenced, stored
      attempt, finished with success; then only its status changes. */
  lemma CompleteGuard(d: Delivery, f: Feedback)
    ensures MarkCompleted(d, f).Ok? <==>
            && d.status == Delivered && f.status == Ack && f.deliveryId == d.deliveryId && d.lastAttemptRef == Some(f.attemptId)
            && exists i: nat :: FirstNamed(d.attempts, f.attemptId, i) && d.attempts[i].finishedAt.Some?
                                && d.attempts[i].resultStatus == Some(BackendDelivered)
    ensures MarkCompleted(d, f).Ok? ==> MarkCompleted(d, f).value == d.(status := Completed)
  {
    FindsFirstNamed(d.attempts, f.attemptId);
  }

  const LIFECYCLE: set<(DeliveryStatus, DeliveryStatus)> :=
    {(Scheduled, Dispatching), (Scheduled, Failed), (Dispatching, Delivered), (Dispatching, Failed), (Delivered, Completed),
     (Delivered, Failed), (Failed, Scheduled), (Failed, DeadLettered)}

  /** A history entry is appended exactly when it is the delivery's own and along an edge of the lifecycle; a delivery fails
      exactly along such an edge, with a reason. */
  lemma EdgeGuards(d: Delivery, e: HistoryEntry, reason: string)
    ensures AppendHistory(d, e).Ok? <==> e.deliveryId == d.deliveryId && (e.fromStatus, e.toStatus) in LIFECYCLE
    ensures MarkFailed(d, reason).Ok? <==> !IsBlank(reason) && (d.status, Failed) in LIFECYCLE
    ensures AppendHistory(d, e).Ok? ==> AppendHistory(d, e).value == d.(history := d.history + [e])
    ensures MarkFailed(d, reason).Ok? ==> MarkFailed(d, reason).value == d.(status := Failed)
  {
    hide IsBlank;
  }
}
