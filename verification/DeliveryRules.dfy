/** Delivery lifecycle: what each operation on a delivery does to its value,
    and the properties every service flow keeps. */
module DeliveryRules {
  import opened Common
  import opened Numerals
  import opened Records

  // ---------------------------------------------------------------- lifecycle

  predicate CanTransition(source: DeliveryStatus, target: DeliveryStatus) {
    match (source, target)
    case (Scheduled, Dispatching) => true
    case (Scheduled, Failed) => true
    case (Dispatching, Delivered) => true
    case (Dispatching, Failed) => true
    case (Delivered, Completed) => true
    case (Delivered, Failed) => true
    case (Failed, Scheduled) => true
    case (Failed, DeadLettered) => true
    case _ => false
  }

  predicate RequiresHistory(source: DeliveryStatus, target: DeliveryStatus) {
    CanTransition(source, target) && source != target
  }

  predicate IsTerminal(s: DeliveryStatus) {
    s.Completed? || s.DeadLettered?
  }

  function StatusName(s: DeliveryStatus): string {
    match s
    case Scheduled => "scheduled"
    case Dispatching => "dispatching"
    case Delivered => "delivered"
    case Failed => "failed"
    case DeadLettered => "deadlettered"
    case Completed => "completed"
  }

  function AttemptId(deliveryId: Id, attemptNo: nat): Id {
    "attempt_" + Sanitize(deliveryId) + "_" + Decimal(attemptNo)
  }

  function HistoryId(deliveryId: Id, source: DeliveryStatus, target: DeliveryStatus, at: Timestamp): Id {
    "history_" + Sanitize(deliveryId) + "_" + StatusName(source) + "_" + StatusName(target) + "_" + Sanitize(at)
  }

  function Transition(deliveryId: Id, source: DeliveryStatus, target: DeliveryStatus,
                      reason: string, at: Timestamp): HistoryEntry
  {
    HistoryEntry(HistoryId(deliveryId, source, target, at), deliveryId, source, target, reason, at)
  }

  // ---------------------------------------------------------------- attempts

  function BeginAttempt(deliveryId: Id, attemptNo: nat, at: Timestamp): Attempt {
    Attempt(AttemptId(deliveryId, attemptNo), deliveryId, attemptNo, None, at, None, None)
  }

  function FinishedAttempt(a: Attempt, result: BackendResult, at: Timestamp): Result<Attempt, DomainError> {
    if a.IsFinished() then Err(AttemptAlreadyFinished)
    else if Before(at, a.startedAt) then Err(AttemptFinishedBeforeStart)
    else Ok(a.(backendRef := result.backendRef, finishedAt := Some(at), resultStatus := Some(result.status)))
  }

  /** Index of the first attempt with the given identifier. */
  function FindAttempt(attempts: seq<Attempt>, id: Id): (r: Option<nat>)
    ensures r.Some? ==> r.value < |attempts| && attempts[r.value].attemptId == id
  {
    if attempts == [] then None
    else if attempts[0].attemptId == id then Some(0)
    else match FindAttempt(attempts[1..], id)
      case None => None
      case Some(i) => Some(i + 1)
  }

  // ---------------------------------------------------------------- operations on a delivery

  function StartAttempt(d: Delivery, capabilityId: Id, at: Timestamp): Result<(Delivery, Attempt), DomainError> {
    if IsBlank(capabilityId) then Err(InvalidDeliveryRecord("backend_capability_ref"))
    else if IsTerminal(d.status) then Err(TerminalDeliveryStateReopenRejected)
    else if d.status != Scheduled then Err(InvalidDeliveryTransition(d.status, Dispatching))
    else
      var a := BeginAttempt(d.deliveryId, d.attemptCount + 1, at);
      Ok((d.(attemptCount := d.attemptCount + 1, lastAttemptRef := Some(a.attemptId),
             status := Dispatching, attempts := d.attempts + [a]), a))
  }

  function AppendHistory(d: Delivery, e: HistoryEntry): Result<Delivery, DomainError> {
    if e.deliveryId != d.deliveryId then Err(InvalidDeliveryRecord("history.delivery_id"))
    else if !RequiresHistory(e.fromStatus, e.toStatus) then Err(InvalidDeliveryRecord("history.transition"))
    else Ok(d.(history := d.history + [e]))
  }

  function SyncAttempt(d: Delivery, a: Attempt): Result<Delivery, DomainError> {
    if a.deliveryId != d.deliveryId then Err(AttemptDoesNotBelongToDelivery)
    else match FindAttempt(d.attempts, a.attemptId)
      case None => Err(AttemptRefMismatch)
      case Some(i) => Ok(d.(attempts := d.attempts[i := a]))
  }

  function FinishAttempt(d: Delivery, attemptId: Id, result: BackendResult, at: Timestamp)
    : Result<(Delivery, Attempt), DomainError>
  {
    if d.lastAttemptRef != Some(attemptId) then Err(AttemptRefMismatch)
    else match FindAttempt(d.attempts, attemptId)
      case None => Err(AttemptRefMismatch)
      case Some(i) =>
        var a :- FinishedAttempt(d.attempts[i], result, at);
        Ok((d.(attempts := d.attempts[i := a]), a))
  }

  function MarkDelivered(d: Delivery, a: Attempt): Result<Delivery, DomainError> {
    if d.status != Dispatching then Err(InvalidDeliveryTransition(d.status, Delivered))
    else if a.deliveryId != d.deliveryId then Err(AttemptDoesNotBelongToDelivery)
    else if d.lastAttemptRef != Some(a.attemptId) then Err(AttemptRefMismatch)
    else if !a.IsFinished() then Err(AttemptNotFinished)
    else if a.resultStatus != Some(BackendDelivered) then Err(AttemptOutcomeDoesNotDeliver)
    else
      var synced :- SyncAttempt(d, a);
      Ok(synced.(status := Delivered))
  }

  function MarkFailed(d: Delivery, reason: string): Result<Delivery, DomainError> {
    if IsBlank(reason) then Err(InvalidDeliveryRecord("failure_reason"))
    else if IsTerminal(d.status) then Err(TerminalDeliveryStateReopenRejected)
    else if !CanTransition(d.status, Failed) then Err(InvalidDeliveryTransition(d.status, Failed))
    else Ok(d.(status := Failed))
  }

  function RescheduleForRetry(d: Delivery): Result<Delivery, DomainError> {
    if d.status != Failed then Err(RetryNotAllowed) else Ok(d.(status := Scheduled))
  }

  function MarkDeadLettered(d: Delivery, deadLetterId: Id): Result<Delivery, DomainError> {
    if IsBlank(deadLetterId) then Err(InvalidDeliveryRecord("dead_letter_id"))
    else if d.status != Failed then Err(DeadLetterNotAllowed)
    else Ok(d.(status := DeadLettered))
  }

  function MarkCompleted(d: Delivery, f: Feedback): Result<Delivery, DomainError> {
    if f.deliveryId != d.deliveryId then Err(InvalidFeedbackResult("feedback.delivery_id"))
    else if f.status != Ack then Err(InvalidFeedbackResult("feedback.status"))
    else if IsTerminal(d.status) then Err(TerminalDeliveryStateReopenRejected)
    else if d.status != Delivered then Err(InvalidDeliveryTransition(d.status, Completed))
    else if d.lastAttemptRef != Some(f.attemptId) then Err(AttemptRefMismatch)
    else match FindAttempt(d.attempts, f.attemptId)
      case None => Err(AttemptRefMismatch)
      case Some(i) =>
        if !d.attempts[i].IsFinished() then Err(AttemptNotFinished)
        else if d.attempts[i].resultStatus != Some(BackendDelivered) then Err(AttemptOutcomeDoesNotDeliver)
        else Ok(d.(status := Completed))
  }

  // ---------------------------------------------------------------- service flows over one delivery

  /** Failure reason recorded when the backend refuses a dispatch. */
  function DispatchFailureReason(e: TransportError): string {
    if e.BackendUnavailable? || e.DispatchTimeout? then "backend_unavailable" else "dispatch_failed"
  }

  /** Settles a started attempt with the backend's answer and records the history edge. */
  function Settle(d: Delivery, a: Attempt, answer: Result<BackendResult, TransportError>, at: Timestamp)
    : Result<(Delivery, Attempt), DomainError>
  {
    match answer
    case Ok(result) =>
      var finished :- FinishedAttempt(a, result, at);
      var delivered :- MarkDelivered(d, finished);
      var recorded :- AppendHistory(delivered,
        Transition(delivered.deliveryId, Dispatching, Delivered, "delivery_arrived", at));
      Ok((recorded, finished))
    case Err(error) =>
      var finished :- FinishedAttempt(a, BackendResult(BackendFailed, None), at);
      var synced :- SyncAttempt(d, finished);
      var failed :- MarkFailed(synced, DispatchFailureReason(error));
      var recorded :- AppendHistory(failed,
        Transition(failed.deliveryId, Dispatching, Failed, "delivery_failed", at));
      Ok((recorded, finished))
  }

  /** One dispatch from a scheduled delivery: start, record, ask the backend, settle. */
  function Dispatch(d: Delivery, source: DeliveryStatus, startedAt: Timestamp,
                    answer: Result<BackendResult, TransportError>, finishedAt: Timestamp)
    : Result<(Delivery, Attempt), DomainError>
  {
    var (started, a) :- StartAttempt(d, d.capabilityId, startedAt);
    var recorded :- AppendHistory(started,
      Transition(started.deliveryId, source, Dispatching, "dispatching_started", startedAt));
    Settle(recorded, a, answer, finishedAt)
  }

  /** A failed delivery is put back to scheduled; any other is left alone. */
  function Reschedule(d: Delivery, at: Timestamp): Result<Delivery, DomainError> {
    if d.status != Failed then Ok(d)
    else
      match RescheduleForRetry(d)
      case Ok(scheduled) => AppendHistory(scheduled, Transition(d.deliveryId, Failed, Scheduled, "retry_rescheduled", at))
      case Err(e) => Err(e)
  }

  /** Acknowledged feedback completes a delivered delivery. */
  function AckFlow(d: Delivery, f: Feedback): Result<Delivery, DomainError> {
    var completed :- MarkCompleted(d, f);
    AppendHistory(completed, Transition(d.deliveryId, d.status, Completed, "feedback_ack", f.observedAt))
  }

  /** Marks a delivery failed, recording the edge from the status it was loaded with. */
  function FailFlow(d: Delivery, source: DeliveryStatus, failure: string, reason: string, at: Timestamp)
    : Result<Delivery, DomainError>
  {
    var failed :- MarkFailed(d, failure);
    AppendHistory(failed, Transition(d.deliveryId, source, Failed, reason, at))
  }

  /** Marks a dispatching delivery delivered by its finished attempt. */
  function ArriveFlow(d: Delivery, source: DeliveryStatus, a: Attempt, at: Timestamp)
    : Result<Delivery, DomainError>
  {
    var delivered :- MarkDelivered(d, a);
    AppendHistory(delivered, Transition(d.deliveryId, source, Delivered, "delivery_arrived", at))
  }

  /** Moves a failed delivery to the dead-letter state. */
  function DeadLetterFlow(d: Delivery, deadLetterId: Id, at: Timestamp): Result<Delivery, DomainError> {
    var dead :- MarkDeadLettered(d, deadLetterId);
    AppendHistory(dead, Transition(d.deliveryId, Failed, DeadLettered, "dead_lettered", at))
  }

  // ---------------------------------------------------------------- well-formed deliveries

  ghost predicate AttemptOk(d: Delivery, i: nat)
    requires i < |d.attempts|
  {
    var a := d.attempts[i];
    && Named(a, d.deliveryId, i + 1)
    && (a.IsFinished() <==> !(d.status == Dispatching && i == |d.attempts| - 1))
    && (a.finishedAt.Some? ==> AtMost(a.startedAt, a.finishedAt.value))
    && (a.resultStatus.Some? <==> a.finishedAt.Some?)
  }

  /** Attempts are numbered from one, named after their number, finished except the last
      one of a dispatching delivery, and a delivered or completed delivery ends in success. */
  ghost predicate AttemptsOk(d: Delivery) {
    && d.attemptCount == |d.attempts|
    && (forall i | 0 <= i < |d.attempts| :: AttemptOk(d, i))
    && d.lastAttemptRef == (if d.attempts == [] then None else Some(d.attempts[|d.attempts| - 1].attemptId))
    && (d.status in {Dispatching, Delivered, Completed} ==> d.attempts != [])
    && (d.status in {Delivered, Completed} ==>
          d.attempts[|d.attempts| - 1].resultStatus == Some(BackendDelivered))
  }

  /** A stored delivery: sound attempts, and a scheduled one was never dispatched. */
  ghost predicate WellFormed(d: Delivery) {
    AttemptsOk(d) && (d.status == Scheduled ==> d.attempts == [])
  }

  lemma AttemptIdInjective(deliveryId: Id, i: nat, j: nat)
    requires AttemptId(deliveryId, i) == AttemptId(deliveryId, j)
    ensures i == j
  {
    var prefix := "attempt_" + Sanitize(deliveryId) + "_";
    assert AttemptId(deliveryId, i) == prefix + Decimal(i) && AttemptId(deliveryId, j) == prefix + Decimal(j);
    assert (prefix + Decimal(i))[|prefix|..] == Decimal(i);
    assert (prefix + Decimal(j))[|prefix|..] == Decimal(j);
    DecimalInjective(i, j);
  }

  ghost predicate Named(a: Attempt, deliveryId: Id, no: nat) {
    a.deliveryId == deliveryId && a.attemptNo == no && a.attemptId == AttemptId(deliveryId, no)
  }

  lemma NamesDistinct(a: Attempt, b: Attempt, deliveryId: Id, i: nat, j: nat)
    requires Named(a, deliveryId, i) && Named(b, deliveryId, j) && a.attemptId == b.attemptId
    ensures i == j
  {
    AttemptIdInjective(deliveryId, i, j);
  }

  /** Attempt identifiers of a well-formed delivery are distinct. */
  lemma AttemptIdsDistinct(d: Delivery, i: nat, j: nat)
    requires AttemptsOk(d) && i < |d.attempts| && j < |d.attempts|
    requires d.attempts[i].attemptId == d.attempts[j].attemptId
    ensures i == j
  {
    assert AttemptOk(d, i) && AttemptOk(d, j);
    NamesDistinct(d.attempts[i], d.attempts[j], d.deliveryId, i + 1, j + 1);
  }

  lemma {:induction false} FindsFirst(attempts: seq<Attempt>, k: nat)
    requires k < |attempts|
    requires forall i | 0 <= i < k :: attempts[i].attemptId != attempts[k].attemptId
    ensures FindAttempt(attempts, attempts[k].attemptId) == Some(k)
  {
    if k > 0 {
      FindsFirst(attempts[1..], k - 1);
    }
  }

  /** Looking up an attempt by its own identifier finds exactly that attempt. */
  lemma FindsOwn(d: Delivery, k: nat)
    requires AttemptsOk(d) && k < |d.attempts|
    ensures FindAttempt(d.attempts, d.attempts[k].attemptId) == Some(k)
  {
    forall i | 0 <= i < k ensures d.attempts[i].attemptId != d.attempts[k].attemptId {
      if d.attempts[i].attemptId == d.attempts[k].attemptId {
        AttemptIdsDistinct(d, i, k);
      }
    }
    FindsFirst(d.attempts, k);
  }

  /** Attempts are numbered from one under distinct identifiers, each finished not before it started, all
      finished but the last of a dispatching delivery; the last one is referenced, a delivered or completed
      delivery ends in success, and a scheduled one has none. */
  ghost predicate InOrder(d: Delivery) {
    && d.attemptCount == |d.attempts|
    && (forall i | 0 <= i < |d.attempts| :: d.attempts[i].attemptNo == i + 1 && d.attempts[i].deliveryId == d.deliveryId)
    && (forall i, j | 0 <= i < j < |d.attempts| :: d.attempts[i].attemptId != d.attempts[j].attemptId)
    && (forall i | 0 <= i < |d.attempts| ::
          && (d.attempts[i].IsFinished() <==> !(d.status == Dispatching && i == |d.attempts| - 1))
          && (d.attempts[i].IsFinished() ==> AtMost(d.attempts[i].startedAt, d.attempts[i].finishedAt.value)))
    && (d.attempts != [] ==> d.lastAttemptRef == Some(d.attempts[|d.attempts| - 1].attemptId))
    && (d.status in {Delivered, Completed} ==>
          d.attempts != [] && d.attempts[|d.attempts| - 1].resultStatus == Some(BackendDelivered))
    && (d.status == Scheduled ==> d.attempts == [])
  }

  lemma WellFormedInOrder(d: Delivery)
    requires WellFormed(d)
    ensures InOrder(d)
  {
    forall i | 0 <= i < |d.attempts|
      ensures d.attempts[i].attemptNo == i + 1 && d.attempts[i].deliveryId == d.deliveryId
      ensures d.attempts[i].IsFinished() <==> !(d.status == Dispatching && i == |d.attempts| - 1)
      ensures d.attempts[i].IsFinished() ==> AtMost(d.attempts[i].startedAt, d.attempts[i].finishedAt.value)
    {
      assert AttemptOk(d, i);
    }
    forall i, j | 0 <= i < j < |d.attempts| ensures d.attempts[i].attemptId != d.attempts[j].attemptId {
      if d.attempts[i].attemptId == d.attempts[j].attemptId {
        AttemptIdsDistinct(d, i, j);
      }
    }
  }

  // ---------------------------------------------------------------- history as a trace

  /** Edges the services take: the lifecycle without failing a delivery never dispatched. */
  predicate ServiceEdge(source: DeliveryStatus, target: DeliveryStatus) {
    CanTransition(source, target) && !(source == Scheduled && target == Failed)
  }

  /** The entries lead from one status to another along service edges of one delivery. */
  ghost predicate Trace(deliveryId: Id, source: DeliveryStatus, entries: seq<HistoryEntry>, target: DeliveryStatus)
    decreases |entries|
  {
    if entries == [] then source == target
    else
      && entries[0].deliveryId == deliveryId
      && entries[0].fromStatus == source
      && ServiceEdge(source, entries[0].toStatus)
      && Trace(deliveryId, entries[0].toStatus, entries[1..], target)
  }

  /** Dispatches recorded by the entries. */
  ghost function Starts(entries: seq<HistoryEntry>): nat {
    if entries == [] then 0
    else (if entries[0].fromStatus == Scheduled && entries[0].toStatus == Dispatching then 1 else 0)
         + Starts(entries[1..])
  }

  lemma {:induction false} TraceConcat(deliveryId: Id, s: DeliveryStatus, xs: seq<HistoryEntry>, m: DeliveryStatus,
                                       ys: seq<HistoryEntry>, t: DeliveryStatus)
    requires Trace(deliveryId, s, xs, m) && Trace(deliveryId, m, ys, t)
    ensures Trace(deliveryId, s, xs + ys, t)
    ensures Starts(xs + ys) == Starts(xs) + Starts(ys)
    decreases |xs|
  {
    if xs == [] {
      assert xs + ys == ys;
    } else {
      assert (xs + ys)[1..] == xs[1..] + ys;
      TraceConcat(deliveryId, xs[0].toStatus, xs[1..], m, ys, t);
    }
  }

  /** Room left below four entries a dispatch, by status reached. */
  function Slack(s: DeliveryStatus): nat {
    match s
    case Scheduled => 0
    case Dispatching => 3
    case Delivered => 2
    case Failed => 1
    case Completed => 1
    case DeadLettered => 0
  }

  lemma {:induction false} TraceLength(deliveryId: Id, s: DeliveryStatus, entries: seq<HistoryEntry>, t: DeliveryStatus)
    requires Trace(deliveryId, s, entries, t)
    ensures |entries| + Slack(t) <= 4 * Starts(entries) + Slack(s)
    decreases |entries|
  {
    if entries != [] {
      TraceLength(deliveryId, entries[0].toStatus, entries[1..], t);
    }
  }

  // ---------------------------------------------------------------- how one delivery may change

  /** The later value extends the earlier one: same identity, history extended by a trace,
      one attempt added for each recorded dispatch, finished attempts untouched. */
  ghost predicate Evolves(before: Delivery, after: Delivery) {
    && after.deliveryId == before.deliveryId
    && after.publicationId == before.publicationId
    && after.subscriberRef == before.subscriberRef
    && after.idempotencyKey == before.idempotencyKey
    && after.capabilityId == before.capabilityId
    && |before.history| <= |after.history|
    && after.history[..|before.history|] == before.history
    && (var added := after.history[|before.history|..];
        && Trace(before.deliveryId, before.status, added, after.status)
        && |after.attempts| == |before.attempts| + Starts(added)
        && (added == [] ==> after == before))
    && (forall i | 0 <= i < |before.attempts| && before.attempts[i].IsFinished() ::
          after.attempts[i] == before.attempts[i])
    && after.version >= before.version
    && (after != before ==> after.version > before.version)
  }

  lemma EvolvesReflexive(d: Delivery)
    ensures Evolves(d, d)
  {
    assert d.history[|d.history|..] == [];
  }

  lemma EvolvesTransitive(a: Delivery, b: Delivery, c: Delivery)
    requires Evolves(a, b) && Evolves(b, c)
    ensures Evolves(a, c)
  {
    var xs, ys := b.history[|a.history|..], c.history[|b.history|..];
    assert c.history[|a.history|..] == xs + ys by {
      assert c.history == b.history + ys && b.history == a.history + xs;
    }
    TraceConcat(a.deliveryId, a.status, xs, b.status, ys, c.status);
    assert c.history[..|a.history|] == a.history by {
      assert c.history == a.history + xs + ys;
    }
  }

  /** A completed or dead-lettered delivery never changes again. */
  lemma TerminalIsFinal(before: Delivery, after: Delivery)
    requires Evolves(before, after) && IsTerminal(before.status)
    ensures after == before
  {
    var added := after.history[|before.history|..];
    assert added == [];
  }

  /** The history is a trace from Scheduled to the status with one dispatch per attempt; so it is for a
      delivery never dispatched, whose history is empty. */
  ghost predicate Traced(d: Delivery) {
    Trace(d.deliveryId, Scheduled, d.history, d.status) && Starts(d.history) == |d.attempts|
  }

  /** A traced delivery stays traced, and its history has at most four entries per attempt. */
  lemma TracedEvolves(before: Delivery, after: Delivery)
    requires Traced(before) && Evolves(before, after)
    ensures Traced(after) && |after.history| <= 4 * |after.attempts|
  {
    var added := after.history[|before.history|..];
    assert after.history == before.history + added;
    TraceConcat(before.deliveryId, Scheduled, before.history, before.status, added, after.status);
    TraceLength(after.deliveryId, Scheduled, after.history, after.status);
  }

  lemma EvolvesByEntries(before: Delivery, after: Delivery, added: seq<HistoryEntry>)
    requires after == before.(status := after.status, attemptCount := after.attemptCount,
      lastAttemptRef := after.lastAttemptRef, attempts := after.attempts,
      history := before.history + added, version := after.version)
    requires added != [] && Trace(before.deliveryId, before.status, added, after.status)
    requires |after.attempts| == |before.attempts| + Starts(added)
    requires forall i | 0 <= i < |before.attempts| && before.attempts[i].IsFinished() ::
      after.attempts[i] == before.attempts[i]
    requires after.version > before.version
    ensures Evolves(before, after)
  {
    assert after.history[|before.history|..] == added;
    assert after.history[..|before.history|] == before.history;
  }

  lemma TraceOne(e: HistoryEntry)
    requires ServiceEdge(e.fromStatus, e.toStatus)
    ensures Trace(e.deliveryId, e.fromStatus, [e], e.toStatus)
    ensures Starts([e]) == if e.fromStatus == Scheduled && e.toStatus == Dispatching then 1 else 0
  {
    assert [e][1..] == [];
  }

  // ---------------------------------------------------------------- every flow keeps deliveries sound

  /** The value a save stores: the flow's result with the next version. */
  function Saved(before: Delivery, after: Delivery): Delivery {
    after.(version := before.version + 1)
  }

  lemma StartKeeps(d: Delivery, capabilityId: Id, at: Timestamp)
    requires AttemptsOk(d) && StartAttempt(d, capabilityId, at).Ok?
    ensures AttemptsOk(StartAttempt(d, capabilityId, at).value.0)
  {
    var (started, a) := StartAttempt(d, capabilityId, at).value;
    forall i | 0 <= i < |started.attempts| ensures AttemptOk(started, i) {
      if i < |d.attempts| {
        assert AttemptOk(d, i);
      }
    }
  }

  /** Soundness of attempts does not depend on history or version. */
  lemma KeepsAttempts(d: Delivery, e: Delivery)
    requires AttemptsOk(d) && e == d.(history := e.history, version := e.version)
    ensures AttemptsOk(e)
  {
    forall i | 0 <= i < |e.attempts| ensures AttemptOk(e, i) {
      assert AttemptOk(d, i);
    }
  }

  /** Replacing the open attempt by its finished form, whatever the outcome. */
  lemma ClosingKeeps(d: Delivery, a: Attempt, result: BackendResult, at: Timestamp, target: DeliveryStatus)
    requires AttemptsOk(d) && d.status == Dispatching
    requires FinishedAttempt(d.attempts[|d.attempts| - 1], result, at) == Ok(a)
    requires target == Failed || (target == Delivered && result.status == BackendDelivered)
    ensures AttemptsOk(d.(status := target, attempts := d.attempts[|d.attempts| - 1 := a]))
  {
    var after := d.(status := target, attempts := d.attempts[|d.attempts| - 1 := a]);
    forall i | 0 <= i < |after.attempts| ensures AttemptOk(after, i) {
      assert AttemptOk(d, i);
    }
  }

  /** The entry recorded when a dispatch settles. */
  function SettledEntry(deliveryId: Id, delivered: bool, at: Timestamp): HistoryEntry {
    if delivered then Transition(deliveryId, Dispatching, Delivered, "delivery_arrived", at)
    else Transition(deliveryId, Dispatching, Failed, "delivery_failed", at)
  }

  lemma SettleEffect(d: Delivery, a: Attempt, answer: Result<BackendResult, TransportError>, at: Timestamp)
    requires AttemptsOk(d) && d.status == Dispatching && a == d.attempts[|d.attempts| - 1]
    requires Settle(d, a, answer, at).Ok?
    ensures var (after, done) := Settle(d, a, answer, at).value;
      && AttemptsOk(after)
      && after == d.(status := if answer.Ok? then Delivered else Failed,
                     attempts := d.attempts[|d.attempts| - 1 := done],
                     history := d.history + [SettledEntry(d.deliveryId, answer.Ok?, at)])
      && done.attemptId == a.attemptId
  {
    var last := |d.attempts| - 1;
    FindsOwn(d, last);
    assert AttemptOk(d, last);
    var result := if answer.Ok? then answer.value else BackendResult(BackendFailed, None);
    var (after, done) := Settle(d, a, answer, at).value;
    assert FinishedAttempt(a, result, at) == Ok(done);
    ClosingKeeps(d, done, result, at, after.status);
    KeepsAttempts(d.(status := after.status, attempts := d.attempts[last := done]), after);
  }

  /** What one dispatch does: one more attempt, two more entries, delivered or failed. */
  lemma DispatchEffect(d: Delivery, startedAt: Timestamp, answer: Result<BackendResult, TransportError>,
                       finishedAt: Timestamp)
    requires AttemptsOk(d) && Dispatch(d, d.status, startedAt, answer, finishedAt).Ok?
    ensures var (after, a) := Dispatch(d, d.status, startedAt, answer, finishedAt).value;
      && d.status == Scheduled
      && AttemptsOk(after)
      && a.attemptId == AttemptId(d.deliveryId, d.attemptCount + 1)
      && after == d.(status := if answer.Ok? then Delivered else Failed,
           attemptCount := d.attemptCount + 1,
           lastAttemptRef := Some(a.attemptId), attempts := d.attempts + [a],
           history := d.history + [
             Transition(d.deliveryId, Scheduled, Dispatching, "dispatching_started", startedAt),
             SettledEntry(d.deliveryId, answer.Ok?, finishedAt)])
  {
    var (started, begun) := StartAttempt(d, d.capabilityId, startedAt).value;
    var first := Transition(d.deliveryId, Scheduled, Dispatching, "dispatching_started", startedAt);
    var recorded := started.(history := d.history + [first]);
    StartKeeps(d, d.capabilityId, startedAt);
    KeepsAttempts(started, recorded);
    SettleEffect(recorded, begun, answer, finishedAt);
    var second := SettledEntry(d.deliveryId, answer.Ok?, finishedAt);
    assert d.history + [first] + [second] == d.history + [first, second];
    var (after, a) := Settle(recorded, begun, answer, finishedAt).value;
    assert recorded.attempts[|d.attempts| := a] == d.attempts + [a];
  }

  lemma DispatchKeeps(d: Delivery, startedAt: Timestamp, answer: Result<BackendResult, TransportError>,
                      finishedAt: Timestamp)
    requires WellFormed(d) && Dispatch(d, d.status, startedAt, answer, finishedAt).Ok?
    ensures var after := Saved(d, Dispatch(d, d.status, startedAt, answer, finishedAt).value.0);
      WellFormed(after) && Evolves(d, after)
  {
    DispatchEffect(d, startedAt, answer, finishedAt);
    var after := Dispatch(d, d.status, startedAt, answer, finishedAt).value.0;
    var added := after.history[|d.history|..];
    TraceOne(added[0]);
    TraceOne(added[1]);
    TraceConcat(d.deliveryId, d.status, [added[0]], Dispatching, [added[1]], after.status);
    assert added == [added[0]] + [added[1]];
    KeepsAttempts(after, Saved(d, after));
    EvolvesByEntries(d, Saved(d, after), added);
  }

  /** A retry from failed or scheduled: the reschedule edge, if any, then one dispatch. */
  function Retry(d: Delivery, at: Timestamp, answer: Result<BackendResult, TransportError>)
    : Result<(Delivery, Attempt), DomainError>
  {
    var scheduled :- Reschedule(d, at);
    Dispatch(scheduled, Scheduled, at, answer, at)
  }

  /** A failed delivery put back to scheduled keeps sound, finished attempts. */
  lemma ReopeningKeeps(d: Delivery, history: seq<HistoryEntry>)
    requires AttemptsOk(d) && d.status == Failed
    ensures AttemptsOk(d.(status := Scheduled, history := history))
  {
    forall i | 0 <= i < |d.attempts| ensures AttemptOk(d.(status := Scheduled, history := history), i) {
      assert AttemptOk(d, i);
    }
  }

  lemma RetryFromFailed(d: Delivery, at: Timestamp, answer: Result<BackendResult, TransportError>)
    requires WellFormed(d) && d.status == Failed && Retry(d, at, answer).Ok?
    ensures var after := Saved(d, Retry(d, at, answer).value.0);
      WellFormed(after) && Evolves(d, after) && |after.attempts| == |d.attempts| + 1
  {
    var back := Transition(d.deliveryId, Failed, Scheduled, "retry_rescheduled", at);
    var scheduled := d.(status := Scheduled, history := d.history + [back]);
    assert Reschedule(d, at) == Ok(scheduled);
    ReopeningKeeps(d, scheduled.history);
    DispatchEffect(scheduled, at, answer, at);
    var after := Retry(d, at, answer).value.0;
    var first := Transition(d.deliveryId, Scheduled, Dispatching, "dispatching_started", at);
    var second := SettledEntry(d.deliveryId, answer.Ok?, at);
    TraceThree(back, first, second);
    assert d.history + [back] + [first, second] == d.history + [back, first, second];
    KeepsAttempts(after, Saved(d, after));
    EvolvesByEntries(d, Saved(d, after), [back, first, second]);
  }

  lemma TraceThree(x: HistoryEntry, y: HistoryEntry, z: HistoryEntry)
    requires x.deliveryId == y.deliveryId == z.deliveryId
    requires x.toStatus == y.fromStatus && y.toStatus == z.fromStatus
    requires ServiceEdge(x.fromStatus, x.toStatus) && ServiceEdge(y.fromStatus, y.toStatus)
    requires ServiceEdge(z.fromStatus, z.toStatus)
    requires x.fromStatus == Failed && y.fromStatus == Scheduled && z.fromStatus == Dispatching
    ensures Trace(x.deliveryId, x.fromStatus, [x, y, z], z.toStatus) && Starts([x, y, z]) == 1
  {
    TraceOne(x);
    TraceOne(y);
    TraceOne(z);
    TraceConcat(x.deliveryId, x.fromStatus, [x], x.toStatus, [y], y.toStatus);
    TraceConcat(x.deliveryId, x.fromStatus, [x] + [y], y.toStatus, [z], z.toStatus);
    assert [x] + [y] + [z] == [x, y, z];
  }

  lemma RetryKeeps(d: Delivery, at: Timestamp, answer: Result<BackendResult, TransportError>)
    requires WellFormed(d) && Retry(d, at, answer).Ok?
    ensures var after := Saved(d, Retry(d, at, answer).value.0);
      && WellFormed(after) && Evolves(d, after)
      && |after.attempts| == |d.attempts| + 1
      && d.status in {Scheduled, Failed}
  {
    if d.status == Failed {
      RetryFromFailed(d, at, answer);
    } else {
      assert Reschedule(d, at) == Ok(d);
      DispatchKeeps(d, at, answer, at);
      DispatchEffect(d, at, answer, at);
    }
  }

  /** Changing only the status along one edge, all attempts being finished. */
  lemma StatusChangeKeeps(d: Delivery, target: DeliveryStatus, e: HistoryEntry)
    requires WellFormed(d) && d.status in {Delivered, Failed} && target in {Completed, Failed, DeadLettered}
    requires ServiceEdge(d.status, target)
    requires e.deliveryId == d.deliveryId && e.fromStatus == d.status && e.toStatus == target
    ensures var after := Saved(d, d.(status := target, history := d.history + [e]));
      WellFormed(after) && Evolves(d, after)
  {
    var after := Saved(d, d.(status := target, history := d.history + [e]));
    forall i | 0 <= i < |after.attempts| ensures AttemptOk(after, i) {
      assert AttemptOk(d, i);
    }
    TraceOne(e);
    EvolvesByEntries(d, after, [e]);
  }

  /** The attempt a late answer may finish is the open one of a dispatching delivery. */
  lemma FinishesLast(d: Delivery, attemptId: Id, result: BackendResult, at: Timestamp)
    requires WellFormed(d) && FinishAttempt(d, attemptId, result, at).Ok?
    ensures d.status == Dispatching
    ensures var (after, a) := FinishAttempt(d, attemptId, result, at).value;
      var last := |d.attempts| - 1;
      && after == d.(attempts := d.attempts[last := a])
      && FinishedAttempt(d.attempts[last], result, at) == Ok(a)
      && FindAttempt(after.attempts, attemptId) == Some(last)
  {
    var last := |d.attempts| - 1;
    FindsOwn(d, last);
    assert AttemptOk(d, last);
    var (after, a) := FinishAttempt(d, attemptId, result, at).value;
    forall i | 0 <= i < last ensures after.attempts[i].attemptId != attemptId {
      if after.attempts[i].attemptId == attemptId {
        AttemptIdsDistinct(d, i, last);
      }
    }
    FindsFirst(after.attempts, last);
  }

  /** Finishing the open attempt and leaving the dispatching state. */
  lemma SettlingKeeps(d: Delivery, a: Attempt, result: BackendResult, at: Timestamp, target: DeliveryStatus,
                      e: HistoryEntry)
    requires WellFormed(d) && d.status == Dispatching
    requires FinishedAttempt(d.attempts[|d.attempts| - 1], result, at) == Ok(a)
    requires target == Failed || (target == Delivered && result.status == BackendDelivered)
    requires e.deliveryId == d.deliveryId && e.fromStatus == Dispatching && e.toStatus == target
    ensures var after := Saved(d, d.(status := target, history := d.history + [e],
                                     attempts := d.attempts[|d.attempts| - 1 := a]));
      WellFormed(after) && Evolves(d, after)
  {
    var last := |d.attempts| - 1;
    var after := Saved(d, d.(status := target, history := d.history + [e], attempts := d.attempts[last := a]));
    forall i | 0 <= i < |after.attempts| ensures AttemptOk(after, i) {
      assert AttemptOk(d, i);
    }
    TraceOne(e);
    EvolvesByEntries(d, after, [e]);
  }

  // ---------------------------------------------------------------- the flows of feedback and dead letters

  /** A delivery whose named attempt is its last and finished is at rest: delivered, failed or final. */
  lemma CurrentFinished(d: Delivery, attemptId: Id)
    requires WellFormed(d) && d.lastAttemptRef == Some(attemptId)
    requires FindAttempt(d.attempts, attemptId).Some? && d.attempts[FindAttempt(d.attempts, attemptId).value].IsFinished()
    ensures d.status != Scheduled && d.status != Dispatching
  {
    var last := |d.attempts| - 1;
    FindsOwn(d, last);
    assert AttemptOk(d, last);
  }

  lemma AckKeeps(d: Delivery, f: Feedback)
    requires WellFormed(d) && AckFlow(d, f).Ok?
    ensures var after := Saved(d, AckFlow(d, f).value);
      && WellFormed(after) && Evolves(d, after) && after.status == Completed && |after.attempts| == |d.attempts|
      && after.deliveryId == d.deliveryId
  {
    StatusChangeKeeps(d, Completed, Transition(d.deliveryId, d.status, Completed, "feedback_ack", f.observedAt));
  }

  lemma FailKeeps(d: Delivery, failure: string, reason: string, at: Timestamp)
    requires WellFormed(d) && d.status == Delivered && FailFlow(d, d.status, failure, reason, at).Ok?
    ensures var after := Saved(d, FailFlow(d, d.status, failure, reason, at).value);
      && WellFormed(after) && Evolves(d, after) && after.status == Failed && |after.attempts| == |d.attempts|
      && after.deliveryId == d.deliveryId
  {
    StatusChangeKeeps(d, Failed, Transition(d.deliveryId, d.status, Failed, reason, at));
  }

  lemma DeadLetterFlowValue(d: Delivery, deadLetterId: Id, at: Timestamp)
    requires DeadLetterFlow(d, deadLetterId, at).Ok?
    ensures DeadLetterFlow(d, deadLetterId, at).value ==
            d.(status := DeadLettered, history := d.history + [Transition(d.deliveryId, Failed, DeadLettered, "dead_lettered", at)])
  {
  }

  lemma DeadLetterKeeps(d: Delivery, deadLetterId: Id, at: Timestamp)
    requires WellFormed(d) && DeadLetterFlow(d, deadLetterId, at).Ok?
    ensures var after := Saved(d, DeadLetterFlow(d, deadLetterId, at).value);
      && WellFormed(after) && Evolves(d, after) && |after.attempts| == |d.attempts|
      && after.deliveryId == d.deliveryId && after.status == DeadLettered
      && after.history == d.history + [Transition(d.deliveryId, Failed, DeadLettered, "dead_lettered", at)]
  {
    StatusChangeKeeps(d, DeadLettered, Transition(d.deliveryId, Failed, DeadLettered, "dead_lettered", at));
  }

  /** Closing the open attempt with a failure and failing the delivery. */
  lemma FinishThenFail(d: Delivery, attemptId: Id, result: BackendResult, at: Timestamp, failure: string, reason: string)
    requires WellFormed(d) && FinishAttempt(d, attemptId, result, at).Ok?
    requires FailFlow(FinishAttempt(d, attemptId, result, at).value.0, d.status, failure, reason, at).Ok?
    ensures var after := Saved(d, FailFlow(FinishAttempt(d, attemptId, result, at).value.0, d.status, failure, reason, at).value);
      && WellFormed(after) && Evolves(d, after) && |after.attempts| == |d.attempts|
      && after.deliveryId == d.deliveryId && after.status == Failed
  {
    FinishesLast(d, attemptId, result, at);
    var a := FinishAttempt(d, attemptId, result, at).value.1;
    SettlingKeeps(d, a, result, at, Failed, Transition(d.deliveryId, d.status, Failed, reason, at));
  }

  /** Closing the open attempt with a success and delivering. */
  lemma FinishThenArrive(d: Delivery, attemptId: Id, result: BackendResult, at: Timestamp)
    requires WellFormed(d) && FinishAttempt(d, attemptId, result, at).Ok?
    requires var (finished, a) := FinishAttempt(d, attemptId, result, at).value;
      ArriveFlow(finished, d.status, a, at).Ok?
    ensures var (finished, a) := FinishAttempt(d, attemptId, result, at).value;
      var after := Saved(d, ArriveFlow(finished, d.status, a, at).value);
      && WellFormed(after) && Evolves(d, after) && |after.attempts| == |d.attempts|
      && after.deliveryId == d.deliveryId && after.status == Delivered
  {
    FinishesLast(d, attemptId, result, at);
    var (finished, a) := FinishAttempt(d, attemptId, result, at).value;
    var last := |d.attempts| - 1;
    assert a.attemptId == attemptId;
    assert finished.attempts[last := a] == finished.attempts;
    SettlingKeeps(d, a, result, at, Delivered, Transition(d.deliveryId, d.status, Delivered, "delivery_arrived", at));
  }
}
