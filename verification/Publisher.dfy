/** The in-memory publisher: receipts, the sink of published events and the evidence log. */
module Publisher {
  import opened Common

  /** An outbound event with the three parts that identify it; the rest of it is its body. */
  datatype OutboundEvent = OutboundEvent(eventId: Id, recordRef: Id, schemaVersion: string, topic: string, body: string)

  type Key = (Id, Id, string)

  datatype Receipt = Receipt(receiptRef: Id, eventId: Id, topic: string, publishedAt: Timestamp, duplicate: bool)

  datatype PublishedEvent = PublishedEvent(event: OutboundEvent, trace: Id, receipt: Receipt)

  datatype EvidenceStatus = Published | RetryableFailed | Rejected

  datatype Evidence = Evidence(evidenceRef: Id, eventId: Id, topic: string, recordRef: Id, schemaVersion: string,
                               status: EvidenceStatus, errorCode: Option<string>)

  datatype PublisherError = RetryableFailure | SchemaViolation | BoundaryViolation | DuplicateEvent

  datatype Sink = Sink(receipts: map<Key, Receipt>, published: seq<PublishedEvent>, evidence: seq<Evidence>)

  const NOTHING_PUBLISHED: Sink := Sink(map[], [], [])

  function KeyOf(e: OutboundEvent): Key {
    (e.eventId, e.recordRef, e.schemaVersion)
  }

  function StatusOf(error: PublisherError): EvidenceStatus {
    match error
    case RetryableFailure => RetryableFailed
    case SchemaViolation | BoundaryViolation | DuplicateEvent => Rejected
  }

  function CodeOf(error: PublisherError): string {
    match error
    case RetryableFailure => "publisher.retryable_failure"
    case SchemaViolation => "publisher.schema_violation"
    case BoundaryViolation => "publisher.boundary_violation"
    case DuplicateEvent => "publisher.duplicate"
  }

  function EvidenceOf(e: OutboundEvent, status: EvidenceStatus, code: Option<string>): Evidence {
    Evidence("publish_evidence_" + Sanitize(e.eventId), e.eventId, e.topic, e.recordRef, e.schemaVersion, status, code)
  }

  function ReceiptOf(e: OutboundEvent, at: Timestamp): Receipt {
    Receipt("publish_receipt_" + Sanitize(e.eventId), e.eventId, e.topic, at, false)
  }

  // ---------------------------------------------------------------- publishing one event

  /** A publish: the sink, the failure still armed, and the answer. */
  datatype Outcome<T> = Outcome(sink: Sink, armed: Option<PublisherError>, answer: Result<T, PublisherError>)

  function Fresh(s: Sink, e: OutboundEvent, trace: Id, at: Timestamp): Sink {
    Sink(s.receipts[KeyOf(e) := ReceiptOf(e, at)], s.published + [PublishedEvent(e, trace, ReceiptOf(e, at))],
         s.evidence + [EvidenceOf(e, Published, None)])
  }

  /** A known key answers with its receipt; else an armed failure is used up; else the event is published. */
  function Publish(s: Sink, armed: Option<PublisherError>, e: OutboundEvent, trace: Id, at: Timestamp): Outcome<Receipt> {
    if KeyOf(e) in s.receipts then Outcome(s, armed, Ok(s.receipts[KeyOf(e)].(duplicate := true)))
    else
      match armed
      case Some(error) =>
        Outcome(s.(evidence := s.evidence + [EvidenceOf(e, StatusOf(error), Some(CodeOf(error)))]), None, Err(error))
      case None => Outcome(Fresh(s, e, trace, at), None, Ok(ReceiptOf(e, at)))
  }

  /** One attempt at a batch: the failures the outside arms before each event, and its trace and clock. */
  datatype Attempt = Attempt(trace: Id, at: Timestamp, failures: nat -> Option<PublisherError>)

  function Arming(armed: Option<PublisherError>, next: Option<PublisherError>): Option<PublisherError> {
    if next.Some? then next else armed
  }

  /** The events in order; the first failure ends the attempt. */
  function PublishBatch(s: Sink, armed: Option<PublisherError>, batch: seq<OutboundEvent>, a: Attempt): Outcome<seq<Receipt>>
    decreases |batch|
  {
    if batch == [] then Outcome(s, armed, Ok([]))
    else
      var n := |batch| - 1;
      var before := PublishBatch(s, armed, batch[..n], a);
      match before.answer
      case Err(_) => before
      case Ok(receipts) =>
        var last := Publish(before.sink, Arming(before.armed, a.failures(n)), batch[n], a.trace, a.at);
        Outcome(last.sink, last.armed, match last.answer case Ok(receipt) => Ok(receipts + [receipt]) case Err(e) => Err(e))
  }

  lemma OneEventMore(s: Sink, armed: Option<PublisherError>, batch: seq<OutboundEvent>, a: Attempt, i: nat)
    requires i < |batch| && PublishBatch(s, armed, batch[..i], a).answer.Ok?
    ensures var before := PublishBatch(s, armed, batch[..i], a);
      var last := Publish(before.sink, Arming(before.armed, a.failures(i)), batch[i], a.trace, a.at);
      PublishBatch(s, armed, batch[..i + 1], a) ==
      Outcome(last.sink, last.armed,
              match last.answer case Ok(receipt) => Ok(before.answer.value + [receipt]) case Err(e) => Err(e))
  {
    assert batch[..i + 1][..i] == batch[..i];
  }

  /** What follows a failed event is never reached. */
  lemma {:induction false} FailureEnds(s: Sink, armed: Option<PublisherError>, batch: seq<OutboundEvent>, a: Attempt, i: nat)
    requires i <= |batch| && PublishBatch(s, armed, batch[..i], a).answer.Err?
    ensures PublishBatch(s, armed, batch, a) == PublishBatch(s, armed, batch[..i], a)
    decreases |batch|
  {
    if i < |batch| {
      assert batch[..|batch| - 1][..i] == batch[..i];
      FailureEnds(s, armed, batch[..|batch| - 1], a, i);
    } else {
      assert batch[..i] == batch;
    }
  }

  // ---------------------------------------------------------------- the adapter

  class InMemoryOutboxPublisherAdapter {
    const publishedAt: Timestamp
    var receipts: map<Key, Receipt>
    var published: seq<PublishedEvent>
    var evidence: seq<Evidence>
    var failNext: Option<PublisherError>

    function Contents(): Sink
      reads this
    {
      Sink(receipts, published, evidence)
    }

    constructor (publishedAt: Timestamp)
      ensures Contents() == NOTHING_PUBLISHED && failNext == None && this.publishedAt == publishedAt
    {
      this.publishedAt, receipts, published, evidence, failNext := publishedAt, map[], [], [], None;
    }

    method FailNextPublish(error: PublisherError)
      modifies this`failNext
      ensures failNext == Some(error)
    {
      failNext := Some(error);
    }

    method RecordEvidence(event: OutboundEvent, status: EvidenceStatus, code: Option<string>)
      modifies this`evidence
      ensures evidence == old(evidence) + [EvidenceOf(event, status, code)]
    {
      evidence := evidence + [Evidence("publish_evidence_" + Sanitize(event.eventId), event.eventId, event.topic, event.recordRef,
                                       event.schemaVersion, status, code)];
    }

    method PublishEvent(event: OutboundEvent, trace: Id) returns (r: Result<Receipt, PublisherError>)
      modifies this
      ensures Outcome(Contents(), failNext, r) == Publish(old(Contents()), old(failNext), event, trace, publishedAt)
    {
      var key := KeyOf(event);
      if key in receipts {
        return Ok(receipts[key].(duplicate := true));
      }
      if failNext.Some? {
        var error := failNext.value;
        failNext := None;
        RecordEvidence(event, StatusOf(error), Some(CodeOf(error)));
        return Err(error);
      }
      var receipt := Receipt("publish_receipt_" + Sanitize(event.eventId), event.eventId, event.topic, publishedAt, false);
      receipts := receipts[key := receipt];
      published := published + [PublishedEvent(event, trace, receipt)];
      RecordEvidence(event, Published, None);
      r := Ok(receipt);
    }

    /** Publishes the events in order and stops at the first failure. */
    method PublishAll(batch: seq<OutboundEvent>, a: Attempt) returns (r: Result<seq<Receipt>, PublisherError>)
      requires a.at == publishedAt
      modifies this
      ensures Outcome(Contents(), failNext, r) == PublishBatch(old(Contents()), old(failNext), batch, a)
    {
      var collected: seq<Receipt> := [];
      for i := 0 to |batch|
        invariant Outcome(Contents(), failNext, Ok(collected)) == PublishBatch(old(Contents()), old(failNext), batch[..i], a)
      {
        OneEventMore(old(Contents()), old(failNext), batch, a, i);
        hide PublishBatch, Publish;
        if a.failures(i).Some? {
          FailNextPublish(a.failures(i).value);
        }
        var receipt := PublishEvent(batch[i], a.trace);
        if receipt.Err? {
          FailureEnds(old(Contents()), old(failNext), batch, a, i + 1);
          return Err(receipt.error);
        }
        collected := collected + [receipt.value];
      }
      assert batch[..|batch|] == batch;
      r := Ok(collected);
    }
  }

  // ---------------------------------------------------------------- exactly once

  function Events(published: seq<PublishedEvent>): seq<OutboundEvent> {
    if published == [] then []
    else Events(published[..|published| - 1]) + [published[|published| - 1].event]
  }

  /** The keys known once the batch has been seen. */
  function Known(known: set<Key>, batch: seq<OutboundEvent>): set<Key>
    decreases |batch|
  {
    if batch == [] then known else Known(known, batch[..|batch| - 1]) + {KeyOf(batch[|batch| - 1])}
  }

  function Unless(known: set<Key>, e: OutboundEvent): seq<OutboundEvent> {
    if KeyOf(e) in known then [] else [e]
  }

  /** The events whose keys are not yet known, each key at its first occurrence. */
  function FirstOccurrences(known: set<Key>, batch: seq<OutboundEvent>): seq<OutboundEvent>
    decreases |batch|
  {
    if batch == [] then []
    else
      var n := |batch| - 1;
      FirstOccurrences(known, batch[..n]) + Unless(Known(known, batch[..n]), batch[n])
  }

  lemma NoneSeen(known: set<Key>, batch: seq<OutboundEvent>)
    ensures Known(known, batch[..0]) == known && FirstOccurrences(known, batch[..0]) == []
  {
  }

  lemma OneSeen(known: set<Key>, batch: seq<OutboundEvent>, n: nat)
    requires n < |batch|
    ensures Known(known, batch[..n + 1]) == Known(known, batch[..n]) + {KeyOf(batch[n])}
    ensures FirstOccurrences(known, batch[..n + 1]) ==
            FirstOccurrences(known, batch[..n]) + Unless(Known(known, batch[..n]), batch[n])
  {
    assert batch[..n + 1][..n] == batch[..n];
  }

  lemma {:induction false} SeenIsKnown(known: set<Key>, batch: seq<OutboundEvent>, i: nat)
    requires i < |batch|
    ensures KeyOf(batch[i]) in Known(known, batch)
    decreases |batch|
  {
    if i < |batch| - 1 {
      SeenIsKnown(known, batch[..|batch| - 1], i);
    }
  }

  /** The event stands at a first occurrence of a key that is not yet known. */
  predicate IsFirst(known: set<Key>, batch: seq<OutboundEvent>, e: OutboundEvent) {
    && KeyOf(e) !in known
    && exists i | 0 <= i < |batch| :: batch[i] == e && KeyOf(e) !in Known(known, batch[..i])
  }

  lemma FirstInLonger(known: set<Key>, front: seq<OutboundEvent>, last: OutboundEvent, e: OutboundEvent)
    requires known <= Known(known, front)
    ensures IsFirst(known, front + [last], e) <==> IsFirst(known, front, e) || e in Unless(Known(known, front), last)
  {
    var batch := front + [last];
    assert batch[|front|] == last && batch[..|front|] == front;
    assert forall i | 0 <= i < |front| :: batch[i] == front[i] && batch[..i] == front[..i];
  }

  lemma {:induction false} KnownGrows(known: set<Key>, batch: seq<OutboundEvent>)
    ensures known <= Known(known, batch)
    decreases |batch|
  {
    if batch != [] {
      KnownGrows(known, batch[..|batch| - 1]);
    }
  }

  /** The first occurrences carry each unknown key of the batch exactly once, at its first event. */
  lemma {:induction false} OccurrencesMeaning(known: set<Key>, batch: seq<OutboundEvent>)
    ensures var firsts := FirstOccurrences(known, batch);
      && (forall e :: e in firsts <==> IsFirst(known, batch, e))
      && (forall i, j | 0 <= i < j < |firsts| :: KeyOf(firsts[i]) != KeyOf(firsts[j]))
      && (forall e | e in firsts :: KeyOf(e) in Known(known, batch))
    decreases |batch|
  {
    if batch != [] {
      var front, last := batch[..|batch| - 1], batch[|batch| - 1];
      assert front + [last] == batch;
      OccurrencesMeaning(known, front);
      KnownGrows(known, front);
      forall e ensures IsFirst(known, batch, e) <==> IsFirst(known, front, e) || e in Unless(Known(known, front), last) {
        FirstInLonger(known, front, last, e);
      }
    }
  }

  /** What an attempt has made of the sink when it has got through the first events of the batch. */
  ghost predicate Reached(before: Sink, batch: seq<OutboundEvent>, n: nat, after: Sink) {
    && n <= |batch| && after.receipts.Keys == Known(before.receipts.Keys, batch[..n])
    && Events(after.published) == Events(before.published) + FirstOccurrences(before.receipts.Keys, batch[..n])
  }

  lemma PublishStep(s: Sink, armed: Option<PublisherError>, e: OutboundEvent, a: Attempt)
    ensures var last := Publish(s, armed, e, a.trace, a.at);
      && (last.answer.Err? ==> last.sink.receipts == s.receipts && last.sink.published == s.published)
      && (last.answer.Ok? ==> last.sink.receipts.Keys == s.receipts.Keys + {KeyOf(e)}
                              && Events(last.sink.published) == Events(s.published) + Unless(s.receipts.Keys, e))
  {
    var last := Publish(s, armed, e, a.trace, a.at);
    if last.answer.Ok? && KeyOf(e) !in s.receipts {
      assert last.sink.published[..|s.published|] == s.published;
    }
  }

  lemma Associates<T>(x: seq<T>, y: seq<T>, z: seq<T>)
    ensures x + (y + z) == x + y + z && x + (y + []) == x + y
  {
  }

  lemma ReachedMore(s: Sink, before: Sink, batch: seq<OutboundEvent>, n: nat, after: Sink)
    requires n < |batch| && Reached(s, batch, n, before)
    requires after.receipts.Keys == before.receipts.Keys + {KeyOf(batch[n])}
    requires Events(after.published) == Events(before.published) + Unless(before.receipts.Keys, batch[n])
    ensures Reached(s, batch, n + 1, after)
  {
    hide Known, FirstOccurrences, Events, Unless;
    OneSeen(s.receipts.Keys, batch, n);
    Associates(Events(s.published), FirstOccurrences(s.receipts.Keys, batch[..n]), Unless(before.receipts.Keys, batch[n]));
  }

  /** One attempt publishes the first occurrences of the events it got through. */
  lemma {:induction false} AttemptPublishes(s: Sink, armed: Option<PublisherError>, batch: seq<OutboundEvent>, a: Attempt)
    returns (reached: nat)
    ensures Reached(s, batch, reached, PublishBatch(s, armed, batch, a).sink)
    ensures PublishBatch(s, armed, batch, a).answer.Ok? ==> reached == |batch|
    decreases |batch|
  {
    hide Known, FirstOccurrences, Events, Unless, Publish;
    NoneSeen(s.receipts.Keys, batch);
    if batch == [] {
      reached := 0;
      assert Events(s.published) + [] == Events(s.published);
    } else {
      var n := |batch| - 1;
      reached := AttemptPublishes(s, armed, batch[..n], a);
      assert batch[..n][..reached] == batch[..reached];
      var before := PublishBatch(s, armed, batch[..n], a);
      if before.answer.Ok? {
        var last := Publish(before.sink, Arming(before.armed, a.failures(n)), batch[n], a.trace, a.at);
        PublishStep(before.sink, Arming(before.armed, a.failures(n)), batch[n], a);
        if last.answer.Ok? {
          ReachedMore(s, before.sink, batch, n, last.sink);
          reached := n + 1;
        }
      }
    }
  }

  /** Attempts one after another, each with its own failures. */
  function Attempts(s: Sink, armed: Option<PublisherError>, batch: seq<OutboundEvent>, attempts: seq<Attempt>): Outcome<seq<Receipt>>
    decreases |attempts|
  {
    if attempts == [] then Outcome(s, armed, Ok([]))
    else
      var before := Attempts(s, armed, batch, attempts[..|attempts| - 1]);
      PublishBatch(before.sink, before.armed, batch, attempts[|attempts| - 1])
  }

  function Further(j: nat, k: nat): nat {
    if j < k then k else j
  }

  /** Going through the batch again up to k after it was gone through up to j adds what lies beyond j. */
  lemma {:induction false} ResumedOccurrences(known: set<Key>, batch: seq<OutboundEvent>, j: nat, k: nat)
    requires j <= |batch| && k <= |batch|
    ensures Known(Known(known, batch[..j]), batch[..k]) == Known(known, batch[..Further(j, k)])
    ensures FirstOccurrences(known, batch[..j]) + FirstOccurrences(Known(known, batch[..j]), batch[..k])
            == FirstOccurrences(known, batch[..Further(j, k)])
    decreases k
  {
    hide Known, FirstOccurrences;
    var again := Known(known, batch[..j]);
    NoneSeen(again, batch);
    if k > 0 {
      ResumedOccurrences(known, batch, j, k - 1);
      OneSeen(again, batch, k - 1);
      OneSeen(known, batch, k - 1);
      var e := batch[k - 1];
      Associates(FirstOccurrences(known, batch[..j]), FirstOccurrences(again, batch[..k - 1]),
                 Unless(Known(again, batch[..k - 1]), e));
      if k <= j {
        SeenIsKnown(known, batch[..j], k - 1);
        assert Unless(Known(again, batch[..k - 1]), e) == [];
      }
    }
  }

  /** However often a batch is retried, with whatever failures at whatever positions, the sink holds what
      it held, followed by the first occurrences of the events reached so far. */
  lemma {:induction false} AttemptsPublish(s: Sink, armed: Option<PublisherError>, batch: seq<OutboundEvent>, attempts: seq<Attempt>)
    returns (reached: nat)
    ensures Reached(s, batch, reached, Attempts(s, armed, batch, attempts).sink)
    ensures attempts != [] && Attempts(s, armed, batch, attempts).answer.Ok? ==> reached == |batch|
    decreases |attempts|
  {
    hide Known, FirstOccurrences, Events, PublishBatch;
    if attempts == [] {
      reached := 0;
      NoneSeen(s.receipts.Keys, batch);
      assert Events(s.published) + [] == Events(s.published);
    } else {
      var j := AttemptsPublish(s, armed, batch, attempts[..|attempts| - 1]);
      var before := Attempts(s, armed, batch, attempts[..|attempts| - 1]);
      var k := AttemptPublishes(before.sink, before.armed, batch, attempts[|attempts| - 1]);
      ResumedOccurrences(s.receipts.Keys, batch, j, k);
      Associates(Events(s.published), FirstOccurrences(s.receipts.Keys, batch[..j]),
                 FirstOccurrences(before.sink.receipts.Keys, batch[..k]));
      reached := Further(j, k);
    }
  }

  /** Exactly once under retry: when an attempt finally succeeds the sink is the old sink followed by the
      batch without repeats, in order of first occurrence. */
  lemma RetriedBatchPublishedOnce(s: Sink, armed: Option<PublisherError>, batch: seq<OutboundEvent>, attempts: seq<Attempt>)
    requires attempts != [] && Attempts(s, armed, batch, attempts).answer.Ok?
    ensures var after := Attempts(s, armed, batch, attempts).sink;
      && Events(after.published) == Events(s.published) + FirstOccurrences(s.receipts.Keys, batch)
      && forall i | 0 <= i < |batch| :: KeyOf(batch[i]) in after.receipts
  {
    var reached := AttemptsPublish(s, armed, batch, attempts);
    assert batch[..reached] == batch;
    forall i | 0 <= i < |batch| ensures KeyOf(batch[i]) in Known(s.receipts.Keys, batch) {
      SeenIsKnown(s.receipts.Keys, batch, i);
    }
  }

  // ---------------------------------------------------------------- receipts, events and evidence

  /** The evidence of publication among all evidence. */
  function Confirmations(evidence: seq<Evidence>): seq<Evidence>
    decreases |evidence|
  {
    if evidence == [] then []
    else
      var last := evidence[|evidence| - 1];
      Confirmations(evidence[..|evidence| - 1]) + (if last.status == Published then [last] else [])
  }

  predicate PublishedUnder(published: seq<PublishedEvent>, k: Key) {
    exists i | 0 <= i < |published| :: KeyOf(published[i].event) == k
  }

  /** Every published event has its own key and under it its receipt; every receipt belongs to a published event. */
  ghost predicate ReceiptsMatch(receipts: map<Key, Receipt>, published: seq<PublishedEvent>) {
    && (forall i, j | 0 <= i < j < |published| :: KeyOf(published[i].event) != KeyOf(published[j].event))
    && (forall i | 0 <= i < |published| ::
          && Get(receipts, KeyOf(published[i].event)) == Some(published[i].receipt)
          && published[i].receipt == ReceiptOf(published[i].event, published[i].receipt.publishedAt))
    && (forall k | k in receipts :: PublishedUnder(published, k))
  }

  /** The i-th confirmation is about the i-th published event. */
  ghost predicate EvidenceMatches(confirmations: seq<Evidence>, published: seq<PublishedEvent>) {
    && |confirmations| == |published|
    && (forall i | 0 <= i < |published| :: confirmations[i] == EvidenceOf(published[i].event, Published, None))
  }

  /** Published events, receipts and confirming evidence match one to one. */
  ghost predicate Corresponds(s: Sink) {
    ReceiptsMatch(s.receipts, s.published) && EvidenceMatches(Confirmations(s.evidence), s.published)
  }

  lemma OneConfirmation(evidence: seq<Evidence>, e: Evidence)
    ensures Confirmations(evidence + [e]) == Confirmations(evidence) + (if e.status == Published then [e] else [])
  {
    assert (evidence + [e])[..|evidence|] == evidence;
  }

  lemma OneReceipt(receipts: map<Key, Receipt>, published: seq<PublishedEvent>, p: PublishedEvent)
    requires ReceiptsMatch(receipts, published) && KeyOf(p.event) !in receipts
    requires p.receipt == ReceiptOf(p.event, p.receipt.publishedAt)
    ensures ReceiptsMatch(receipts[KeyOf(p.event) := p.receipt], published + [p])
  {
    var more := published + [p];
    assert more[|published|] == p;
    forall k | k in receipts ensures PublishedUnder(more, k) {
      var i :| 0 <= i < |published| && KeyOf(published[i].event) == k;
      assert more[i] == published[i];
    }
  }

  lemma FreshCorresponds(s: Sink, e: OutboundEvent, trace: Id, at: Timestamp)
    requires Corresponds(s) && KeyOf(e) !in s.receipts
    ensures Corresponds(Fresh(s, e, trace, at))
  {
    hide Confirmations, ReceiptsMatch;
    OneConfirmation(s.evidence, EvidenceOf(e, Published, None));
    OneReceipt(s.receipts, s.published, PublishedEvent(e, trace, ReceiptOf(e, at)));
  }

  lemma PublishCorresponds(s: Sink, armed: Option<PublisherError>, e: OutboundEvent, trace: Id, at: Timestamp)
    requires Corresponds(s)
    ensures Corresponds(Publish(s, armed, e, trace, at).sink)
  {
    if KeyOf(e) !in s.receipts {
      match armed {
        case Some(error) => OneConfirmation(s.evidence, EvidenceOf(e, StatusOf(error), Some(CodeOf(error))));
        case None => FreshCorresponds(s, e, trace, at);
      }
    }
  }

  lemma {:induction false} BatchCorresponds(s: Sink, armed: Option<PublisherError>, batch: seq<OutboundEvent>, a: Attempt)
    requires Corresponds(s)
    ensures Corresponds(PublishBatch(s, armed, batch, a).sink)
    decreases |batch|
  {
    hide Corresponds, Publish;
    if batch != [] {
      var n := |batch| - 1;
      BatchCorresponds(s, armed, batch[..n], a);
      var before := PublishBatch(s, armed, batch[..n], a);
      PublishCorresponds(before.sink, Arming(before.armed, a.failures(n)), batch[n], a.trace, a.at);
    }
  }

  /** The correspondence holds after any attempts at any batches, from an empty sink on. */
  lemma {:induction false} AttemptsCorrespond(s: Sink, armed: Option<PublisherError>, batch: seq<OutboundEvent>, attempts: seq<Attempt>)
    ensures Corresponds(NOTHING_PUBLISHED)
    ensures Corresponds(s) ==> Corresponds(Attempts(s, armed, batch, attempts).sink)
    decreases |attempts|
  {
    hide PublishBatch;
    if Corresponds(s) && attempts != [] {
      AttemptsCorrespond(s, armed, batch, attempts[..|attempts| - 1]);
      var before := Attempts(s, armed, batch, attempts[..|attempts| - 1]);
      BatchCorresponds(before.sink, before.armed, batch, attempts[|attempts| - 1]);
    }
  }

  // ---------------------------------------------------------------- answers stay

  lemma {:induction false} BatchKeepsReceipts(s: Sink, armed: Option<PublisherError>, batch: seq<OutboundEvent>, a: Attempt, k: Key)
    requires k in s.receipts
    ensures k in PublishBatch(s, armed, batch, a).sink.receipts
    ensures PublishBatch(s, armed, batch, a).sink.receipts[k] == s.receipts[k]
    decreases |batch|
  {
    if batch != [] {
      BatchKeepsReceipts(s, armed, batch[..|batch| - 1], a, k);
    }
  }

  lemma {:induction false} AttemptsKeepReceipts(s: Sink, armed: Option<PublisherError>, batch: seq<OutboundEvent>, attempts: seq<Attempt>,
                                                k: Key)
    requires k in s.receipts
    ensures k in Attempts(s, armed, batch, attempts).sink.receipts
    ensures Attempts(s, armed, batch, attempts).sink.receipts[k] == s.receipts[k]
    decreases |attempts|
  {
    hide PublishBatch;
    if attempts != [] {
      var front := attempts[..|attempts| - 1];
      AttemptsKeepReceipts(s, armed, batch, front, k);
      var before := Attempts(s, armed, batch, front);
      BatchKeepsReceipts(before.sink, before.armed, batch, attempts[|attempts| - 1], k);
    }
  }

  /** Once published, an event is answered ever after with its first receipt, marked as a duplicate, whatever was attempted
      in between and whatever failure is armed; the sink and the armed failure stay as they are. */
  lemma PublishedIsAnswered(s: Sink, e: OutboundEvent, trace: Id, at: Timestamp, armed: Option<PublisherError>,
                            batch: seq<OutboundEvent>, attempts: seq<Attempt>, later: Option<PublisherError>, trace2: Id, at2: Timestamp)
    requires KeyOf(e) !in s.receipts
    ensures var first := Publish(s, None, e, trace, at);
      var between := Attempts(first.sink, armed, batch, attempts).sink;
      && first.answer.Ok? && !first.answer.value.duplicate
      && Publish(between, later, e, trace2, at2) == Outcome(between, later, Ok(first.answer.value.(duplicate := true)))
  {
    hide Attempts;
    AttemptsKeepReceipts(Publish(s, None, e, trace, at).sink, armed, batch, attempts, KeyOf(e));
  }
}
