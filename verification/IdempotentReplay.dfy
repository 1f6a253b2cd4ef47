/** A repeated request changes nothing and is answered as the first one was, whatever ran in between. */
module IdempotentReplay {
  import opened Common
  import opened Records
  import opened StoreModel
  import opened Steps
  import opened Digest
  import opened Invariants
  import opened ServiceEffects
  import opened Runs
  import opened FeedbackRules
  import opened FeedbackSteps
  import opened IdempotencySteps
  import opened PublicationRules
  import opened PublicationSteps
  import Rules = DeliveryRules

  // ---------------------------------------------------------------- publications

  /** The first, committed ruling on a request: its anchor and its stored acceptance. */
  ghost predicate RuledOn(c: Committed, scope: Scope, key: Id, digest: string, outcome: Result<Ruling, ServiceError>) {
    && (scope, key) in c.anchors && c.anchors[(scope, key)].digest == digest
    && c.anchors[(scope, key)].bound.PublicationRef?
    && c.anchors[(scope, key)].bound.publicationId in c.publications
    && outcome == RulingOf(c.publications[c.anchors[(scope, key)].bound.publicationId])
  }

  lemma DecideRulesOn(c: Committed, m: Material, a: Acceptance, scope: Scope, key: Id, digest: string, actor: Actor, trace: Id,
                      ports: Ports, faults: Faults)
    requires StartPending(m) == Ok(a) && DecideBody(c, m, a, scope, key, digest, actor, trace, ports, faults).Ok?
    ensures var (s, outcome) := DecideBody(c, m, a, scope, key, digest, actor, trace, ports, faults).value;
      RuledOn(Overlay(c, s), scope, key, digest, outcome)
  {
    var decided, anchor, entry := DecideShape(c, m, a, scope, key, digest, actor, trace, ports, faults);
  }

  lemma RuleRulesOn(c: Committed, material: Result<Material, DomainError>, scope: Scope, key: Id, digest: string, actor: Actor,
                    trace: Id, ports: Ports, faults: Faults)
    requires FindAnchor(c, scope, key) == None
    requires Rule(c, material, scope, key, digest, actor, trace, ports, faults).exit.Commits?
    ensures var step := Rule(c, material, scope, key, digest, actor, trace, ports, faults);
      RuledOn(After(c, step.exit), scope, key, digest, step.outcome)
  {
    var m, a := material.value, StartPending(material.value).value;
    DecideRulesOn(c, m, a, scope, key, digest, actor, trace, ports, faults);
  }

  lemma RuledOnStays(before: Committed, after: Committed, scope: Scope, key: Id, digest: string, outcome: Result<Ruling, ServiceError>)
    requires RuledOn(before, scope, key, digest, outcome) && Follows(before, after)
    ensures RuledOn(after, scope, key, digest, outcome)
  {
  }

  lemma RuledOnReplays(c: Committed, material: Result<Material, DomainError>, scope: Scope, key: Id, digest: string, actor: Actor,
                       trace: Id, ports: Ports, faults: Faults, outcome: Result<Ruling, ServiceError>)
    requires RuledOn(c, scope, key, digest, outcome)
    ensures Rule(c, material, scope, key, digest, actor, trace, ports, faults) == Step(NeverBegan, outcome, faults)
  {
  }

  /** A publication command, once decided, is answered the same ever after: the same identifier and
      audit reference, or the same rejection, without touching the bus. */
  lemma PublicationReplays(c: Committed, m: PublicationCommand, key: Id, actor: Actor, trace: Id, ports: Ports, faults: Faults,
                           turns: seq<Turn>, again: Actor, trace2: Id, ports2: Ports, faults2: Faults)
    requires Inv(c) && FindAnchor(c, AcceptScope(m), key) == None
    requires Accept(c, m, Some(key), actor, trace, ports, faults).exit.Commits?
    ensures var first := Accept(c, m, Some(key), actor, trace, ports, faults);
      var later := Run(After(c, first.exit), turns);
      Accept(later, m, Some(key), again, trace2, ports2, faults2) == Step(NeverBegan, first.outcome, faults2)
  {
    hide Run, Inv, Follows, After, RuledOn, RequestDigest;
    var digest, scope := RequestDigest(m.canonical), AcceptScope(m);
    var ruled := Rule(c, MaterialFromCommand(m, actor, trace), scope, key, digest, actor, trace, ports, faults);
    RuleRulesOn(c, MaterialFromCommand(m, actor, trace), scope, key, digest, actor, trace, ports, faults);
    var next := After(c, ruled.exit);
    AcceptCallLawful(c, m, Some(key), actor, trace, ports, faults);
    ExitKeeps(c, ruled.exit);
    RunKeeps(next, turns);
    RuledOnStays(next, Run(next, turns), scope, key, digest, ruled.outcome);
    RuledOnReplays(Run(next, turns), MaterialFromCommand(m, again, trace2), scope, key, digest, again, trace2, ports2, faults2,
                   ruled.outcome);
  }

  /** The answer to a fact consumed before: the same, marked as a duplicate when it was accepted. */
  function AsDuplicate(first: Result<RelayReceipt, ServiceError>): Result<RelayReceipt, ServiceError> {
    match first
    case Ok(receipt) => Ok(receipt.(status := RelayDuplicate))
    case Err(e) => Err(e)
  }

  lemma FactReplays(c: Committed, f: OutboxFact, actor: Actor, trace: Id, ports: Ports, faults: Faults,
                    turns: seq<Turn>, again: Actor, trace2: Id, ports2: Ports, faults2: Faults)
    requires Inv(c) && FindAnchor(c, FactScope(f), f.idempotencyKey) == None
    requires AcceptFact(c, f, actor, trace, ports, faults).exit.Commits?
    ensures var first := AcceptFact(c, f, actor, trace, ports, faults);
      var later := Run(After(c, first.exit), turns);
      AcceptFact(later, f, again, trace2, ports2, faults2) == Step(NeverBegan, AsDuplicate(first.outcome), faults2)
  {
    hide Run, Inv, Follows, After, RuledOn, RequestDigest;
    var digest, scope, key := RequestDigest(f.canonical), FactScope(f), f.idempotencyKey;
    var ruled := Rule(c, MaterialFromFact(f, actor, trace), scope, key, digest, actor, trace, ports, faults);
    RuleRulesOn(c, MaterialFromFact(f, actor, trace), scope, key, digest, actor, trace, ports, faults);
    var next := After(c, ruled.exit);
    FactCallLawful(c, f, actor, trace, ports, faults);
    ExitKeeps(c, ruled.exit);
    RunKeeps(next, turns);
    RuledOnStays(next, Run(next, turns), scope, key, digest, ruled.outcome);
    RuledOnReplays(Run(next, turns), MaterialFromFact(f, again, trace2), scope, key, digest, again, trace2, ports2, faults2,
                   ruled.outcome);
  }

  // ---------------------------------------------------------------- feedback

  /** A committed feedback with its anchor. */
  ghost predicate FedBack(c: Committed, scope: Scope, key: Id, digest: string, f: Feedback) {
    && f.auditRef.Some?
    && (scope, key) in c.anchors && c.anchors[(scope, key)].digest == digest
    && c.anchors[(scope, key)].bound == FeedbackRef(f.feedbackId) && Get(c.feedbacks, f.feedbackId) == Some(f)
  }

  lemma WriteFeedsBack(c: Committed, f: Feedback, d: Delivery, after: Delivery, scope: Scope, key: Id, digest: string, actor: Actor,
                       trace: Id, ports: Ports, faults: Faults) returns (stored: Feedback)
    requires after.deliveryId == d.deliveryId
    requires WriteFeedback(c, f, d, after, scope, key, digest, actor, trace, ports, faults).Ok?
    ensures var (s, auditRef) := WriteFeedback(c, f, d, after, scope, key, digest, actor, trace, ports, faults).value;
      && FedBack(Overlay(c, s), scope, key, digest, stored)
      && stored == f.(auditRef := Some(auditRef), version := stored.version)
  {
    var anchor, entry;
    stored, anchor, entry := WriteShape(c, f, d, after, scope, key, digest, actor, trace, ports, faults);
  }

  lemma FedBackStays(before: Committed, after: Committed, scope: Scope, key: Id, digest: string, f: Feedback)
    requires FedBack(before, scope, key, digest, f) && Follows(before, after)
    ensures FedBack(after, scope, key, digest, f)
  {
  }

  function Receipt(f: Feedback, auditRef: Id): FeedbackReceipt {
    FeedbackReceipt(f.feedbackId, f.deliveryId, ImpliedStatus(f), auditRef)
  }

  lemma ReceiptOfStored(f: Feedback, stored: Feedback, auditRef: Id)
    requires stored == f.(auditRef := stored.auditRef, version := stored.version)
    ensures Receipt(stored, auditRef) == Receipt(f, auditRef)
  {
  }

  lemma BodyOnRecord(c: Committed, d: Delivery, m: FeedbackCommand, key: Id, actor: Actor, trace: Id, ports: Ports, faults: Faults)
    returns (stored: Feedback)
    requires Rules.WellFormed(d) && FeedbackBody(c, d, m, key, actor, trace, ports, faults).Ok?
    ensures var (s, outcome) := FeedbackBody(c, d, m, key, actor, trace, ports, faults).value;
      && FedBack(Overlay(c, s), CommandScope(m), key, RequestDigest(m.canonical), stored)
      && outcome == Ok(Receipt(stored, stored.auditRef.value))
  {
    var f, after := RecordShape(c, d, m, key, actor, trace, ports, faults);
    stored := WriteFeedsBack(c, f, d, after, CommandScope(m), key, RequestDigest(m.canonical), actor, trace, ports, faults);
    ReceiptOfStored(f, stored, stored.auditRef.value);
  }

  lemma FeedbackOnRecord(c: Committed, m: FeedbackCommand, key: Id, actor: Actor, trace: Id, ports: Ports, faults: Faults)
    returns (stored: Feedback)
    requires m.deliveryId in c.deliveries ==> Rules.WellFormed(c.deliveries[m.deliveryId])
    requires FindAnchor(c, CommandScope(m), key) == None
    requires RecordFeedback(c, m, Some(key), actor, trace, ports, faults).exit.Commits?
    ensures var first := RecordFeedback(c, m, Some(key), actor, trace, ports, faults);
      && FedBack(After(c, first.exit), CommandScope(m), key, RequestDigest(m.canonical), stored)
      && first.outcome == Ok(Receipt(stored, stored.auditRef.value))
  {
    stored := BodyOnRecord(c, c.deliveries[m.deliveryId], m, key, actor, trace, ports, faults);
  }

  /** Recorded feedback is answered the same ever after, with the status it implied even if the
      delivery has moved on. */
  lemma FeedbackReplays(c: Committed, m: FeedbackCommand, key: Id, actor: Actor, trace: Id, ports: Ports, faults: Faults,
                        turns: seq<Turn>, again: Actor, trace2: Id, ports2: Ports, faults2: Faults)
    requires Inv(c) && FindAnchor(c, CommandScope(m), key) == None
    requires RecordFeedback(c, m, Some(key), actor, trace, ports, faults).exit.Commits?
    ensures var first := RecordFeedback(c, m, Some(key), actor, trace, ports, faults);
      var later := Run(After(c, first.exit), turns);
      RecordFeedback(later, m, Some(key), again, trace2, ports2, faults2) == Step(NeverBegan, first.outcome, faults2)
  {
    hide Run, Inv, Follows, FedBack, RequestDigest;
    var first := RecordFeedback(c, m, Some(key), actor, trace, ports, faults);
    if m.deliveryId in c.deliveries {
      StoredDelivery(c, m.deliveryId);
    }
    var stored := FeedbackOnRecord(c, m, key, actor, trace, ports, faults);
    FeedbackCallLawful(c, m, Some(key), actor, trace, ports, faults);
    ExitKeeps(c, first.exit);
    var next := After(c, first.exit);
    RunKeeps(next, turns);
    FedBackStays(next, Run(next, turns), CommandScope(m), key, RequestDigest(m.canonical), stored);
    FeedbackAnswered(Run(next, turns), m, key, again, trace2, ports2, faults2, stored);
  }

  lemma FeedbackAnswered(c: Committed, m: FeedbackCommand, key: Id, actor: Actor, trace: Id, ports: Ports, faults: Faults, f: Feedback)
    requires FedBack(c, CommandScope(m), key, RequestDigest(m.canonical), f)
    ensures RecordFeedback(c, m, Some(key), actor, trace, ports, faults) ==
            Step(NeverBegan, Ok(Receipt(f, f.auditRef.value)), faults)
  {
  }

  // ---------------------------------------------------------------- backend signals

  function KindOf(s: BackendStatus): FeedbackKind {
    if s == BackendDelivered then AckKind else FailKind
  }

  lemma SettledOnRecord(c: Committed, d: Delivery, m: BackendSignal, normalized: BackendResult, actor: Actor, trace: Id,
                        ports: Ports, faults: Faults) returns (stored: Feedback)
    requires Rules.WellFormed(d) && SettledBody(c, d, m, normalized, actor, trace, ports, faults).Ok?
    ensures var (s, outcome) := SettledBody(c, d, m, normalized, actor, trace, ports, faults).value;
      && FedBack(Overlay(c, s), SignalScope(m), m.idempotencyKey, RequestDigest(m.canonical), stored)
      && SignalOutcome(stored) == Ok(KindOf(m.backendStatus))
      && outcome == Ok(SignalReceipt(d.deliveryId, m.attemptId, RecordedNow, Some(KindOf(m.backendStatus)),
                                     Some(stored.feedbackId), stored.auditRef.value))
  {
    var f, after := SettledShape(c, d, m, normalized, actor, trace, ports, faults);
    SignalFeedback(d.deliveryId, m, actor, ports.now);
    stored := WriteFeedsBack(c, f, d, after, SignalScope(m), m.idempotencyKey, RequestDigest(m.canonical), actor, trace, ports, faults);
    assert SignalOutcome(f) == Ok(KindOf(m.backendStatus));
  }

  lemma SignalOnRecord(c: Committed, d: Delivery, m: BackendSignal, answer: Result<BackendResult, TransportError>, actor: Actor,
                       trace: Id, ports: Ports, faults: Faults) returns (stored: Feedback)
    requires FindAnchor(c, SignalScope(m), m.idempotencyKey) == None
    requires Get(c.deliveries, m.deliveryId) == Some(d) && d.deliveryId == m.deliveryId && Rules.WellFormed(d)
    requires RecordSignal(c, m, answer, actor, trace, ports, faults).exit.Commits?
    ensures var first := RecordSignal(c, m, answer, actor, trace, ports, faults);
      && FedBack(After(c, first.exit), SignalScope(m), m.idempotencyKey, RequestDigest(m.canonical), stored)
      && SignalOutcome(stored) == Ok(KindOf(m.backendStatus))
      && first.outcome == Ok(SignalReceipt(m.deliveryId, m.attemptId, RecordedNow, Some(KindOf(m.backendStatus)),
                                           Some(stored.feedbackId), stored.auditRef.value))
  {
    stored := SettledOnRecord(c, d, m, answer.value, actor, trace, ports, faults);
  }

  lemma SignalAnswered(c: Committed, m: BackendSignal, answer: Result<BackendResult, TransportError>, actor: Actor, trace: Id,
                       ports: Ports, faults: Faults, f: Feedback)
    requires FedBack(c, SignalScope(m), m.idempotencyKey, RequestDigest(m.canonical), f)
    requires SignalOutcome(f) == Ok(KindOf(m.backendStatus))
    ensures RecordSignal(c, m, answer, actor, trace, ports, faults) ==
            Step(NeverBegan, Ok(SignalReceipt(m.deliveryId, m.attemptId, DuplicateSignal, Some(KindOf(m.backendStatus)),
                                              Some(f.feedbackId), f.auditRef.value)), faults)
  {
  }

  /** A recorded backend signal is a duplicate ever after, with the same result, feedback and audit entry. */
  lemma SignalReplays(c: Committed, m: BackendSignal, answer: Result<BackendResult, TransportError>, actor: Actor, trace: Id,
                      ports: Ports, faults: Faults, turns: seq<Turn>, answer2: Result<BackendResult, TransportError>,
                      again: Actor, trace2: Id, ports2: Ports, faults2: Faults)
    requires Inv(c) && FindAnchor(c, SignalScope(m), m.idempotencyKey) == None && m.deliveryId in c.deliveries
    requires RecordSignal(c, m, answer, actor, trace, ports, faults).exit.Commits?
    ensures var first := RecordSignal(c, m, answer, actor, trace, ports, faults);
      var later := Run(After(c, first.exit), turns);
      && first.outcome.Ok? && first.outcome.value.status == RecordedNow
      && RecordSignal(later, m, answer2, again, trace2, ports2, faults2) ==
         Step(NeverBegan, Ok(first.outcome.value.(status := DuplicateSignal)), faults2)
  {
    hide Run, Inv, Follows, FedBack, RequestDigest;
    var first := RecordSignal(c, m, answer, actor, trace, ports, faults);
    StoredDelivery(c, m.deliveryId);
    var stored := SignalOnRecord(c, c.deliveries[m.deliveryId], m, answer, actor, trace, ports, faults);
    SignalCallLawful(c, m, answer, actor, trace, ports, faults);
    ExitKeeps(c, first.exit);
    var next := After(c, first.exit);
    RunKeeps(next, turns);
    FedBackStays(next, Run(next, turns), SignalScope(m), m.idempotencyKey, RequestDigest(m.canonical), stored);
    SignalAnswered(Run(next, turns), m, answer2, again, trace2, ports2, faults2, stored);
  }

  // ---------------------------------------------------------------- timeouts

  lemma LateOnRecord(c: Committed, d: Delivery, m: TimeoutSignal, actor: Actor, trace: Id, ports: Ports, faults: Faults)
    returns (stored: Feedback)
    requires Rules.WellFormed(d) && LateBody(c, d, m, actor, trace, ports, faults).Ok?
    ensures var (s, outcome) := LateBody(c, d, m, actor, trace, ports, faults).value;
      && FedBack(Overlay(c, s), TimeoutScope(m), m.idempotencyKey, RequestDigest(m.canonical), stored) && stored.status == Timeout
      && outcome == Ok(TimeoutReceipt(d.deliveryId, Some(stored.feedbackId), RecordedNow, true, stored.auditRef.value))
  {
    var f, after := LateShape(c, d, m, actor, trace, ports, faults);
    TimeoutFeedback(d.deliveryId, m, actor);
    stored := WriteFeedsBack(c, f, d, after, TimeoutScope(m), m.idempotencyKey, RequestDigest(m.canonical), actor, trace, ports, faults);
  }

  lemma TimeoutOnRecord(c: Committed, d: Delivery, m: TimeoutSignal, actor: Actor, trace: Id, ports: Ports, faults: Faults)
    returns (stored: Feedback)
    requires FindAnchor(c, TimeoutScope(m), m.idempotencyKey) == None
    requires Get(c.deliveries, m.deliveryId) == Some(d) && d.deliveryId == m.deliveryId && Rules.WellFormed(d)
    requires RecordTimeout(c, m, actor, trace, ports, faults).exit.Commits?
    ensures var first := RecordTimeout(c, m, actor, trace, ports, faults);
      && FedBack(After(c, first.exit), TimeoutScope(m), m.idempotencyKey, RequestDigest(m.canonical), stored)
      && stored.status == Timeout
      && first.outcome == Ok(TimeoutReceipt(m.deliveryId, Some(stored.feedbackId), RecordedNow, true, stored.auditRef.value))
  {
    stored := LateOnRecord(c, d, m, actor, trace, ports, faults);
  }

  lemma TimeoutAnswered(c: Committed, m: TimeoutSignal, actor: Actor, trace: Id, ports: Ports, faults: Faults, f: Feedback)
    requires FedBack(c, TimeoutScope(m), m.idempotencyKey, RequestDigest(m.canonical), f) && f.status == Timeout
    ensures RecordTimeout(c, m, actor, trace, ports, faults) ==
            Step(NeverBegan, Ok(TimeoutReceipt(m.deliveryId, Some(f.feedbackId), DuplicateSignal, true, f.auditRef.value)), faults)
  {
  }

  lemma TimeoutReplays(c: Committed, m: TimeoutSignal, actor: Actor, trace: Id, ports: Ports, faults: Faults,
                       turns: seq<Turn>, again: Actor, trace2: Id, ports2: Ports, faults2: Faults)
    requires Inv(c) && FindAnchor(c, TimeoutScope(m), m.idempotencyKey) == None && m.deliveryId in c.deliveries
    requires RecordTimeout(c, m, actor, trace, ports, faults).exit.Commits?
    ensures var first := RecordTimeout(c, m, actor, trace, ports, faults);
      var later := Run(After(c, first.exit), turns);
      && first.outcome.Ok? && first.outcome.value.status == RecordedNow
      && RecordTimeout(later, m, again, trace2, ports2, faults2) ==
         Step(NeverBegan, Ok(first.outcome.value.(status := DuplicateSignal)), faults2)
  {
    hide Run, Inv, Follows, FedBack, RequestDigest;
    var first := RecordTimeout(c, m, actor, trace, ports, faults);
    StoredDelivery(c, m.deliveryId);
    var stored := TimeoutOnRecord(c, c.deliveries[m.deliveryId], m, actor, trace, ports, faults);
    TimeoutCallLawful(c, m, actor, trace, ports, faults);
    ExitKeeps(c, first.exit);
    var next := After(c, first.exit);
    RunKeeps(next, turns);
    FedBackStays(next, Run(next, turns), TimeoutScope(m), m.idempotencyKey, RequestDigest(m.canonical), stored);
    TimeoutAnswered(Run(next, turns), m, again, trace2, ports2, faults2, stored);
  }

  // ---------------------------------------------------------------- no reachable state is corrupted

  /** In every reachable state whatever an anchor is bound to can be replayed. */
  lemma ReplaysNeverCorrupted(c: Committed, scope: Scope, key: Id, deliveryId: Id, attemptId: Id)
    requires Inv(c) && FindAnchor(c, scope, key).Some?
    ensures var a := FindAnchor(c, scope, key).value;
      && (scope.action.AcceptPublication? || scope.action.ConsumeCommittedOutboxFact? ==> ExistingRuling(c, a).Ok?)
      && (scope.action.RecordDeliveryFeedback? ==> ExistingFeedback(c, a).Ok?)
      && (scope.action.ConsumeBackendDeliverySignal? ==> ExistingSignal(c, a, deliveryId, attemptId).Ok?)
      && (scope.action.ConsumeTimeoutSignal? ==> ExistingTimeout(c, a, deliveryId).Ok?)
  {
    AnchorBound(c, scope, key);
  }

  lemma AnchorBound(c: Committed, scope: Scope, key: Id)
    requires Inv(c) && (scope, key) in c.anchors
    ensures c.anchors[(scope, key)].scope == scope && BoundOk(c.anchors[(scope, key)], c.publications, c.feedbacks)
  {
  }
}
