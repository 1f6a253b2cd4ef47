/** A key reused for a different request is refused at every entry point, on record and without touching any record. */
module KeyReuse {
  import opened Common
  import opened Records
  import opened StoreModel
  import opened Steps
  import opened Digest
  import opened FeedbackRules
  import opened FeedbackSteps
  import opened IdempotencySteps
  import opened PublicationRules
  import opened PublicationSteps

  /** Every table of records is as it was. */
  ghost predicate SameRecords(before: Committed, after: Committed) {
    && after.deliveries == before.deliveries && after.plans == before.plans && after.feedbacks == before.feedbacks
    && after.publications == before.publications && after.materials == before.materials
    && after.deadLetters == before.deadLetters && after.replays == before.replays
    && after.failureMaterials == before.failureMaterials && after.anchors == before.anchors
  }

  /** The key is bound to a request with another digest. */
  ghost predicate BoundElsewhere(c: Committed, scope: Scope, key: Id, digest: string) {
    FindAnchor(c, scope, key).Some? && FindAnchor(c, scope, key).value.digest != digest
  }

  /** The refusal: one conflict record with both digests and one entry, which the error names; or, when no identifier is
      drawn or something fails, nothing at all. */
  ghost predicate RefusesReuse<T>(c: Committed, step: Step<T>, scope: Scope, key: Id, digest: string, actor: Actor, trace: Id,
                                        ports: Ports, faults: Faults)
    requires BoundElsewhere(c, scope, key, digest)
  {
    var after := After(c, step.exit);
    && step.outcome.Err? && SameRecords(c, after)
    && if ports.auditId.Some? && faults == NO_FAULTS then
         && after.conflicts == c.conflicts + [Conflict(scope, key, FindAnchor(c, scope, key).value.digest, digest, ports.now, trace)]
         && after.audits == c.audits + [AuditEntry(ports.auditId.value, KeySubject(scope, key), IdempotencyConflict, actor, ports.now, trace)]
         && step.outcome.error == ConflictError("conflict.idempotency_request_mismatch", ports.auditId)
       else after == c
  }

  lemma OnlyLogged(c: Committed, s: Staged)
    requires s == NOTHING.(conflicts := s.conflicts, audits := s.audits)
    ensures SameRecords(c, Overlay(c, s))
  {
    hide Overlay;
    PublicationsLeft(c, s);
    ReportsLeft(c, s);
    RecoveryLeft(c, s);
  }

  lemma PublicationsLeft(c: Committed, s: Staged)
    requires s.publications == map[] && s.materials == map[]
    ensures Overlay(c, s).publications == c.publications && Overlay(c, s).materials == c.materials
  {
    hide Overlay;
    PublicationTables(c, s);
    NothingWritten(c.publications, s.publications);
    NothingWritten(c.materials, s.materials);
  }

  lemma ReportsLeft(c: Committed, s: Staged)
    requires s.deliveries == map[] && s.feedbacks == map[] && s.anchors == map[]
    ensures Overlay(c, s).deliveries == c.deliveries && Overlay(c, s).feedbacks == c.feedbacks && Overlay(c, s).anchors == c.anchors
  {
    hide Overlay;
    ReportTables(c, s);
    NothingWritten(c.deliveries, s.deliveries);
    NothingWritten(c.feedbacks, s.feedbacks);
    NothingWritten(c.anchors, s.anchors);
  }

  lemma RecoveryLeft(c: Committed, s: Staged)
    requires s.deadLetters == map[] && s.replays == map[] && s.failureMaterials == map[] && s.plans == map[]
    ensures Overlay(c, s).deadLetters == c.deadLetters && Overlay(c, s).replays == c.replays
    ensures Overlay(c, s).failureMaterials == c.failureMaterials && Overlay(c, s).plans == c.plans
  {
    hide Overlay;
    RecoveryTables(c, s);
    PlansAfter(c, Commits(s));
    NothingWritten(c.deadLetters, s.deadLetters);
    NothingWritten(c.replays, s.replays);
    NothingWritten(c.failureMaterials, s.failureMaterials);
    NothingWritten(c.plans, s.plans);
  }

  lemma ConflictRefuses<T>(c: Committed, scope: Scope, key: Id, digest: string, actor: Actor, trace: Id, ports: Ports, faults: Faults)
    requires BoundElsewhere(c, scope, key, digest)
    ensures RefusesReuse(c, RecordConflict<T>(scope, key, FindAnchor(c, scope, key).value, digest, actor, trace, ports, faults),
                         scope, key, digest, actor, trace, ports, faults)
  {
    hide Overlay, RecordConflict, SameRecords;
    var existing := FindAnchor(c, scope, key).value;
    ConflictOutcome<T>(scope, key, existing, digest, actor, trace, ports, faults);
    var exit := RecordConflict<T>(scope, key, existing, digest, actor, trace, ports, faults).exit;
    if exit.Commits? {
      OnlyLogged(c, exit.staged);
      LogTables(c, exit.staged);
    } else {
      Untouched(c);
    }
  }

  lemma Untouched(c: Committed)
    ensures SameRecords(c, c)
  {
  }

  lemma CommandReuseRefused(c: Committed, m: PublicationCommand, key: Id, actor: Actor, trace: Id, ports: Ports, faults: Faults)
    requires BoundElsewhere(c, AcceptScope(m), key, RequestDigest(m.canonical))
    ensures RefusesReuse(c, Accept(c, m, Some(key), actor, trace, ports, faults), AcceptScope(m), key, RequestDigest(m.canonical),
                         actor, trace, ports, faults)
  {
    hide Overlay, RecordConflict, SameRecords, RequestDigest;
    ConflictRefuses<Ruling>(c, AcceptScope(m), key, RequestDigest(m.canonical), actor, trace, ports, faults);
  }

  lemma FactReuseRefused(c: Committed, f: OutboxFact, actor: Actor, trace: Id, ports: Ports, faults: Faults)
    requires BoundElsewhere(c, FactScope(f), f.idempotencyKey, RequestDigest(f.canonical))
    ensures RefusesReuse(c, AcceptFact(c, f, actor, trace, ports, faults), FactScope(f), f.idempotencyKey, RequestDigest(f.canonical),
                         actor, trace, ports, faults)
  {
    hide Overlay, RecordConflict, SameRecords, RequestDigest;
    ConflictRefuses<Ruling>(c, FactScope(f), f.idempotencyKey, RequestDigest(f.canonical), actor, trace, ports, faults);
  }

  lemma FeedbackReuseRefused(c: Committed, m: FeedbackCommand, key: Id, actor: Actor, trace: Id, ports: Ports, faults: Faults)
    requires BoundElsewhere(c, CommandScope(m), key, RequestDigest(m.canonical))
    ensures RefusesReuse(c, RecordFeedback(c, m, Some(key), actor, trace, ports, faults), CommandScope(m), key,
                         RequestDigest(m.canonical), actor, trace, ports, faults)
  {
    hide Overlay, RecordConflict, SameRecords, RequestDigest;
    ConflictRefuses<FeedbackReceipt>(c, CommandScope(m), key, RequestDigest(m.canonical), actor, trace, ports, faults);
  }

  lemma SignalReuseRefused(c: Committed, m: BackendSignal, answer: Result<BackendResult, TransportError>, actor: Actor, trace: Id,
                           ports: Ports, faults: Faults)
    requires BoundElsewhere(c, SignalScope(m), m.idempotencyKey, RequestDigest(m.canonical))
    ensures RefusesReuse(c, RecordSignal(c, m, answer, actor, trace, ports, faults), SignalScope(m), m.idempotencyKey,
                         RequestDigest(m.canonical), actor, trace, ports, faults)
  {
    hide Overlay, RecordConflict, SameRecords, RequestDigest;
    ConflictRefuses<SignalReceipt>(c, SignalScope(m), m.idempotencyKey, RequestDigest(m.canonical), actor, trace, ports, faults);
  }

  lemma TimeoutReuseRefused(c: Committed, m: TimeoutSignal, actor: Actor, trace: Id, ports: Ports, faults: Faults)
    requires BoundElsewhere(c, TimeoutScope(m), m.idempotencyKey, RequestDigest(m.canonical))
    ensures RefusesReuse(c, RecordTimeout(c, m, actor, trace, ports, faults), TimeoutScope(m), m.idempotencyKey,
                         RequestDigest(m.canonical), actor, trace, ports, faults)
  {
    hide Overlay, RecordConflict, SameRecords, RequestDigest;
    ConflictRefuses<TimeoutReceipt>(c, TimeoutScope(m), m.idempotencyKey, RequestDigest(m.canonical), actor, trace, ports, faults);
  }
}
