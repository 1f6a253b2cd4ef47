/** What accepting a publication commits and answers, read off the request's own fields. */
module PublicationOutcomes {
  import opened Common
  import opened Records
  import opened StoreModel
  import opened Steps
  import opened Digest
  import opened ServiceEffects
  import opened IdempotencySteps
  import opened PublicationRules
  import opened PublicationSteps

  // ---------------------------------------------------------------- references and bodies

  /** The text from lo to hi is what its outer blanks surround. */
  ghost predicate Core(text: string, lo: nat, hi: nat) {
    && lo < hi <= |text| && !IsSpace(text[lo]) && !IsSpace(text[hi - 1])
    && (forall i | 0 <= i < lo :: IsSpace(text[i])) && (forall i | hi <= i < |text| :: IsSpace(text[i]))
  }

  ghost predicate Quotes(text: string, lo: nat, hi: nat, part: string)
    requires lo <= hi <= |text|
  {
    exists i | lo <= i <= hi - |part| :: part <= text[i..]
  }

  /** Without its outer blanks the text opens no JSON value, stays on one line and quotes no secret or payload field. */
  ghost predicate IsReference(text: string) {
    exists lo: nat, hi: nat :: Core(text, lo, hi) && Plain(text, lo, hi)
  }

  ghost predicate Plain(text: string, lo: nat, hi: nat)
    requires lo < hi <= |text|
  {
    && text[lo] != '{' && text[lo] != '['
    && (forall i | lo <= i < hi :: text[i] != '\n' && text[i] != '\r')
    && !Quotes(text, lo, hi, "\"secret\"") && !Quotes(text, lo, hi, "\"payload\"")
  }

  lemma CoreBehindBlank(text: string, lo: nat, hi: nat)
    requires text != [] && IsSpace(text[0]) && Core(text[1..], lo, hi)
    ensures Core(text, lo + 1, hi + 1) && text[lo + 1..hi + 1] == text[1..][lo..hi]
  {
    hide IsSpace;
    assert forall i | 0 <= i < |text| - 1 :: text[i + 1] == text[1..][i];
  }

  lemma CoreBeforeBlank(text: string, lo: nat, hi: nat)
    requires text != [] && IsSpace(text[|text| - 1]) && Core(text[..|text| - 1], lo, hi)
    ensures Core(text, lo, hi) && text[lo..hi] == text[..|text| - 1][lo..hi]
  {
    hide IsSpace;
  }

  lemma WholeCore(text: string)
    requires text != [] && !IsSpace(text[0]) && !IsSpace(text[|text| - 1])
    ensures Core(text, 0, |text|) && text[0..|text|] == text
  {
  }

  lemma {:induction false} TrimFindsCore(text: string) returns (lo: nat, hi: nat)
    requires !IsBlank(text)
    ensures Core(text, lo, hi) && Trim(text) == text[lo..hi]
    decreases |text|
  {
    hide IsSpace, Core;
    var n := |text|;
    if IsSpace(text[0]) {
      var rest := text[1..];
      assert text == [text[0]] + rest;
      lo, hi := TrimFindsCore(rest);
      CoreBehindBlank(text, lo, hi);
      lo, hi := lo + 1, hi + 1;
    } else if IsSpace(text[n - 1]) {
      var front := text[..n - 1];
      assert !IsSpace(front[0]);
      lo, hi := TrimFindsCore(front);
      CoreBeforeBlank(text, lo, hi);
    } else {
      lo, hi := 0, n;
      WholeCore(text);
    }
  }

  lemma {:induction false} TrimOfBlank(text: string)
    requires IsBlank(text)
    ensures Trim(text) == []
  {
    if text != [] {
      TrimOfBlank(text[1..]);
    }
  }

  lemma CoreUnique(text: string, lo: nat, hi: nat, lo2: nat, hi2: nat)
    requires Core(text, lo, hi) && Core(text, lo2, hi2)
    ensures lo == lo2 && hi == hi2
  {
    hide IsSpace;
  }

  lemma SliceInside(text: string, lo: nat, hi: nat, i: nat, n: nat)
    requires lo <= i && i + n <= hi <= |text|
    ensures text[lo..hi][i - lo..i - lo + n] == text[i..][..n]
  {
    forall k | 0 <= k < n ensures text[lo..hi][i - lo..i - lo + n][k] == text[i..][..n][k] {
      assert text[lo..hi][i - lo + k] == text[i + k];
    }
  }

  lemma QuotesInside(text: string, lo: nat, hi: nat, part: string)
    requires lo <= hi <= |text|
    ensures Contains(text[lo..hi], part) <==> Quotes(text, lo, hi, part)
  {
    var value, n := text[lo..hi], |part|;
    forall i | lo <= i <= hi - n ensures OccursAt(value, part, i - lo) <==> part <= text[i..] {
      SliceInside(text, lo, hi, i, n);
    }
    if Contains(value, part) {
      var i :| 0 <= i <= |value| && OccursAt(value, part, i);
      assert part <= text[lo + i..];
    }
  }

  /** The payload guard lets exactly the references pass. */
  lemma GuardMeaning(m: Material)
    ensures RejectsBody(m) <==> !IsReference(m.payloadRef)
  {
    var text := m.payloadRef;
    if IsBlank(text) {
      TrimOfBlank(text);
      forall lo: nat, hi: nat ensures !Core(text, lo, hi) {
      }
    } else {
      hide Trim, Contains, Core, Quotes, IsBlank;
      var lo, hi := TrimFindsCore(text);
      CoreBounds(text, lo, hi);
      QuotesInside(text, lo, hi, "\"secret\"");
      QuotesInside(text, lo, hi, "\"payload\"");
      LinesInside(text, lo, hi);
      assert RejectsBody(m) <==> !Plain(text, lo, hi);
      forall lo2: nat, hi2: nat | Core(text, lo2, hi2) ensures lo2 == lo && hi2 == hi {
        CoreUnique(text, lo, hi, lo2, hi2);
      }
    }
  }

  lemma CoreBounds(text: string, lo: nat, hi: nat)
    requires Core(text, lo, hi)
    ensures lo < hi <= |text|
  {
  }

  lemma LinesInside(text: string, lo: nat, hi: nat)
    requires lo < hi <= |text|
    ensures text[lo..hi] != [] && text[lo..hi][0] == text[lo]
    ensures ('\n' in text[lo..hi] || '\r' in text[lo..hi]) <==> exists i | lo <= i < hi :: text[i] == '\n' || text[i] == '\r'
  {
    var value := text[lo..hi];
    forall i | lo <= i < hi ensures text[i] == value[i - lo] {
    }
  }

  // ---------------------------------------------------------------- what is stored

  /** The stored decision is the one the core event and payload references call for. */
  ghost predicate DecidedBy(a: Acceptance, coreEventRef: Id, payloadRef: string, at: Timestamp, auditRef: Id) {
    && (a.status == AcceptedPublication <==> !IsBlank(coreEventRef) && IsReference(payloadRef))
    && (a.status == RejectedPublication <==> IsBlank(coreEventRef) || !IsReference(payloadRef))
    && (a.rejectReason == Some(MissingCoreEventRef) <==> IsBlank(coreEventRef))
    && (a.rejectReason == Some(PayloadBoundaryViolation) <==> !IsBlank(coreEventRef) && !IsReference(payloadRef))
    && (a.rejectReason == None <==> a.status == AcceptedPublication)
    && a.acceptedAt == (if a.status == AcceptedPublication then Some(at) else None)
    && a.decisionAuditRef == Some(auditRef)
  }

  /** The entry tells the decision, by the request's actor under its trace. */
  ghost predicate ToldBy(e: AuditEntry, m: Material, at: Timestamp, auditRef: Id) {
    && e == AuditEntry(auditRef, PublicationSubject(m.publicationId), e.action, m.actor, at, m.trace)
    && (e.action == PublicationAccepted <==> !IsBlank(m.coreEventRef) && IsReference(m.payloadRef))
    && (e.action == PublicationRejected(MissingCoreEventRef) <==> IsBlank(m.coreEventRef))
    && (e.action == PublicationRejected(PayloadBoundaryViolation) <==> !IsBlank(m.coreEventRef) && !IsReference(m.payloadRef))
  }

  /** The anchor that binds the request's key to its publication. */
  function AnchorFor(m: Material, scope: Scope, key: Id, digest: string, ports: Ports): Anchor
    requires ports.anchorId.Some?
  {
    Anchor(ports.anchorId.value, scope, key, digest, PublicationRef(m.publicationId), ports.now, m.trace)
  }

  lemma DecisionMeaning(m: Material, a: Acceptance, at: Timestamp, auditRef: Id)
    requires a.status == Pending
    ensures Deciding(a, Decision(m), at, auditRef).Ok?
    ensures var decided := Deciding(a, Decision(m), at, auditRef).value;
      DecidedBy(decided, m.coreEventRef, m.payloadRef, at, auditRef) && decided.publicationId == a.publicationId
      && RulingOf(decided) == Ok(Ruling(a.publicationId, decided.rejectReason, auditRef))
  {
    hide RejectsBody, IsReference, IsBlank;
    GuardMeaning(m);
  }

  // ---------------------------------------------------------------- when a new decision commits

  lemma WriteDecisionIff(c: Committed, m: Material, decided: Acceptance, entry: AuditEntry, anchor: Anchor, faults: Faults)
    requires decided.publicationId == m.publicationId
    ensures WriteDecision(c, m, decided, entry, anchor, faults).Ok? <==>
            && m.publicationId !in c.publications && m.publicationId !in c.materials
            && faults.append.None? && (anchor.scope, anchor.key) !in c.anchors
  {
  }

  /** The request's publication is not stored, and nothing outside the store fails. */
  ghost predicate Undisturbed(c: Committed, id: Id, ports: Ports, faults: Faults) {
    && id !in c.publications && id !in c.materials
    && ports.auditId.Some? && ports.anchorId.Some? && faults == NO_FAULTS
  }

  /** Staged together: the material, the decision its references call for, the entry that tells it and the anchor. */
  ghost predicate DecisionStaged(s: Staged, m: Material, anchor: Anchor, at: Timestamp, auditRef: Id) {
    && s.materials.Keys == s.publications.Keys == {m.publicationId} && s.materials[m.publicationId] == m
    && s.publications[m.publicationId].publicationId == m.publicationId
    && DecidedBy(s.publications[m.publicationId], m.coreEventRef, m.payloadRef, at, auditRef)
    && s.anchors.Keys == {(anchor.scope, anchor.key)} && s.anchors[(anchor.scope, anchor.key)] == anchor
    && |s.audits| == 1 && ToldBy(s.audits[0], m, at, auditRef)
  }

  lemma DecideOutcome(c: Committed, m: Material, scope: Scope, key: Id, digest: string, actor: Actor, trace: Id, ports: Ports,
                      faults: Faults)
    requires !IsBlank(m.payloadRef) && FindAnchor(c, scope, key) == None && m.actor == actor && m.trace == trace
    ensures var step := Decide(c, Ok(m), scope, key, digest, actor, trace, ports, faults);
      && (step.exit.Commits? <==> Undisturbed(c, m.publicationId, ports, faults)) && !step.exit.Appends?
      && (step.exit.Commits? ==>
            && DecisionStaged(step.exit.staged, m, AnchorFor(m, scope, key, digest, ports), ports.now, ports.auditId.value)
            && step.outcome == Ok(Ruling(m.publicationId, step.exit.staged.publications[m.publicationId].rejectReason,
                                         ports.auditId.value)))
  {
    hide WriteDecision, Deciding, RulingOf, RejectsBody, IsReference, DecidedBy, IsBlank;
    var a := StartPending(m).value;
    if ports.auditId.Some? && ports.anchorId.Some? {
      var auditRef := ports.auditId.value;
      DecisionMeaning(m, a, ports.now, auditRef);
      GuardMeaning(m);
      var decided := Deciding(a, Decision(m), ports.now, auditRef).value;
      var entry := AuditEntry(auditRef, PublicationSubject(m.publicationId), DecisionAction(Decision(m)), actor, ports.now, trace);
      var anchor := Anchor(ports.anchorId.value, scope, key, digest, PublicationRef(m.publicationId), ports.now, trace);
      WriteDecisionIff(c, m, decided, entry, anchor, faults);
      if WriteDecision(c, m, decided, entry, anchor, faults).Ok? {
        WriteDecisionShape(c, m, decided, entry, anchor, faults);
      }
    }
  }

  // ---------------------------------------------------------------- the two entry points

  /** The call adds the material's publication, decided as its references call for, its anchor, and one entry that tells it. */
  ghost predicate Decides(before: Committed, after: Committed, m: Material, anchor: Anchor, at: Timestamp, auditRef: Id) {
    && m.publicationId !in before.publications && Writes(before.publications, after.publications, m.publicationId)
    && DecidedBy(after.publications[m.publicationId], m.coreEventRef, m.payloadRef, at, auditRef)
    && after.publications[m.publicationId].publicationId == m.publicationId
    && Writes(before.materials, after.materials, m.publicationId) && after.materials[m.publicationId] == m
    && Writes(before.anchors, after.anchors, (anchor.scope, anchor.key)) && after.anchors[(anchor.scope, anchor.key)] == anchor
    && Lengthens(before.audits, after.audits) && ToldBy(after.audits[|before.audits|], m, at, auditRef)
  }

  /** Accepted when both references are as they should be; else refused for the first that is not. */
  ghost predicate Answers<T>(outcome: Result<T, ServiceError>, accepted: T, coreEventRef: Id, payloadRef: string, auditRef: Id) {
    && (outcome == Ok(accepted) <==> !IsBlank(coreEventRef) && IsReference(payloadRef))
    && (outcome == Err(ValidationError("validation.core_event_ref_missing", Some(auditRef))) <==> IsBlank(coreEventRef))
    && (outcome == Err(BoundaryError("boundary.payload_body_rejected", Some(auditRef))) <==>
          !IsBlank(coreEventRef) && !IsReference(payloadRef))
  }

  lemma PublicationRow(c: Committed, s: Staged, id: Id)
    requires s.publications.Keys == {id}
    ensures Writes(c.publications, Overlay(c, s).publications, id) && Overlay(c, s).publications[id] == s.publications[id]
  {
    hide Overlay;
    PublicationTables(c, s);
    KeyWritten(c.publications, s.publications, id);
  }

  lemma MaterialRow(c: Committed, s: Staged, id: Id)
    requires s.materials.Keys == {id}
    ensures Writes(c.materials, Overlay(c, s).materials, id) && Overlay(c, s).materials[id] == s.materials[id]
  {
    hide Overlay;
    PublicationTables(c, s);
    KeyWritten(c.materials, s.materials, id);
  }

  lemma AnchorRow(c: Committed, s: Staged, k: (Scope, Id))
    requires s.anchors.Keys == {k}
    ensures Writes(c.anchors, Overlay(c, s).anchors, k) && Overlay(c, s).anchors[k] == s.anchors[k]
  {
    hide Overlay;
    ReportTables(c, s);
    KeyWritten(c.anchors, s.anchors, k);
  }

  lemma EntryRow(c: Committed, s: Staged)
    requires |s.audits| == 1
    ensures Lengthens(c.audits, Overlay(c, s).audits) && Overlay(c, s).audits[|c.audits|] == s.audits[0]
  {
    hide Overlay;
    LogTables(c, s);
    EntryAppended(c.audits, s.audits);
  }

  lemma DecisionCommitted(c: Committed, s: Staged, m: Material, anchor: Anchor, at: Timestamp, auditRef: Id)
    requires m.publicationId !in c.publications && DecisionStaged(s, m, anchor, at, auditRef)
    ensures Decides(c, Overlay(c, s), m, anchor, at, auditRef)
  {
    hide DecidedBy, ToldBy, Overlay, Writes, Lengthens;
    PublicationRow(c, s, m.publicationId);
    MaterialRow(c, s, m.publicationId);
    AnchorRow(c, s, (anchor.scope, anchor.key));
    EntryRow(c, s);
  }

  lemma ConflictDecidesNothing(c: Committed, scope: Scope, key: Id, existing: Anchor, incoming: string, actor: Actor,
                               trace: Id, ports: Ports, faults: Faults)
    ensures After(c, RecordConflict<Ruling>(scope, key, existing, incoming, actor, trace, ports, faults).exit).publications ==
            c.publications
  {
    hide Overlay, RecordConflict;
    ConflictOutcome<Ruling>(scope, key, existing, incoming, actor, trace, ports, faults);
    var exit := RecordConflict<Ruling>(scope, key, existing, incoming, actor, trace, ports, faults).exit;
    if exit.Commits? {
      PublicationTables(c, exit.staged);
      NothingWritten(c.publications, exit.staged.publications);
    }
  }

  /** A new publication appears exactly when the request is new, its material is valid and nothing fails. */
  lemma RuleOutcome(c: Committed, material: Result<Material, DomainError>, scope: Scope, key: Id, digest: string, actor: Actor,
                    trace: Id, ports: Ports, faults: Faults)
    requires material.Ok? ==> !IsBlank(material.value.payloadRef) && material.value.actor == actor && material.value.trace == trace
    ensures var step := Rule(c, material, scope, key, digest, actor, trace, ports, faults);
      var after := After(c, step.exit);
      && (after.publications != c.publications <==>
            FindAnchor(c, scope, key) == None && material.Ok? && Undisturbed(c, material.value.publicationId, ports, faults))
      && (after.publications != c.publications ==>
            && Decides(c, after, material.value, AnchorFor(material.value, scope, key, digest, ports), ports.now, ports.auditId.value)
            && step.outcome == Ok(Ruling(material.value.publicationId,
                                         after.publications[material.value.publicationId].rejectReason, ports.auditId.value)))
  {
    hide Overlay, Decide, RecordConflict, DecidedBy, ToldBy, Undisturbed, IsBlank;
    match FindAnchor(c, scope, key) {
      case Some(a) => ConflictDecidesNothing(c, scope, key, a, digest, actor, trace, ports, faults);
      case None =>
        if material.Ok? {
          var m := material.value;
          DecideOutcome(c, m, scope, key, digest, actor, trace, ports, faults);
          var step := Decide(c, material, scope, key, digest, actor, trace, ports, faults);
          if step.exit.Commits? {
            StillNew(c, m.publicationId, ports, faults);
            DecisionCommitted(c, step.exit.staged, m, AnchorFor(m, scope, key, digest, ports), ports.now, ports.auditId.value);
            StagedCommitted(c, step.exit.staged, m.publicationId);
          }
        } else {
          RefusedQuietly(c, material, scope, key, digest, actor, trace, ports, faults);
        }
    }
  }

  lemma StillNew(c: Committed, id: Id, ports: Ports, faults: Faults)
    requires Undisturbed(c, id, ports, faults)
    ensures id !in c.publications && ports.auditId.Some? && ports.anchorId.Some?
  {
  }

  lemma StagedCommitted(c: Committed, s: Staged, id: Id)
    requires id in s.publications
    ensures id in Overlay(c, s).publications && Overlay(c, s).publications[id] == s.publications[id]
  {
  }

  lemma RefusedQuietly(c: Committed, material: Result<Material, DomainError>, scope: Scope, key: Id, digest: string, actor: Actor,
                       trace: Id, ports: Ports, faults: Faults)
    requires material.Err?
    ensures Decide(c, material, scope, key, digest, actor, trace, ports, faults).exit == NeverBegan
  {
  }

  lemma AnnouncedMeaning(id: Id, a: Acceptance, coreEventRef: Id, payloadRef: string, at: Timestamp, auditRef: Id)
    requires DecidedBy(a, coreEventRef, payloadRef, at, auditRef)
    ensures Answers(Announced(Ok(Ruling(id, a.rejectReason, auditRef))), Ruling(id, None, auditRef), coreEventRef, payloadRef, auditRef)
    ensures Answers(Relayed(false, Ok(Ruling(id, a.rejectReason, auditRef))), RelayReceipt(id, RelayAccepted, auditRef),
                    coreEventRef, payloadRef, auditRef)
  {
    hide IsReference, IsBlank;
  }

  /** The required fields of a command are present. */
  ghost predicate CommandFilled(m: PublicationCommand) {
    && !IsBlank(m.sourceSystem) && !IsBlank(m.sourceRecordRef) && !IsBlank(m.payloadRef) && !IsBlank(m.payloadDigest)
    && !IsBlank(m.projectId) && !IsBlank(m.topic)
  }

  ghost predicate FactFilled(f: OutboxFact) {
    && !IsBlank(f.sourceSystem) && !IsBlank(f.sourceRecordRef) && !IsBlank(f.envelopeRef) && !IsBlank(f.payloadRef)
    && !IsBlank(f.payloadDigest) && !IsBlank(f.projectId) && !IsBlank(f.topic)
  }

  function CommandMaterial(m: PublicationCommand, actor: Actor, trace: Id): Material {
    Material(PublicationId(m.sourceSystem, m.sourceRecordRef), m.sourceSystem, m.sourceRecordRef, m.coreEventRef, None,
             m.payloadRef, m.payloadDigest, m.projectId, m.topic, None, actor, trace)
  }

  function FactMaterial(f: OutboxFact, actor: Actor, trace: Id): Material {
    Material(PublicationId(f.sourceSystem, f.sourceRecordRef), f.sourceSystem, f.sourceRecordRef, f.coreEventRef,
             Some(f.envelopeRef), f.payloadRef, f.payloadDigest, f.projectId, f.topic, Some(f.factRef), actor, trace)
  }

  /** A command adds a publication exactly when it carries an unused key and its required fields, the publication is
      not stored yet and nothing fails. It is then stored as accepted exactly when its core event reference is not
      blank and its payload reference is a reference, else as rejected for the first of the two that fails, and
      the caller is told so. */
  lemma CommandDecided(c: Committed, m: PublicationCommand, key: Option<Id>, actor: Actor, trace: Id, ports: Ports, faults: Faults)
    ensures var step := Accept(c, m, key, actor, trace, ports, faults);
      var after, material := After(c, step.exit), CommandMaterial(m, actor, trace);
      && (after.publications != c.publications <==>
            && key.Some? && FindAnchor(c, AcceptScope(m), key.value) == None && CommandFilled(m)
            && Undisturbed(c, material.publicationId, ports, faults))
      && (after.publications != c.publications ==>
            && Decides(c, after, material, AnchorFor(material, AcceptScope(m), key.value, RequestDigest(m.canonical), ports), ports.now,
                       ports.auditId.value)
            && Answers(step.outcome, Ruling(material.publicationId, None, ports.auditId.value), m.coreEventRef, m.payloadRef,
                       ports.auditId.value))
  {
    hide Rule, After, DecidedBy, ToldBy, IsBlank, RequestDigest, Answers, PublicationId, Undisturbed, Announced, IsReference;
    if key.Some? {
      var material := MaterialFromCommand(m, actor, trace);
      var digest := RequestDigest(m.canonical);
      RuleOutcome(c, material, AcceptScope(m), key.value, digest, actor, trace, ports, faults);
      var step := Rule(c, material, AcceptScope(m), key.value, digest, actor, trace, ports, faults);
      var after := After(c, step.exit);
      if after.publications != c.publications {
        var id := material.value.publicationId;
        StillNew(c, id, ports, faults);
        AnnouncedMeaning(id, after.publications[id], m.coreEventRef, m.payloadRef, ports.now, ports.auditId.value);
      }
    } else {
      assert After(c, NeverBegan) == c by { NothingDone(c); }
    }
  }

  lemma NothingDone(c: Committed)
    ensures After(c, NeverBegan) == c
  {
  }

  /** The same for a committed outbox fact. */
  lemma FactDecided(c: Committed, f: OutboxFact, actor: Actor, trace: Id, ports: Ports, faults: Faults)
    ensures var step := AcceptFact(c, f, actor, trace, ports, faults);
      var after, material := After(c, step.exit), FactMaterial(f, actor, trace);
      && (after.publications != c.publications <==>
            && FindAnchor(c, FactScope(f), f.idempotencyKey) == None && FactFilled(f)
            && Undisturbed(c, material.publicationId, ports, faults))
      && (after.publications != c.publications ==>
            && Decides(c, after, material, AnchorFor(material, FactScope(f), f.idempotencyKey, RequestDigest(f.canonical), ports),
                       ports.now, ports.auditId.value)
            && Answers(step.outcome, RelayReceipt(material.publicationId, RelayAccepted, ports.auditId.value), f.coreEventRef,
                       f.payloadRef, ports.auditId.value))
  {
    hide Rule, After, DecidedBy, ToldBy, IsBlank, RequestDigest, Answers, PublicationId, Undisturbed, Relayed, IsReference;
    var material := MaterialFromFact(f, actor, trace);
    var digest := RequestDigest(f.canonical);
    RuleOutcome(c, material, FactScope(f), f.idempotencyKey, digest, actor, trace, ports, faults);
    var step := Rule(c, material, FactScope(f), f.idempotencyKey, digest, actor, trace, ports, faults);
    var after := After(c, step.exit);
    if after.publications != c.publications {
      var id := material.value.publicationId;
      StillNew(c, id, ports, faults);
      AnnouncedMeaning(id, after.publications[id], f.coreEventRef, f.payloadRef, ports.now, ports.auditId.value);
    }
  }
}
