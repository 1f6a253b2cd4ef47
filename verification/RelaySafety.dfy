/** When the relay acknowledges a fact: only once it is decided, but for one class of injected failure. */
module RelaySafety {
  import opened Common
  import opened Records
  import opened StoreModel
  import opened Steps
  import opened Digest
  import opened Jobs
  import opened Invariants
  import opened Runs
  import opened IdempotencySteps
  import opened IdempotentReplay
  import opened PublicationRules
  import opened PublicationSteps
  import opened PublicationOutcomes
  import opened OutboxSource
  import opened OutboxPaging
  import opened OutboxRelay
  import opened RelayTheorems

  // ---------------------------------------------------------------- what decides a fact

  /** The fact's key is bound to another request, and a committed conflict record says so. */
  ghost predicate KeyReused(c: Committed, f: OutboxFact) {
    var a := FindAnchor(c, FactScope(f), f.idempotencyKey);
    && a.Some? && a.value.digest != RequestDigest(f.canonical)
    && exists k | k in c.conflicts ::
         && k.scope == FactScope(f) && k.key == f.idempotencyKey
         && k.existingDigest == a.value.digest && k.incomingDigest == RequestDigest(f.canonical)
  }

  /** The fact's publication, or its material, is already stored. */
  ghost predicate AlreadyStored(c: Committed, f: OutboxFact) {
    var id := PublicationId(f.sourceSystem, f.sourceRecordRef);
    id in c.publications || id in c.materials
  }

  /** The fact is bound, lacks a required field, reuses a key, or is already stored. */
  ghost predicate Decided(c: Committed, f: OutboxFact) {
    Consumed(c, f) || !FactFilled(f) || KeyReused(c, f) || AlreadyStored(c, f)
  }

  /** A failure of the audit log that reads as a conflict of the fact itself. */
  predicate LooksLikeConflict(e: RepositoryError) {
    e == VersionConflict || e == UniqueViolation || e == SequenceConflict
  }

  /** An armed append failure that looks like a conflict has been used up. */
  ghost predicate Mistaken(before: Faults, after: Faults) {
    before.append.Some? && LooksLikeConflict(before.append.value) && after.append.None?
  }

  // ---------------------------------------------------------------- how consuming a fact ends

  lemma ErrorsSettle(e: RepositoryError, u: UnitOfWorkError)
    ensures Settled(Err(FromRepository(e))) <==> LooksLikeConflict(e)
    ensures !Settled(Err(FromUnitOfWork(u))) && !Settled(Err(IdsExhausted))
  {
  }

  /** Passing an outcome on keeps whether it is settled; a ruling is settled either way. */
  lemma RelayedSettles(repeats: bool, r: Result<Ruling, ServiceError>)
    ensures Settled(PublicationSteps.Relayed(repeats, r)) <==> r.Ok? || r.error.IsRejectedItem()
  {
  }

  /** The conflict of a reused key is settled by its commit, or by an append failure that looks like one. */
  lemma ConflictSettles(c: Committed, f: OutboxFact, a: Anchor, actor: Actor, trace: Id, ports: Ports, faults: Faults)
    requires FindAnchor(c, FactScope(f), f.idempotencyKey) == Some(a) && a.digest != RequestDigest(f.canonical)
    ensures var step := RecordConflict<Ruling>(FactScope(f), f.idempotencyKey, a, RequestDigest(f.canonical), actor, trace, ports, faults);
      Settled(PublicationSteps.Relayed(true, step.outcome)) ==> KeyReused(After(c, step.exit), f) || Mistaken(faults, step.faults)
  {
    hide RequestDigest, FactScope, Overlay, RecordConflict, KeyReused;
    var step := RecordConflict<Ruling>(FactScope(f), f.idempotencyKey, a, RequestDigest(f.canonical), actor, trace, ports, faults);
    ConflictOutcome<Ruling>(FactScope(f), f.idempotencyKey, a, RequestDigest(f.canonical), actor, trace, ports, faults);
    if step.exit.Commits? {
      ConflictOnRecord(c, step.exit.staged, f, a, ports.now, trace);
    } else {
      ConflictStopped(f, a, actor, trace, ports, faults);
    }
  }

  lemma ConflictOnRecord(c: Committed, s: Staged, f: OutboxFact, a: Anchor, now: Timestamp, trace: Id)
    requires FindAnchor(c, FactScope(f), f.idempotencyKey) == Some(a) && a.digest != RequestDigest(f.canonical)
    requires s.anchors == map[]
    requires s.conflicts == [Conflict(FactScope(f), f.idempotencyKey, a.digest, RequestDigest(f.canonical), now, trace)]
    ensures KeyReused(Overlay(c, s), f)
  {
    hide RequestDigest, FactScope, Overlay;
    ReportTables(c, s);
    LogTables(c, s);
    var k := s.conflicts[0];
    assert k in c.conflicts + s.conflicts;
  }

  lemma ConflictStopped(f: OutboxFact, a: Anchor, actor: Actor, trace: Id, ports: Ports, faults: Faults)
    ensures var step := RecordConflict<Ruling>(FactScope(f), f.idempotencyKey, a, RequestDigest(f.canonical), actor, trace, ports, faults);
      !step.exit.Commits? && Settled(PublicationSteps.Relayed(true, step.outcome)) ==> Mistaken(faults, step.faults)
  {
    hide RequestDigest, FactScope;
  }

  /** Nothing in the store or the fact stands against accepting it. */
  ghost predicate NewAndValid(c: Committed, f: OutboxFact) {
    FindAnchor(c, FactScope(f), f.idempotencyKey) == None && FactFilled(f) && !AlreadyStored(c, f)
  }

  /** An identifier is missing, the append fails for good, or the commit fails. */
  ghost predicate Obstructed(ports: Ports, faults: Faults) {
    || ports.auditId.None? || ports.anchorId.None?
    || (faults.append.Some? && !LooksLikeConflict(faults.append.value))
    || (faults.append.None? && faults.commit.Some?)
  }

  /** Deciding a new publication: what stops it and how that is reported. */
  lemma DecideFate(c: Committed, m: Material, scope: Scope, key: Id, digest: string, actor: Actor, trace: Id, ports: Ports, faults: Faults)
    requires !IsBlank(m.payloadRef) && FindAnchor(c, scope, key) == None && m.actor == actor && m.trace == trace
    requires m.publicationId !in c.publications && m.publicationId !in c.materials
    ensures var step := Decide(c, Ok(m), scope, key, digest, actor, trace, ports, faults);
      && (Settled(PublicationSteps.Relayed(false, step.outcome)) <==> !Obstructed(ports, faults))
      && !step.exit.Appends? && (step.exit.Commits? <==> !Obstructed(ports, faults) && faults.append.None?)
      && (!step.exit.Commits? ==> Obstructed(ports, faults) || Mistaken(faults, step.faults))
  {
    hide WriteDecision, Deciding, RulingOf, RejectsBody, IsReference, IsBlank, Decision, DecisionAction, PublicationSteps.Relayed;
    DecideOutcome(c, m, scope, key, digest, actor, trace, ports, faults);
    var a := StartPending(m).value;
    if ports.auditId.Some? {
      DecisionMeaning(m, a, ports.now, ports.auditId.value);
    }
    if ports.auditId.Some? && ports.anchorId.Some? {
      var decided := Deciding(a, Decision(m), ports.now, ports.auditId.value).value;
      var entry := AuditEntry(ports.auditId.value, PublicationSubject(m.publicationId), DecisionAction(Decision(m)), actor, ports.now, trace);
      var anchor := Anchor(ports.anchorId.value, scope, key, digest, PublicationRef(m.publicationId), ports.now, trace);
      WriteDecisionStopped(c, m, decided, entry, anchor, faults);
    }
    RelayedSettles(false, Decide(c, Ok(m), scope, key, digest, actor, trace, ports, faults).outcome);
    if faults.append.Some? {
      ErrorsSettle(faults.append.value, BeginFailed);
    }
    if faults.commit.Some? {
      ErrorsSettle(Unavailable, faults.commit.value);
    }
  }

  lemma WriteDecisionStopped(c: Committed, m: Material, decided: Acceptance, entry: AuditEntry, anchor: Anchor, faults: Faults)
    requires decided.publicationId == m.publicationId && m.publicationId !in c.publications && m.publicationId !in c.materials
    requires (anchor.scope, anchor.key) !in c.anchors
    ensures if faults.append.Some? then WriteDecision(c, m, decided, entry, anchor, faults) == Err(AppendFault(faults.append.value))
            else WriteDecision(c, m, decided, entry, anchor, faults).Ok?
  {
  }

  lemma FactMaterials(f: OutboxFact, actor: Actor, trace: Id)
    ensures MaterialFromFact(f, actor, trace).Ok? <==> FactFilled(f)
    ensures FactFilled(f) ==> MaterialFromFact(f, actor, trace) == Ok(FactMaterial(f, actor, trace)) && !IsBlank(f.payloadRef)
  {
    hide IsBlank;
  }

  /** Consuming a fact is the ruling on its material. */
  lemma FactRuling(c: Committed, f: OutboxFact, actor: Actor, trace: Id, ports: Ports, faults: Faults)
    ensures var ruled := Rule(c, MaterialFromFact(f, actor, trace), FactScope(f), f.idempotencyKey, RequestDigest(f.canonical), actor,
                              trace, ports, faults);
      var step := AcceptFact(c, f, actor, trace, ports, faults);
      && step.exit == ruled.exit && step.faults == ruled.faults
      && step.outcome == PublicationSteps.Relayed(FindAnchor(c, FactScope(f), f.idempotencyKey).Some?, ruled.outcome)
  {
    hide Rule, RequestDigest, FactScope, PublicationSteps.Relayed, MaterialFromFact;
  }

  /** A new and valid fact is settled exactly when nothing obstructs it. Obstructed, it leaves the bus as it was;
      otherwise it is bound, unless an append failure that looks like a conflict was armed: then it is not. */
  lemma NewFactFate(c: Committed, f: OutboxFact, actor: Actor, trace: Id, ports: Ports, faults: Faults)
    requires NewAndValid(c, f)
    ensures var step := AcceptFact(c, f, actor, trace, ports, faults);
      && (Settled(step.outcome) <==> !Obstructed(ports, faults))
      && (Obstructed(ports, faults) ==> After(c, step.exit) == c)
      && (!Obstructed(ports, faults) ==>
            if faults.append.None? then Consumed(After(c, step.exit), f)
            else Mistaken(faults, step.faults) && After(c, step.exit) == c)
  {
    hide Decide, RequestDigest, FactScope, Overlay, PublicationSteps.Relayed, IsBlank, Obstructed, Settled, FactFilled, PublicationId;
    FactMaterials(f, actor, trace);
    FactRuling(c, f, actor, trace, ports, faults);
    var m := FactMaterial(f, actor, trace);
    DecideFate(c, m, FactScope(f), f.idempotencyKey, RequestDigest(f.canonical), actor, trace, ports, faults);
    if AcceptFact(c, f, actor, trace, ports, faults).exit.Commits? {
      CommittedIsConsumed(c, f, actor, trace, ports, faults);
    }
  }

  lemma CommittedIsConsumed(c: Committed, f: OutboxFact, actor: Actor, trace: Id, ports: Ports, faults: Faults)
    requires FindAnchor(c, FactScope(f), f.idempotencyKey) == None
    requires AcceptFact(c, f, actor, trace, ports, faults).exit.Commits?
    ensures Consumed(After(c, AcceptFact(c, f, actor, trace, ports, faults).exit), f)
  {
    hide Rule, RequestDigest, FactScope, Overlay;
    RuleRulesOn(c, MaterialFromFact(f, actor, trace), FactScope(f), f.idempotencyKey, RequestDigest(f.canonical), actor, trace, ports, faults);
  }

  /** A fact whose publication is stored is refused without a change. */
  lemma StoredStaysStored(c: Committed, f: OutboxFact, actor: Actor, trace: Id, ports: Ports, faults: Faults)
    requires FindAnchor(c, FactScope(f), f.idempotencyKey) == None && FactFilled(f) && AlreadyStored(c, f)
    ensures After(c, AcceptFact(c, f, actor, trace, ports, faults).exit) == c
  {
    hide Decide, RequestDigest, FactScope, Overlay, PublicationSteps.Relayed, IsBlank, FactFilled, PublicationId;
    FactMaterials(f, actor, trace);
    FactRuling(c, f, actor, trace, ports, faults);
    DecideOutcome(c, FactMaterial(f, actor, trace), FactScope(f), f.idempotencyKey, RequestDigest(f.canonical), actor, trace, ports, faults);
  }

  /** A fact is settled only once it is decided, or by an append failure that looks like a conflict. */
  lemma SettledOnlyIfDecided(c: Committed, f: OutboxFact, actor: Actor, trace: Id, ports: Ports, faults: Faults)
    requires Settled(AcceptFact(c, f, actor, trace, ports, faults).outcome)
    ensures var step := AcceptFact(c, f, actor, trace, ports, faults);
      Decided(After(c, step.exit), f) || Mistaken(faults, step.faults)
  {
    hide AcceptFact, RequestDigest, FactScope, Overlay, Settled, FactFilled, AlreadyStored, KeyReused, Mistaken, RecordConflict, Decide;
    match FindAnchor(c, FactScope(f), f.idempotencyKey) {
      case Some(a) =>
        FactRuling(c, f, actor, trace, ports, faults);
        if a.digest != RequestDigest(f.canonical) {
          ConflictSettles(c, f, a, actor, trace, ports, faults);
        }
      case None =>
        if FactFilled(f) && AlreadyStored(c, f) {
          StoredStaysStored(c, f, actor, trace, ports, faults);
        } else if FactFilled(f) {
          NewFactFate(c, f, actor, trace, ports, faults);
        }
    }
  }

  // ---------------------------------------------------------------- one fact of a page

  lemma ConflictsGrow(c: Committed, exit: Exit)
    ensures c.conflicts <= After(c, exit).conflicts
  {
    hide Overlay;
    if exit.Commits? {
      LogTables(c, exit.staged);
    }
  }

  lemma DecidedStays(before: Committed, after: Committed, f: OutboxFact)
    requires Decided(before, f) && Follows(before, after) && before.conflicts <= after.conflicts
    ensures Decided(after, f)
  {
    hide RequestDigest, FactScope, DeliveriesEvolve, PlansAdvance, FactFilled, PublicationId;
    if KeyReused(before, f) {
      assert FindAnchor(after, FactScope(f), f.idempotencyKey) == FindAnchor(before, FactScope(f), f.idempotencyKey);
    }
  }

  /** Armed failures are only ever used up. */
  lemma FaultsUsedUp(c: Committed, f: OutboxFact, actor: Actor, trace: Id, ports: Ports, faults: Faults)
    ensures AcceptFact(c, f, actor, trace, ports, faults).faults.append in {None, faults.append}
  {
    hide RequestDigest, FactScope, DecideBody, ConflictBody;
  }

  lemma RelayOneFate(before: Progress, fact: OutboxFact, job: RelayJob, i: nat)
    requires Inv(before.st.committed)
    ensures var after := RelayOne(before, fact, job, i);
      && Inv(after.st.committed) && Follows(before.st.committed, after.st.committed)
      && before.st.committed.conflicts <= after.st.committed.conflicts
      && |after.items| == |before.items| + 1 && before.items == after.items[..|before.items|]
      && after.st.faults.append in {None, before.st.faults.append}
      && (after.items[|before.items|] != FailedItem ==>
            Decided(after.st.committed, fact) || Mistaken(before.st.faults, after.st.faults))
  {
    hide AcceptFact, Inv, Follows, After, Decided, Mistaken, Settled;
    ConsumeKeeps(before, fact, job, i);
    ConflictsGrow(before.st.committed, Consume(before, fact, job, i).exit);
    FaultsUsedUp(before.st.committed, fact, job.actor, job.trace, job.ports(i), before.st.faults);
    if Settled(Consume(before, fact, job, i).outcome) {
      SettledOnlyIfDecided(before.st.committed, fact, job.actor, job.trace, job.ports(i), before.st.faults);
    }
  }

  /** What a page leaves behind on the bus. */
  ghost predicate Carried(begin: Progress, after: Progress, n: nat) {
    && Inv(after.st.committed) && Follows(begin.st.committed, after.st.committed)
    && begin.st.committed.conflicts <= after.st.committed.conflicts
    && |after.items| == |begin.items| + n && after.st.faults.append in {None, begin.st.faults.append}
  }

  lemma {:induction false} PageCarries(begin: Progress, page: seq<OutboxFact>, job: RelayJob)
    requires Inv(begin.st.committed)
    ensures Carried(begin, Relay(begin, page, job), |page|)
    decreases |page|
  {
    hide RelayOne, Inv, Follows;
    if page == [] {
      FollowsReflexive(begin.st.committed);
    } else {
      var n := |page| - 1;
      PageCarries(begin, page[..n], job);
      var before := Relay(begin, page[..n], job);
      RelayOneFate(before, page[n], job, n);
      FollowsTransitive(begin.st.committed, before.st.committed, Relay(begin, page, job).st.committed);
    }
  }

  /** Handling the k-th fact of the page used up an append failure that looks like a conflict. */
  ghost predicate MistakenAt(begin: Progress, page: seq<OutboxFact>, job: RelayJob, k: nat)
    requires k < |page|
  {
    Mistaken(Relay(begin, page[..k], job).st.faults, Relay(begin, page[..k + 1], job).st.faults)
  }

  /** Every item that did not fail stands for a decided fact, unless its append was mistaken. */
  lemma {:induction false} ItemsDecided(begin: Progress, page: seq<OutboxFact>, job: RelayJob, k: nat)
    requires Inv(begin.st.committed) && begin.items == [] && k < |page|
    ensures var after := Relay(begin, page, job);
      && |after.items| == |page|
      && (after.items[k] != FailedItem ==> Decided(after.st.committed, page[k]) || MistakenAt(begin, page, job, k))
    decreases |page|
  {
    hide RelayOne, Inv, Follows, Decided, Mistaken;
    var n := |page| - 1;
    PageCarries(begin, page[..n], job);
    var before, after := Relay(begin, page[..n], job), Relay(begin, page, job);
    RelayOneFate(before, page[n], job, n);
    if k == n {
      assert page[..n + 1] == page;
    } else {
      ItemsDecided(begin, page[..n], job, k);
      assert page[..n][..k] == page[..k] && page[..n][..k + 1] == page[..k + 1];
      assert after.items[k] == before.items[k];
      if Decided(before.st.committed, page[k]) {
        DecidedStays(before.st.committed, after.st.committed, page[k]);
      }
    }
  }

  // ---------------------------------------------------------------- items and markers

  /** Marking one reference leaves the facts under other references alone. */
  lemma {:induction false} AcknowledgedOther(facts: seq<StoredFact>, factRef: Id, marker: Id)
    ensures |Acknowledged(facts, factRef, marker)| == |facts|
    ensures forall i | 0 <= i < |facts| ::
      && Acknowledged(facts, factRef, marker)[i].fact == facts[i].fact
      && Acknowledged(facts, factRef, marker)[i].cursor == facts[i].cursor
      && (facts[i].fact.factRef != factRef ==> Acknowledged(facts, factRef, marker)[i] == facts[i])
  {
    if facts != [] && facts[0].fact.factRef != factRef {
      AcknowledgedOther(facts[1..], factRef, marker);
    }
  }

  /** The facts stay the same but for markers, and one whose reference is not in the page stays altogether. */
  lemma {:induction false} OutsidePage(begin: Progress, page: seq<OutboxFact>, job: RelayJob, i: nat)
    requires i < |begin.facts|
    ensures var after := Relay(begin, page, job).facts;
      && |after| == |begin.facts| && Grown(begin.facts, after)
      && ((forall k | 0 <= k < |page| :: page[k].factRef != begin.facts[i].fact.factRef) ==> after[i] == begin.facts[i])
    decreases |page|
  {
    hide AcceptFact, Acknowledged, Settled;
    if page != [] {
      var n := |page| - 1;
      OutsidePage(begin, page[..n], job, i);
      AcknowledgedOther(Relay(begin, page[..n], job).facts, page[n].factRef, MARKER);
      assert forall k | 0 <= k < n :: page[..n][k] == page[k];
    }
  }

  lemma {:induction false} ItemsCounted(begin: Progress, page: seq<OutboxFact>, job: RelayJob)
    ensures |Relay(begin, page, job).items| == |begin.items| + |page|
    decreases |page|
  {
    hide AcceptFact, Acknowledged, Settled;
    if page != [] {
      ItemsCounted(begin, page[..|page| - 1], job);
    }
  }

  /** A pending fact of the page ends marked exactly when its item has not failed. */
  lemma {:induction false} MarkedIffNotFailed(begin: Progress, page: seq<OutboxFact>, job: RelayJob, k: nat, i: nat)
    requires Catalogued(begin.facts) && begin.items == [] && i < |begin.facts| && begin.facts[i].marker.None?
    requires k < |page| && page[k].factRef == begin.facts[i].fact.factRef
    requires forall j | 0 <= j < |page| && j != k :: page[j].factRef != page[k].factRef
    ensures var after := Relay(begin, page, job);
      && |after.items| == |page| && |after.facts| == |begin.facts|
      && (after.facts[i].marker.Some? <==> after.items[k] != FailedItem)
    decreases |page|
  {
    hide RelayOne, Relay, Acknowledged;
    var n := |page| - 1;
    var before, after := Relay(begin, page[..n], job), Relay(begin, page, job);
    OneFactMore(begin, page, job, n);
    assert page[..n + 1] == page;
    ItemsCounted(begin, page[..n], job);
    OutsidePage(begin, page[..n], job, i);
    assert forall j | 0 <= j < n :: page[..n][j] == page[j];
    if k == n {
      assert Lists(before.facts, page[n].factRef);
      var item := RelayOneShape(before, page[n], job, n);
      CataloguedStays(begin.facts, before.facts);
      AcknowledgedAt(before.facts, i, MARKER);
    } else {
      MarkedIffNotFailed(begin, page[..n], job, k, i);
      LastFactLeaves(before, page[n], job, n, i, k);
    }
  }

  lemma LastFactLeaves(before: Progress, fact: OutboxFact, job: RelayJob, n: nat, i: nat, k: nat)
    requires i < |before.facts| && before.facts[i].fact.factRef != fact.factRef && k < |before.items|
    ensures var after := RelayOne(before, fact, job, n);
      && |after.facts| == |before.facts| && after.facts[i] == before.facts[i]
      && |after.items| == |before.items| + 1 && after.items[k] == before.items[k]
  {
    hide AcceptFact, Acknowledged, Settled;
    AcknowledgedOther(before.facts, fact.factRef, MARKER);
  }

  // ---------------------------------------------------------------- polled pages

  lemma {:induction false} PendingAt(facts: seq<StoredFact>, k: nat) returns (i: nat)
    requires k < |Unacknowledged(facts)|
    ensures i < |facts| && facts[i].fact == Unacknowledged(facts)[k] && facts[i].marker.None?
    ensures forall j | 0 <= j < k :: exists h | 0 <= h < i :: facts[h].fact == Unacknowledged(facts)[j]
    decreases |facts|
  {
    var n := |facts| - 1;
    var front := Unacknowledged(facts[..n]);
    if k < |front| {
      i := PendingAt(facts[..n], k);
    } else {
      i := n;
      forall j | 0 <= j < k ensures exists h | 0 <= h < n :: facts[h].fact == Unacknowledged(facts)[j] {
        var h := PendingAt(facts[..n], j);
        assert facts[h].fact == Unacknowledged(facts)[j];
      }
    }
  }

  /** A pending fact of the window is on the page. */
  lemma {:induction false} PendingIsPolled(facts: seq<StoredFact>, i: nat) returns (k: nat)
    requires i < |facts| && facts[i].marker.None?
    ensures k < |Unacknowledged(facts)| && Unacknowledged(facts)[k] == facts[i].fact
    decreases |facts|
  {
    var n := |facts| - 1;
    if i == n {
      k := |Unacknowledged(facts[..n])|;
    } else {
      k := PendingIsPolled(facts[..n], i);
    }
  }

  /** Pending facts under distinct references stay distinct. */
  lemma PendingDistinct(facts: seq<StoredFact>, j: nat, k: nat)
    requires Catalogued(facts) && j < k < |Unacknowledged(facts)|
    ensures Unacknowledged(facts)[j].factRef != Unacknowledged(facts)[k].factRef
  {
    hide Unacknowledged;
    var i := PendingAt(facts, k);
    var h :| 0 <= h < i && facts[h].fact == Unacknowledged(facts)[j];
    assert facts[h].fact.factRef != facts[i].fact.factRef;
  }

  lemma WindowCatalogued(facts: seq<StoredFact>, start: nat, end: nat)
    requires Catalogued(facts) && start <= end <= |facts|
    ensures Catalogued(facts[start..end])
  {
  }

  /** Each fact of a polled page is stored, pending, once. */
  lemma PolledOnce(facts: seq<StoredFact>, cursor: string, limit: nat, k: nat) returns (i: nat)
    requires Catalogued(facts) && Poll(facts, cursor, limit).Ok? && k < |Poll(facts, cursor, limit).value.items|
    ensures i < |facts| && facts[i].fact == Poll(facts, cursor, limit).value.items[k] && facts[i].marker.None?
    ensures var items := Poll(facts, cursor, limit).value.items;
      forall j | 0 <= j < |items| && j != k :: items[j].factRef != items[k].factRef
  {
    hide Unacknowledged, Catalogued;
    var start, end := PolledWindow(facts, cursor, limit);
    var window, items := facts[start..end], Poll(facts, cursor, limit).value.items;
    WindowCatalogued(facts, start, end);
    var h := PendingAt(window, k);
    i := start + h;
    forall j | 0 <= j < |items| && j != k ensures items[j].factRef != items[k].factRef {
      if j < k {
        PendingDistinct(window, j, k);
      } else {
        PendingDistinct(window, k, j);
      }
    }
  }

  // ---------------------------------------------------------------- what an acknowledgement means

  /** The fact was not acknowledged before and is after. */
  ghost predicate NewlyMarked(before: seq<StoredFact>, after: seq<StoredFact>, i: nat) {
    i < |before| && i < |after| && before[i].marker.None? && after[i].marker.Some?
  }

  /** A fact that becomes acknowledged was on the page and its item did not fail. */
  lemma MarkedWasPolled(begin: Progress, cursor: string, limit: nat, job: RelayJob, i: nat) returns (k: nat)
    requires Catalogued(begin.facts) && begin.items == [] && Poll(begin.facts, cursor, limit).Ok?
    requires NewlyMarked(begin.facts, Relay(begin, Poll(begin.facts, cursor, limit).value.items, job).facts, i)
    ensures var page := Poll(begin.facts, cursor, limit).value.items;
      var after := Relay(begin, page, job);
      k < |page| && page[k] == begin.facts[i].fact && |after.items| == |page| && after.items[k] != FailedItem
  {
    hide Relay, Poll;
    var page := Poll(begin.facts, cursor, limit).value.items;
    OutsidePage(begin, page, job, i);
    k :| 0 <= k < |page| && page[k].factRef == begin.facts[i].fact.factRef;
    var h := PolledOnce(begin.facts, cursor, limit, k);
    assert h == i;
    MarkedIffNotFailed(begin, page, job, k, i);
  }

  /** Whatever the page, the ports and the failures: a fact becomes acknowledged only if after the run it is bound on the
      bus, lacks a required field, reuses a key with the conflict committed, or is already stored; the only
      exception is a fact whose handling used up an append failure that looks like a conflict. */
  lemma AcknowledgedOnlyIfDecided(begin: Progress, cursor: string, limit: nat, job: RelayJob, i: nat) returns (k: nat)
    requires Inv(begin.st.committed) && Catalogued(begin.facts) && begin.items == [] && Poll(begin.facts, cursor, limit).Ok?
    requires NewlyMarked(begin.facts, Relay(begin, Poll(begin.facts, cursor, limit).value.items, job).facts, i)
    ensures var page := Poll(begin.facts, cursor, limit).value.items;
      && k < |page| && page[k] == begin.facts[i].fact
      && (Decided(Relay(begin, page, job).st.committed, begin.facts[i].fact) || MistakenAt(begin, page, job, k))
  {
    hide Relay, Poll, Inv, Decided, MistakenAt;
    k := MarkedWasPolled(begin, cursor, limit, job, i);
    ItemsDecided(begin, Poll(begin.facts, cursor, limit).value.items, job, k);
  }

  /** There is at most one exception, because a failure is armed once, and none unless it was armed. */
  lemma MistakenOnce(begin: Progress, page: seq<OutboxFact>, job: RelayJob, j: nat, k: nat)
    requires Inv(begin.st.committed) && j < k < |page| && MistakenAt(begin, page, job, j)
    ensures !MistakenAt(begin, page, job, k)
    ensures begin.st.faults.append.Some? && LooksLikeConflict(begin.st.faults.append.value)
  {
    hide Relay, Inv, Follows;
    PageCarries(begin, page[..j], job);
    FaultsShrink(begin, page, job, j + 1, k);
  }

  lemma {:induction false} FaultsShrink(begin: Progress, page: seq<OutboxFact>, job: RelayJob, j: nat, k: nat)
    requires Inv(begin.st.committed) && j <= k <= |page|
    ensures Relay(begin, page[..k], job).st.faults.append in {None, Relay(begin, page[..j], job).st.faults.append}
    decreases k
  {
    hide Relay, RelayOne, Inv, Follows, Decided, Mistaken;
    if j < k {
      FaultsShrink(begin, page, job, j, k - 1);
      PageCarries(begin, page[..k - 1], job);
      OneFactMore(begin, page, job, k - 1);
      RelayOneFate(Relay(begin, page[..k - 1], job), page[k - 1], job, k - 1);
    }
  }

  // ---------------------------------------------------------------- facts that must come again

  /** One new and valid fact: acknowledged exactly when nothing obstructs its acceptance and the acknowledgement works. */
  lemma NewFactItem(before: Progress, fact: OutboxFact, job: RelayJob, i: nat)
    requires NewAndValid(before.st.committed, fact) && Lists(before.facts, fact.factRef)
    ensures var after := RelayOne(before, fact, job, i);
      && |after.items| == |before.items| + 1
      && (after.items[|before.items|] != FailedItem <==>
            !Obstructed(job.ports(i), before.st.faults) && before.armed.None? && job.ackFailures(i).None?)
      && (Obstructed(job.ports(i), before.st.faults) ==> after.st.committed == before.st.committed && after.facts == before.facts)
  {
    hide AcceptFact, Acknowledged, Settled, After, Obstructed, NewAndValid;
    NewFactFate(before.st.committed, fact, job.actor, job.trace, job.ports(i), before.st.faults);
  }

  /** A fact that is new and valid when its turn comes and meets a missing identifier, a lasting append failure or a commit
      failure fails its item, leaves the bus as it found it, stays unacknowledged, and holds the cursor back. */
  lemma ObstructedFactsComeAgain(begin: Progress, cursor: string, limit: nat, job: RelayJob, k: nat) returns (i: nat)
    requires Catalogued(begin.facts) && begin.items == [] && Poll(begin.facts, cursor, limit).Ok?
    requires k < |Poll(begin.facts, cursor, limit).value.items|
    requires var page := Poll(begin.facts, cursor, limit).value.items;
      var before := Relay(begin, page[..k], job);
      NewAndValid(before.st.committed, page[k]) && Obstructed(job.ports(k), before.st.faults)
    ensures var page := Poll(begin.facts, cursor, limit).value;
      var after := Relay(begin, page.items, job);
      && i < |begin.facts| && i < |after.facts| && begin.facts[i].fact == page.items[k] && after.facts[i].marker == None
      && k < |after.items| && after.items[k] == FailedItem
      && NextCursor(cursor, page, after.items) == cursor
      && Relay(begin, page.items[..k + 1], job).st.committed == Relay(begin, page.items[..k], job).st.committed
  {
    hide Relay, RelayOne, Poll, NewAndValid, Obstructed;
    var page := Poll(begin.facts, cursor, limit).value.items;
    i := PolledOnce(begin.facts, cursor, limit, k);
    var before := Relay(begin, page[..k], job);
    OutsidePage(begin, page[..k], job, i);
    assert Lists(before.facts, page[k].factRef);
    NewFactItem(before, page[k], job, k);
    OneFactMore(begin, page, job, k);
    ItemsCounted(begin, page[..k], job);
    ItemStays(begin, page, job, k);
    MarkedIffNotFailed(begin, page, job, k, i);
  }

  /** Later facts leave the items of earlier ones as they are. */
  lemma {:induction false} ItemStays(begin: Progress, page: seq<OutboxFact>, job: RelayJob, k: nat)
    requires k < |page| && begin.items == []
    ensures k < |Relay(begin, page, job).items| && k < |Relay(begin, page[..k + 1], job).items|
    ensures Relay(begin, page, job).items[k] == Relay(begin, page[..k + 1], job).items[k]
    decreases |page|
  {
    hide AcceptFact, Acknowledged, Settled, Relay;
    var n := |page| - 1;
    ItemsCounted(begin, page, job);
    ItemsCounted(begin, page[..k + 1], job);
    if k == n {
      assert page[..k + 1] == page;
    } else {
      ItemStays(begin, page[..n], job, k);
      assert page[..n][..k + 1] == page[..k + 1] && page[..n + 1] == page;
      OneFactMore(begin, page, job, n);
      ItemsCounted(begin, page[..n], job);
    }
  }

  // ---------------------------------------------------------------- run after run

  /** Without an append failure that looks like a conflict, every fact acknowledged by any number of runs, failing in
      any other way, is decided. */
  lemma {:induction false} RunsAcknowledgeDecided(s: Standing, rounds: seq<Round>, i: nat)
    requires Inv(s.st.committed) && Catalogued(s.facts)
    requires s.st.faults.append.Some? ==> !LooksLikeConflict(s.st.faults.append.value)
    requires i < |s.facts| && s.facts[i].marker.None?
    ensures var end := RunAll(s, rounds);
      && Inv(end.st.committed) && Catalogued(end.facts) && end.st.faults.append in {None, s.st.faults.append}
      && i < |end.facts| && end.facts[i].fact == s.facts[i].fact
      && (end.facts[i].marker.Some? ==> Decided(end.st.committed, s.facts[i].fact))
    decreases |rounds|
  {
    hide Relay, Poll, Inv, Follows, Decided, Catalogued;
    if rounds != [] {
      var before, r := RunAll(s, rounds[..|rounds| - 1]), rounds[|rounds| - 1];
      RunsAcknowledgeDecided(s, rounds[..|rounds| - 1], i);
      RunAcknowledgesDecided(before, r, i);
    }
  }

  lemma RunAcknowledgesDecided(s: Standing, r: Round, i: nat)
    requires Inv(s.st.committed) && Catalogued(s.facts) && i < |s.facts|
    requires s.st.faults.append.Some? ==> !LooksLikeConflict(s.st.faults.append.value)
    requires s.facts[i].marker.Some? ==> Decided(s.st.committed, s.facts[i].fact)
    ensures var end := RunOnce(s, r);
      && Inv(end.st.committed) && Catalogued(end.facts) && end.st.faults.append in {None, s.st.faults.append}
      && i < |end.facts| && end.facts[i].fact == s.facts[i].fact
      && (end.facts[i].marker.Some? ==> Decided(end.st.committed, s.facts[i].fact))
  {
    hide Relay, Poll, Inv, Follows, Decided;
    if Poll(s.facts, s.cursor, r.limit).Ok? {
      var page := Poll(s.facts, s.cursor, r.limit).value.items;
      PageCarries(Begin(s), page, r.job);
      OutsidePage(Begin(s), page, r.job, i);
      CataloguedStays(s.facts, Relay(Begin(s), page, r.job).facts);
      if s.facts[i].marker.Some? {
        DecidedStays(s.st.committed, Relay(Begin(s), page, r.job).st.committed, s.facts[i].fact);
      } else if RunOnce(s, r).facts[i].marker.Some? {
        var k := AcknowledgedOnlyIfDecided(Begin(s), s.cursor, r.limit, r.job, i);
        PageCarries(Begin(s), page[..k], r.job);
      }
    }
  }

  // ---------------------------------------------------------------- exactly which items fail

  /** Nothing outside the bus stands against committing: no failure armed but an append failure that looks like a conflict. */
  ghost predicate Passable(faults: Faults) {
    if faults.append.Some? then LooksLikeConflict(faults.append.value) else faults.commit.None?
  }

  /** The bus can give a definite answer: it has decided the request before, or can refuse or decide it now. */
  ghost predicate Answerable(c: Committed, f: OutboxFact, ports: Ports, faults: Faults) {
    match FindAnchor(c, FactScope(f), f.idempotencyKey)
    case Some(a) => a.digest == RequestDigest(f.canonical) || (ports.auditId.Some? && Passable(faults))
    case None =>
      !FactFilled(f) || (ports.auditId.Some? && ports.anchorId.Some? && (AlreadyStored(c, f) || Passable(faults)))
  }

  lemma ReuseSettlesIff(f: OutboxFact, a: Anchor, actor: Actor, trace: Id, ports: Ports, faults: Faults)
    ensures var step := RecordConflict<Ruling>(FactScope(f), f.idempotencyKey, a, RequestDigest(f.canonical), actor, trace, ports, faults);
      Settled(PublicationSteps.Relayed(true, step.outcome)) <==> ports.auditId.Some? && Passable(faults)
  {
    hide RequestDigest, FactScope;
    if faults.append.Some? {
      ErrorsSettle(faults.append.value, BeginFailed);
    }
    if faults.commit.Some? {
      ErrorsSettle(Unavailable, faults.commit.value);
    }
  }

  lemma StoredSettlesIff(c: Committed, m: Material, scope: Scope, key: Id, digest: string, actor: Actor, trace: Id, ports: Ports,
                         faults: Faults)
    requires !IsBlank(m.payloadRef) && (m.publicationId in c.publications || m.publicationId in c.materials)
    ensures Settled(PublicationSteps.Relayed(false, Decide(c, Ok(m), scope, key, digest, actor, trace, ports, faults).outcome)) <==>
            ports.auditId.Some? && ports.anchorId.Some?
  {
    hide WriteDecision, Deciding, RulingOf, RejectsBody, IsReference, IsBlank, Decision, DecisionAction, PublicationSteps.Relayed;
    var a := StartPending(m).value;
    if ports.auditId.Some? {
      DecisionMeaning(m, a, ports.now, ports.auditId.value);
    }
    if ports.auditId.Some? && ports.anchorId.Some? {
      var decided := Deciding(a, Decision(m), ports.now, ports.auditId.value).value;
      var entry := AuditEntry(ports.auditId.value, PublicationSubject(m.publicationId), DecisionAction(Decision(m)), actor, ports.now, trace);
      var anchor := Anchor(ports.anchorId.value, scope, key, digest, PublicationRef(m.publicationId), ports.now, trace);
      WriteRefused(c, m, decided, entry, anchor, faults);
    }
    RelayedSettles(false, Decide(c, Ok(m), scope, key, digest, actor, trace, ports, faults).outcome);
  }

  lemma WriteRefused(c: Committed, m: Material, decided: Acceptance, entry: AuditEntry, anchor: Anchor, faults: Faults)
    requires decided.publicationId == m.publicationId && (m.publicationId in c.publications || m.publicationId in c.materials)
    ensures WriteDecision(c, m, decided, entry, anchor, faults) == Err(RollBack(ConflictError("conflict.unique", None)))
  {
  }

  lemma InvalidSettles(c: Committed, f: OutboxFact, actor: Actor, trace: Id, ports: Ports, faults: Faults)
    requires FindAnchor(c, FactScope(f), f.idempotencyKey) == None && !FactFilled(f)
    ensures Settled(AcceptFact(c, f, actor, trace, ports, faults).outcome)
  {
    hide RequestDigest, FactScope, IsBlank;
  }

  lemma RepeatSettles(c: Committed, f: OutboxFact, actor: Actor, trace: Id, ports: Ports, faults: Faults)
    requires Inv(c) && Consumed(c, f)
    ensures Settled(AcceptFact(c, f, actor, trace, ports, faults).outcome)
  {
    hide RequestDigest, Inv, RulingOf;
    ReplaysNeverCorrupted(c, FactScope(f), f.idempotencyKey, "", "");
    FactRuling(c, f, actor, trace, ports, faults);
    RelayedSettles(true, ExistingRuling(c, FindAnchor(c, FactScope(f), f.idempotencyKey).value));
  }

  /** Consuming a fact is settled exactly when the bus can answer it. */
  lemma SettledIffAnswerable(c: Committed, f: OutboxFact, actor: Actor, trace: Id, ports: Ports, faults: Faults)
    requires Inv(c)
    ensures Settled(AcceptFact(c, f, actor, trace, ports, faults).outcome) <==> Answerable(c, f, ports, faults)
  {
    hide AcceptFact, Inv, RequestDigest, FactScope, Settled, Decide, RecordConflict, FactFilled, PublicationId, Passable,
         PublicationSteps.Relayed, IsBlank;
    FactRuling(c, f, actor, trace, ports, faults);
    match FindAnchor(c, FactScope(f), f.idempotencyKey) {
      case Some(a) =>
        if a.digest == RequestDigest(f.canonical) {
          RepeatSettles(c, f, actor, trace, ports, faults);
        } else {
          ReuseSettlesIff(f, a, actor, trace, ports, faults);
        }
      case None =>
        FactMaterials(f, actor, trace);
        if !FactFilled(f) {
          InvalidSettles(c, f, actor, trace, ports, faults);
        } else if AlreadyStored(c, f) {
          StoredSettlesIff(c, FactMaterial(f, actor, trace), FactScope(f), f.idempotencyKey, RequestDigest(f.canonical), actor, trace,
                           ports, faults);
        } else {
          NewFactFate(c, f, actor, trace, ports, faults);
          ObstructedMeaning(ports, faults);
        }
    }
  }

  lemma ObstructedMeaning(ports: Ports, faults: Faults)
    ensures !Obstructed(ports, faults) <==> ports.auditId.Some? && ports.anchorId.Some? && Passable(faults)
  {
  }

  /** The publication the fact's key is bound to is accepted. */
  ghost predicate BoundAccepted(c: Committed, f: OutboxFact) {
    && Consumed(c, f)
    && var bound := FindAnchor(c, FactScope(f), f.idempotencyKey).value.bound;
       bound.PublicationRef? && bound.publicationId in c.publications
       && c.publications[bound.publicationId].status == AcceptedPublication
  }

  /** A stored fact's item fails exactly when the bus cannot answer it or its acknowledgement fails; and one that has not
      failed is done, not set aside, only if its key is now bound to an accepted publication. */
  lemma ItemExactly(before: Progress, fact: OutboxFact, job: RelayJob, i: nat)
    requires Inv(before.st.committed) && Lists(before.facts, fact.factRef)
    ensures var after := RelayOne(before, fact, job, i);
      && |after.items| == |before.items| + 1
      && (after.items[|before.items|] != FailedItem <==>
            && Answerable(before.st.committed, fact, job.ports(i), before.st.faults)
            && before.armed.None? && job.ackFailures(i).None?)
      && (after.items[|before.items|] == Done ==> BoundAccepted(after.st.committed, fact))
  {
    hide AcceptFact, Acknowledged, Settled, After, Answerable, Inv, BoundAccepted;
    SettledIffAnswerable(before.st.committed, fact, job.actor, job.trace, job.ports(i), before.st.faults);
    if Consume(before, fact, job, i).outcome.Ok? {
      DoneIsAccepted(before.st.committed, fact, job.actor, job.trace, job.ports(i), before.st.faults);
    }
  }

  lemma AcceptedRuling(repeats: bool, r: Result<Ruling, ServiceError>)
    ensures PublicationSteps.Relayed(repeats, r).Ok? <==> r.Ok? && r.value.rejection == None
  {
  }

  lemma RulingOfAccepted(a: Acceptance)
    ensures RulingOf(a).Ok? && RulingOf(a).value.rejection == None ==> a.status == AcceptedPublication
  {
  }

  lemma RuledAccepted(c: Committed, f: OutboxFact, outcome: Result<Ruling, ServiceError>)
    requires RuledOn(c, FactScope(f), f.idempotencyKey, RequestDigest(f.canonical), outcome)
    requires outcome.Ok? && outcome.value.rejection == None
    ensures BoundAccepted(c, f)
  {
    hide RequestDigest, FactScope, RulingOf;
    RulingOfAccepted(c.publications[c.anchors[(FactScope(f), f.idempotencyKey)].bound.publicationId]);
  }

  /** An earlier ruling on the same request is answered from the stored acceptance. */
  lemma RepeatRuled(c: Committed, f: OutboxFact)
    requires Consumed(c, f) && ExistingRuling(c, FindAnchor(c, FactScope(f), f.idempotencyKey).value).Ok?
    ensures RuledOn(c, FactScope(f), f.idempotencyKey, RequestDigest(f.canonical),
                    ExistingRuling(c, FindAnchor(c, FactScope(f), f.idempotencyKey).value))
  {
    hide RequestDigest, FactScope;
  }

  /** A fact answered without an error is bound to an accepted publication, by this ruling or an earlier one. */
  lemma DoneIsAccepted(c: Committed, f: OutboxFact, actor: Actor, trace: Id, ports: Ports, faults: Faults)
    requires AcceptFact(c, f, actor, trace, ports, faults).outcome.Ok?
    ensures BoundAccepted(After(c, AcceptFact(c, f, actor, trace, ports, faults).exit), f)
  {
    hide RequestDigest, FactScope, Overlay, Decide, RecordConflict, AcceptFact, PublicationSteps.Relayed, RulingOf, BoundAccepted,
         RuledOn;
    FactRuling(c, f, actor, trace, ports, faults);
    match FindAnchor(c, FactScope(f), f.idempotencyKey) {
      case Some(a) =>
        if a.digest == RequestDigest(f.canonical) {
          AcceptedRuling(true, ExistingRuling(c, a));
          RepeatRuled(c, f);
          RuledAccepted(c, f, ExistingRuling(c, a));
        } else {
          ConflictOutcome<Ruling>(FactScope(f), f.idempotencyKey, a, RequestDigest(f.canonical), actor, trace, ports, faults);
          AcceptedRuling(true, RecordConflict<Ruling>(FactScope(f), f.idempotencyKey, a, RequestDigest(f.canonical), actor, trace, ports, faults).outcome);
        }
      case None =>
        var ruled := Rule(c, MaterialFromFact(f, actor, trace), FactScope(f), f.idempotencyKey, RequestDigest(f.canonical), actor, trace,
                          ports, faults);
        AcceptedRuling(false, ruled.outcome);
        OkCommits(c, f, actor, trace, ports, faults);
        RuleRulesOn(c, MaterialFromFact(f, actor, trace), FactScope(f), f.idempotencyKey, RequestDigest(f.canonical), actor, trace, ports, faults);
        RuledAccepted(After(c, ruled.exit), f, ruled.outcome);
    }
  }

  lemma OkCommits(c: Committed, f: OutboxFact, actor: Actor, trace: Id, ports: Ports, faults: Faults)
    requires FindAnchor(c, FactScope(f), f.idempotencyKey) == None && AcceptFact(c, f, actor, trace, ports, faults).outcome.Ok?
    ensures AcceptFact(c, f, actor, trace, ports, faults).exit.Commits?
  {
    hide RequestDigest, FactScope, DecideBody, Overlay;
  }

  // ---------------------------------------------------------------- runs without a failure

  lemma {:induction false} PendingFit(facts: seq<StoredFact>)
    ensures |Unacknowledged(facts)| <= |facts|
    decreases |facts|
  {
    if facts != [] {
      PendingFit(facts[..|facts| - 1]);
    }
  }

  /** A run in which nothing fails moves the cursor past its whole page: to the end, or a full page further. */
  lemma CleanRunMovesOn(begin: Progress, cursor: string, limit: nat, job: RelayJob) returns (start: nat, end: nat)
    requires Catalogued(begin.facts) && begin.items == [] && PositionOf(begin.facts, cursor).Some?
    requires Poll(begin.facts, cursor, limit).Ok?
    requires FailedItem !in Relay(begin, Poll(begin.facts, cursor, limit).value.items, job).items
    ensures PositionOf(begin.facts, cursor) == Some(start)
    ensures var page := Poll(begin.facts, cursor, limit).value;
      var after := Relay(begin, page.items, job);
      && PositionOf(after.facts, NextCursor(cursor, page, after.items)) == Some(end)
      && start + |page.items| <= end <= |after.facts| == |begin.facts|
      && (|page.items| < limit ==> end == |after.facts|)
  {
    hide Poll, Unacknowledged, Relay, PositionOf;
    start, end := PolledWindow(begin.facts, cursor, limit);
    var page := Poll(begin.facts, cursor, limit).value;
    PendingFit(begin.facts[start..end]);
    RelayMarks(begin, job, start, end);
    PositionStable(begin.facts, Relay(begin, page.items, job).facts, page.nextCursor);
  }

  // ---------------------------------------------------------------- the exception is real

  /** A new and valid fact met by an append failure that looks like a conflict is acknowledged although it is not
      decided: it was never stored, and it will not come again. */
  lemma MistakenFactIsLost(before: Progress, fact: OutboxFact, job: RelayJob, i: nat)
    requires NewAndValid(before.st.committed, fact) && Lists(before.facts, fact.factRef)
    requires before.st.faults.append.Some? && LooksLikeConflict(before.st.faults.append.value)
    requires job.ports(i).auditId.Some? && job.ports(i).anchorId.Some? && before.armed.None? && job.ackFailures(i).None?
    ensures var after := RelayOne(before, fact, job, i);
      && after.facts == Acknowledged(before.facts, fact.factRef, MARKER) && FailedItem !in after.items[|before.items|..]
      && after.st.committed == before.st.committed && !Decided(after.st.committed, fact)
  {
    hide AcceptFact, Acknowledged, Settled, After, FactFilled, AlreadyStored, RequestDigest, FactScope;
    NewFactFate(before.st.committed, fact, job.actor, job.trace, job.ports(i), before.st.faults);
  }

  const LOST: OutboxFact :=
    OutboxFact("fact", "event", "source", "key", "envelope", "system", "record", "core", "payload", "digest", "project", "topic", [])

  /** One pending fact, an empty bus, and a sequence conflict armed in the audit log. */
  function Unlucky(): Progress {
    Progress(State(EMPTY, Faults(Some(SequenceConflict), None)), [StoredFact(CursorOf("fact"), LOST, None)], None, [])
  }

  function OneJob(): RelayJob {
    RelayJob(Actor("relay", []), "trace", (i: nat) => Ports("now", "later", Some("audit"), Some("anchor")), (i: nat) => None)
  }

  lemma LostIsFilled()
    ensures FactFilled(LOST)
  {
    assert !IsSpace(LOST.sourceSystem[0]) && !IsSpace(LOST.sourceRecordRef[0]) && !IsSpace(LOST.envelopeRef[0]);
    assert !IsSpace(LOST.payloadRef[0]) && !IsSpace(LOST.payloadDigest[0]) && !IsSpace(LOST.projectId[0]) && !IsSpace(LOST.topic[0]);
  }

  /** An instance: the relay marks the fact, moves past it, and the bus still knows nothing of it. */
  lemma SequenceConflictLosesFact()
    ensures var page := Poll(Unlucky().facts, ORIGIN, 1);
      && page == Ok(Page([LOST], CursorOf("fact")))
      && var after := Relay(Unlucky(), [LOST], OneJob());
         && |after.facts| == 1 && after.facts[0].marker == Some(MARKER)
         && NextCursor(ORIGIN, page.value, after.items) == CursorOf("fact")
         && after.st.committed == EMPTY && !Decided(EMPTY, LOST)
  {
    hide RelayOne, FactFilled, Decided, PublicationId, FactScope;
    LostIsFilled();
    var facts := Unlucky().facts;
    assert facts[0..1] == facts && facts[..0] == [];
    assert Reach(facts, 0, 1) == 1;
    assert Unacknowledged(facts) == [LOST];
    assert facts[0].fact.factRef == LOST.factRef;
    MistakenFactIsLost(Unlucky(), LOST, OneJob(), 0);
    assert [LOST][..0] == [];
    assert Relay(Unlucky(), [], OneJob()) == Unlucky();
    NewFactItem(Unlucky(), LOST, OneJob(), 0);
  }
}
