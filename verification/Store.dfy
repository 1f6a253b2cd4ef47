/** The shared in-memory store: begin, stage, commit and roll back over its maps. */
module Store {
  import opened Common
  import opened Records
  import opened StoreModel

  /** What a staging call reports and leaves in the table of open transactions. */
  ghost predicate Stages<V(!new)>(before: map<nat, Staged>, after: map<nat, Staged>, handle: nat,
                                  expected: Result<(Staged, V), RepositoryError>, r: Result<V, RepositoryError>)
  {
    match expected
    case Err(e) => r == Err(e) && after == before
    case Ok(pair) => r == Ok(pair.1) && after == before[handle := pair.0]
  }

  /** Inserts staged rows, counting each row's commits. */
  method CountRows<V>(current: map<Id, V>, numbers: map<Id, nat>, staged: map<Id, V>)
    returns (rows: map<Id, V>, versions: map<Id, nat>)
    ensures rows == current + staged
    ensures versions == numbers + NextNumbers(numbers, staged.Keys)
  {
    rows, versions := current, numbers;
    ghost var written := NextNumbers(numbers, staged.Keys);
    var done := {};
    PartNone(rows, staged);
    PartNone(versions, written);
    while done != staged.Keys
      invariant done <= staged.Keys
      invariant rows == current + Part(staged, done)
      invariant versions == numbers + Part(written, done)
      decreases |staged.Keys - done|
    {
      var k :| k in staged.Keys - done;
      PartGrows(current, staged, done, k);
      PartGrows(numbers, written, done, k);
      PartMisses(numbers, written, done, k);
      versions := versions[k := NextNumber(Get(versions, k))];
      rows := rows[k := staged[k]];
      done := done + {k};
    }
    PartAll(staged, done);
    PartAll(written, done);
  }

  /** Inserts staged rows, moving each row's projection version on. */
  method VersionRows<V>(current: map<Id, V>, numbers: map<Id, string>, staged: map<Id, V>)
    returns (rows: map<Id, V>, versions: map<Id, string>)
    ensures rows == current + staged
    ensures versions == numbers + NextVersions(numbers, staged.Keys)
  {
    rows, versions := current, numbers;
    ghost var written := NextVersions(numbers, staged.Keys);
    var done := {};
    PartNone(rows, staged);
    PartNone(versions, written);
    while done != staged.Keys
      invariant done <= staged.Keys
      invariant rows == current + Part(staged, done)
      invariant versions == numbers + Part(written, done)
      decreases |staged.Keys - done|
    {
      var k :| k in staged.Keys - done;
      PartGrows(current, staged, done, k);
      PartGrows(numbers, written, done, k);
      PartMisses(numbers, written, done, k);
      versions := versions[k := NextAfter(Get(versions, k))];
      rows := rows[k := staged[k]];
      done := done + {k};
    }
    PartAll(staged, done);
    PartAll(written, done);
  }

  class SharedMemoryStore {
    var nextTransactionId: nat
    var committed: Committed
    var transactions: map<nat, Staged>

    /** Handles are issued in increasing order, so the next one is unused. */
    ghost predicate Valid()
      reads this`transactions, this`nextTransactionId
    {
      forall handle | handle in transactions :: handle <= nextTransactionId
    }

    constructor ()
      ensures Valid() && committed == EMPTY && transactions == map[] && nextTransactionId == 0
    {
      nextTransactionId, committed, transactions := 0, EMPTY, map[];
    }

    method BeginTransaction() returns (handle: nat)
      requires Valid()
      modifies this`nextTransactionId, this`transactions
      ensures Valid()
      ensures handle !in old(transactions) && handle == old(nextTransactionId) + 1 == nextTransactionId
      ensures transactions == old(transactions)[handle := NOTHING]
    {
      nextTransactionId := nextTransactionId + 1;
      handle := nextTransactionId;
      transactions := transactions[handle := NOTHING];
    }

    method RollbackTransaction(handle: nat) returns (r: Result<(), UnitOfWorkError>)
      modifies this`transactions
      ensures handle in old(transactions) ==> r == Ok(()) && transactions == old(transactions) - {handle}
      ensures handle !in old(transactions) ==> r == Err(InvalidHandle) && transactions == old(transactions)
    {
      if handle !in transactions {
        return Err(InvalidHandle);
      }
      transactions := transactions - {handle};
      r := Ok(());
    }

    method CommitTransaction(handle: nat) returns (r: Result<nat, UnitOfWorkError>)
      modifies this`committed, this`transactions
      ensures r == if handle in old(transactions) then Ok(handle) else Err(InvalidHandle)
      ensures transactions == old(transactions) - {handle}
      ensures committed == Committing(old(committed), Get(old(transactions), handle))
    {
      var found := Get(transactions, handle);
      transactions := transactions - {handle};
      match found {
        case Some(staged) =>
          Apply(staged);
          r := Ok(handle);
        case None =>
          r := Err(InvalidHandle);
      }
    }

    /** Lays a staged transaction over the committed tables, one table after another. */
    method Apply(staged: Staged)
      modifies this`committed
      ensures committed == Overlay(old(committed), staged)
    {
      CommitDeliveries(staged.deliveries);
      CommitFeedbacks(staged.feedbacks);
      CommitFeedbackSources(staged.feedbackSources);
      CommitPublications(staged.publications);
      CommitMaterials(staged.materials);
      CommitViews(staged.views);
      CommitSummaries(staged.summaries);
      CommitHealth(staged.health);
      CommitPlans(staged.plans);
      CommitDeadLetters(staged.deadLetters);
      CommitReplays(staged.replays);
      CommitFailureMaterials(staged.failureMaterials);
      CommitAnchors(staged.anchors);
      committed := committed.(conflicts := committed.conflicts + staged.conflicts);
      CommitAudits(staged.audits);
    }

    // -------------------------------------------------------------- the loops of a commit

    method CommitDeliveries(staged: map<Id, Delivery>)
      modifies this`committed
      ensures committed == old(committed).(deliveries := old(committed).deliveries + staged,
        deliveryVersions := old(committed).deliveryVersions + DeliveryVersions(staged))
    {
      ghost var c := committed;
      ghost var written := DeliveryVersions(staged);
      var done := {};
      PartNone(c.deliveries, staged);
      PartNone(c.deliveryVersions, written);
      while done != staged.Keys
        invariant done <= staged.Keys
        invariant committed ==
          c.(deliveries := c.deliveries + Part(staged, done), deliveryVersions := c.deliveryVersions + Part(written, done))
        decreases |staged.Keys - done|
      {
        var k :| k in staged.Keys - done;
        PartGrows(c.deliveries, staged, done, k);
        PartGrows(c.deliveryVersions, written, done, k);
        committed := committed.(deliveryVersions := committed.deliveryVersions[k := staged[k].version]);
        committed := committed.(deliveries := committed.deliveries[k := staged[k]]);
        done := done + {k};
      }
      PartAll(staged, done);
      PartAll(written, done);
    }

    method CommitFeedbacks(staged: map<Id, Feedback>)
      modifies this`committed
      ensures committed == old(committed).(feedbacks := old(committed).feedbacks + staged,
        feedbackVersions := old(committed).feedbackVersions + FeedbackVersions(staged))
    {
      ghost var c := committed;
      ghost var written := FeedbackVersions(staged);
      var done := {};
      PartNone(c.feedbacks, staged);
      PartNone(c.feedbackVersions, written);
      while done != staged.Keys
        invariant done <= staged.Keys
        invariant committed ==
          c.(feedbacks := c.feedbacks + Part(staged, done), feedbackVersions := c.feedbackVersions + Part(written, done))
        decreases |staged.Keys - done|
      {
        var k :| k in staged.Keys - done;
        PartGrows(c.feedbacks, staged, done, k);
        PartGrows(c.feedbackVersions, written, done, k);
        committed := committed.(feedbackVersions := committed.feedbackVersions[k := staged[k].version]);
        committed := committed.(feedbacks := committed.feedbacks[k := staged[k]]);
        done := done + {k};
      }
      PartAll(staged, done);
      PartAll(written, done);
    }

    method CommitFeedbackSources(staged: map<(Id, Id), Id>)
      modifies this`committed
      ensures committed == old(committed).(feedbackSources := old(committed).feedbackSources + staged)
    {
      ghost var c := committed;
      var done := {};
      PartNone(c.feedbackSources, staged);
      while done != staged.Keys
        invariant done <= staged.Keys
        invariant committed == c.(feedbackSources := c.feedbackSources + Part(staged, done))
        decreases |staged.Keys - done|
      {
        var k :| k in staged.Keys - done;
        PartGrows(c.feedbackSources, staged, done, k);
        committed := committed.(feedbackSources := committed.feedbackSources[k := staged[k]]);
        done := done + {k};
      }
      PartAll(staged, done);
    }

    method CommitPublications(staged: map<Id, Acceptance>)
      modifies this`committed
      ensures committed == old(committed).(publications := old(committed).publications + staged,
        publicationVersions := old(committed).publicationVersions + NextNumbers(old(committed).publicationVersions, staged.Keys))
    {
      var rows, versions := CountRows(committed.publications, committed.publicationVersions, staged);
      committed := committed.(publications := rows, publicationVersions := versions);
    }

    method CommitMaterials(staged: map<Id, Material>)
      modifies this`committed
      ensures committed == old(committed).(materials := old(committed).materials + staged)
    {
      ghost var c := committed;
      var done := {};
      PartNone(c.materials, staged);
      while done != staged.Keys
        invariant done <= staged.Keys
        invariant committed == c.(materials := c.materials + Part(staged, done))
        decreases |staged.Keys - done|
      {
        var k :| k in staged.Keys - done;
        PartGrows(c.materials, staged, done, k);
        committed := committed.(materials := committed.materials[k := staged[k]]);
        done := done + {k};
      }
      PartAll(staged, done);
    }

    method CommitViews(staged: map<Id, TransportView>)
      modifies this`committed
      ensures committed == old(committed).(views := old(committed).views + staged)
    {
      ghost var c := committed;
      var done := {};
      PartNone(c.views, staged);
      while done != staged.Keys
        invariant done <= staged.Keys
        invariant committed == c.(views := c.views + Part(staged, done))
        decreases |staged.Keys - done|
      {
        var k :| k in staged.Keys - done;
        PartGrows(c.views, staged, done, k);
        committed := committed.(views := committed.views[k := staged[k]]);
        done := done + {k};
      }
      PartAll(staged, done);
    }

    method CommitSummaries(staged: map<Id, FailureSummary>)
      modifies this`committed
      ensures committed == old(committed).(summaries := old(committed).summaries + staged,
        summaryVersions := old(committed).summaryVersions + NextVersions(old(committed).summaryVersions, staged.Keys))
    {
      var rows, versions := VersionRows(committed.summaries, committed.summaryVersions, staged);
      committed := committed.(summaries := rows, summaryVersions := versions);
    }

    method CommitHealth(staged: map<Id, BackendHealth>)
      modifies this`committed
      ensures committed == old(committed).(health := old(committed).health + staged,
        healthVersions := old(committed).healthVersions + NextVersions(old(committed).healthVersions, staged.Keys))
    {
      var rows, versions := VersionRows(committed.health, committed.healthVersions, staged);
      committed := committed.(health := rows, healthVersions := versions);
    }

    method CommitPlans(staged: map<Id, RetryPlan>)
      modifies this`committed
      ensures committed == old(committed).(plans := old(committed).plans + staged,
        planVersions := old(committed).planVersions + PlanVersions(staged),
        activePlans := PlanIndex(old(committed).activePlans, staged, SortedKeys(staged.Keys)))
    {
      ghost var c := committed;
      var ids := SortedKeys(staged.Keys);
      SortedKeysOrder(staged.Keys);
      ghost var written := PlanVersions(staged);
      ghost var done := {};
      PartNone(c.plans, staged);
      PartNone(c.planVersions, written);
      for i := 0 to |ids|
        invariant done == Elements(ids[..i])
        invariant committed == c.(plans := c.plans + Part(staged, done),
          planVersions := c.planVersions + Part(written, done), activePlans := PlanIndex(c.activePlans, staged, ids[..i]))
      {
        var id := ids[i];
        Prefix(ids, i);
        assert id in staged;
        var row := staged[id];
        PartGrows(c.plans, staged, done, id);
        PartGrows(c.planVersions, written, done, id);
        if row.status == PlanScheduled {
          committed := committed.(activePlans := committed.activePlans[row.deliveryId := id]);
        } else if Get(committed.activePlans, row.deliveryId) == Some(id) {
          committed := committed.(activePlans := committed.activePlans - {row.deliveryId});
        }
        committed := committed.(planVersions := committed.planVersions[id := row.version]);
        committed := committed.(plans := committed.plans[id := row]);
        done := done + {id};
      }
      assert ids[..|ids|] == ids;
      PartAll(staged, done);
      PartAll(written, done);
    }

    method CommitDeadLetters(staged: map<Id, DeadLetterEntry>)
      modifies this`committed
      ensures committed == old(committed).(deadLetters := old(committed).deadLetters + staged,
        deadLetterVersions := old(committed).deadLetterVersions + DeadLetterVersions(staged),
        activeDeadLetters := DeadLetterIndex(old(committed).activeDeadLetters, staged, SortedKeys(staged.Keys)))
    {
      ghost var c := committed;
      var ids := SortedKeys(staged.Keys);
      SortedKeysOrder(staged.Keys);
      ghost var written := DeadLetterVersions(staged);
      ghost var done := {};
      PartNone(c.deadLetters, staged);
      PartNone(c.deadLetterVersions, written);
      for i := 0 to |ids|
        invariant done == Elements(ids[..i])
        invariant committed == c.(deadLetters := c.deadLetters + Part(staged, done),
          deadLetterVersions := c.deadLetterVersions + Part(written, done), activeDeadLetters := DeadLetterIndex(c.activeDeadLetters, staged, ids[..i]))
      {
        var id := ids[i];
        Prefix(ids, i);
        assert id in staged;
        var row := staged[id];
        PartGrows(c.deadLetters, staged, done, id);
        PartGrows(c.deadLetterVersions, written, done, id);
        if row.status != Closed {
          committed := committed.(activeDeadLetters := committed.activeDeadLetters[row.deliveryId := id]);
        } else if Get(committed.activeDeadLetters, row.deliveryId) == Some(id) {
          committed := committed.(activeDeadLetters := committed.activeDeadLetters - {row.deliveryId});
        }
        committed := committed.(deadLetterVersions := committed.deadLetterVersions[id := row.version]);
        committed := committed.(deadLetters := committed.deadLetters[id := row]);
        done := done + {id};
      }
      assert ids[..|ids|] == ids;
      PartAll(staged, done);
      PartAll(written, done);
    }

    method CommitReplays(staged: map<Id, ReplayPreparation>)
      modifies this`committed
      ensures committed == old(committed).(replays := old(committed).replays + staged,
        replayVersions := old(committed).replayVersions + ReplayVersions(staged),
        readyReplays := ReadyIndex(old(committed).readyReplays, staged, SortedKeys(staged.Keys)))
    {
      ghost var c := committed;
      var ids := SortedKeys(staged.Keys);
      SortedKeysOrder(staged.Keys);
      ghost var written := ReplayVersions(staged);
      ghost var done := {};
      PartNone(c.replays, staged);
      PartNone(c.replayVersions, written);
      for i := 0 to |ids|
        invariant done == Elements(ids[..i])
        invariant committed == c.(replays := c.replays + Part(staged, done),
          replayVersions := c.replayVersions + Part(written, done), readyReplays := ReadyIndex(c.readyReplays, staged, ids[..i]))
      {
        var id := ids[i];
        Prefix(ids, i);
        assert id in staged;
        var row := staged[id];
        PartGrows(c.replays, staged, done, id);
        PartGrows(c.replayVersions, written, done, id);
        if row.approvalRef.Some? {
          committed := committed.(readyReplays := committed.readyReplays[(row.deadLetterId, row.approvalRef.value) := id]);
        }
        committed := committed.(replayVersions := committed.replayVersions[id := row.version]);
        committed := committed.(replays := committed.replays[id := row]);
        done := done + {id};
      }
      assert ids[..|ids|] == ids;
      PartAll(staged, done);
      PartAll(written, done);
    }

    method CommitFailureMaterials(staged: map<Id, FailureMaterial>)
      modifies this`committed
      ensures committed == old(committed).(failureMaterials := old(committed).failureMaterials + staged,
        failureMaterialVersions := old(committed).failureMaterialVersions + MaterialVersions(staged))
    {
      ghost var c := committed;
      ghost var written := MaterialVersions(staged);
      var done := {};
      PartNone(c.failureMaterials, staged);
      PartNone(c.failureMaterialVersions, written);
      while done != staged.Keys
        invariant done <= staged.Keys
        invariant committed ==
          c.(failureMaterials := c.failureMaterials + Part(staged, done), failureMaterialVersions := c.failureMaterialVersions + Part(written, done))
        decreases |staged.Keys - done|
      {
        var k :| k in staged.Keys - done;
        PartGrows(c.failureMaterials, staged, done, k);
        PartGrows(c.failureMaterialVersions, written, done, k);
        committed := committed.(failureMaterialVersions := committed.failureMaterialVersions[k := staged[k].version]);
        committed := committed.(failureMaterials := committed.failureMaterials[k := staged[k]]);
        done := done + {k};
      }
      PartAll(staged, done);
      PartAll(written, done);
    }

    method CommitAnchors(staged: map<(Scope, Id), Anchor>)
      modifies this`committed
      ensures committed == old(committed).(anchors := old(committed).anchors + staged)
    {
      ghost var c := committed;
      var done := {};
      PartNone(c.anchors, staged);
      while done != staged.Keys
        invariant done <= staged.Keys
        invariant committed == c.(anchors := c.anchors + Part(staged, done))
        decreases |staged.Keys - done|
      {
        var k :| k in staged.Keys - done;
        PartGrows(c.anchors, staged, done, k);
        committed := committed.(anchors := committed.anchors[k := staged[k]]);
        done := done + {k};
      }
      PartAll(staged, done);
    }

    method CommitAudits(staged: seq<AuditEntry>)
      modifies this`committed
      ensures committed == old(committed).(audits := old(committed).audits + staged,
        auditSequence := old(committed).auditSequence + |staged|)
    {
      ghost var c := committed;
      assert c.audits + [] == c.audits;
      for i := 0 to |staged|
        invariant committed == c.(audits := c.audits + staged[..i], auditSequence := c.auditSequence + i)
      {
        committed := committed.(auditSequence := committed.auditSequence + 1);
        committed := committed.(audits := committed.audits + [staged[i]]);
        assert c.audits + staged[..i] + [staged[i]] == c.audits + staged[..i + 1];
      }
      assert staged[..|staged|] == staged;
    }

    // -------------------------------------------------------------- staging calls

    method StageDeliverySave(handle: nat, delivery: Delivery, expected: nat) returns (r: Result<nat, RepositoryError>)
      modifies this`transactions
      ensures Stages(old(transactions), transactions, handle, SaveDelivery(committed, Get(old(transactions), handle), delivery, expected), r)
      ensures r == Err(VersionConflict) <==> Get(committed.deliveryVersions, delivery.deliveryId) != Some(expected)
      ensures r.Ok? ==> r.value == expected + 1
    {
      if delivery.deliveryId !in committed.deliveryVersions {
        return Err(VersionConflict);
      }
      if committed.deliveryVersions[delivery.deliveryId] != expected {
        return Err(VersionConflict);
      }
      if handle !in transactions {
        return Err(Unavailable);
      }
      var staged := transactions[handle];
      var stored := delivery.(version := expected + 1);
      transactions := transactions[handle := staged.(deliveries := staged.deliveries[stored.deliveryId := stored])];
      r := Ok(stored.version);
    }

    method StageFeedback(handle: nat, feedback: Feedback) returns (r: Result<nat, RepositoryError>)
      modifies this`transactions
      ensures Stages(old(transactions), transactions, handle, InsertFeedback(committed, Get(old(transactions), handle), feedback), r)
    {
      if feedback.feedbackId in committed.feedbacks {
        return Err(UniqueViolation);
      }
      var source := (feedback.deliveryId, feedback.externalRef);
      if source in committed.feedbackSources {
        return Err(UniqueViolation);
      }
      var current := Number(Get(committed.feedbackVersions, feedback.feedbackId));
      if handle !in transactions {
        return Err(Unavailable);
      }
      var staged := transactions[handle];
      if feedback.feedbackId in staged.feedbacks || source in staged.feedbackSources {
        return Err(UniqueViolation);
      }
      var stored := feedback.(version := current + 1);
      staged := staged.(feedbackSources := staged.feedbackSources[source := stored.feedbackId]);
      staged := staged.(feedbacks := staged.feedbacks[stored.feedbackId := stored]);
      transactions := transactions[handle := staged];
      r := Ok(current + 1);
    }

    method StagePublication(handle: nat, acceptance: Acceptance) returns (r: Result<nat, RepositoryError>)
      modifies this`transactions
      ensures Stages(old(transactions), transactions, handle, InsertPublication(committed, Get(old(transactions), handle), acceptance), r)
    {
      if acceptance.publicationId in committed.publications {
        return Err(UniqueViolation);
      }
      if handle !in transactions {
        return Err(Unavailable);
      }
      var staged := transactions[handle];
      if acceptance.publicationId in staged.publications {
        return Err(UniqueViolation);
      }
      staged := staged.(publications := staged.publications[acceptance.publicationId := acceptance]);
      transactions := transactions[handle := staged];
      r := Ok(Number(Get(committed.publicationVersions, acceptance.publicationId)) + 1);
    }

    method StageMaterial(handle: nat, material: Material) returns (r: Result<nat, RepositoryError>)
      modifies this`transactions
      ensures Stages(old(transactions), transactions, handle, StoreMaterial(committed, Get(old(transactions), handle), material), r)
    {
      if material.publicationId in committed.materials {
        return Err(UniqueViolation);
      }
      if handle !in transactions {
        return Err(Unavailable);
      }
      var staged := transactions[handle];
      if material.publicationId in staged.materials {
        return Err(UniqueViolation);
      }
      transactions := transactions[handle := staged.(materials := staged.materials[material.publicationId := material])];
      r := Ok(0);
    }

    method StagePlanSave(handle: nat, plan: RetryPlan, expected: Option<nat>) returns (r: Result<nat, RepositoryError>)
      modifies this`transactions
      ensures Stages(old(transactions), transactions, handle, SavePlan(committed, Get(old(transactions), handle), plan, expected), r)
      ensures r == Err(VersionConflict) <==> expected.Some? && expected.value != Number(Get(committed.planVersions, plan.retryPlanId))
      ensures r.Ok? ==> r.value == Number(Get(committed.planVersions, plan.retryPlanId)) + 1
      ensures r.Ok? && expected.None? ==> r.value == 1
    {
      var current := Number(Get(committed.planVersions, plan.retryPlanId));
      if expected.Some? {
        if expected.value != current {
          return Err(VersionConflict);
        }
      } else if current != 0 {
        return Err(UniqueViolation);
      }
      if plan.status == PlanScheduled {
        if plan.deliveryId in committed.activePlans && committed.activePlans[plan.deliveryId] != plan.retryPlanId {
          return Err(UniqueViolation);
        }
      }
      if handle !in transactions {
        return Err(Unavailable);
      }
      var staged := transactions[handle];
      if plan.status == PlanScheduled && OtherScheduled(staged.plans, plan) {
        return Err(UniqueViolation);
      }
      var stored := plan.(version := current + 1);
      transactions := transactions[handle := staged.(plans := staged.plans[stored.retryPlanId := stored])];
      r := Ok(stored.version);
    }

    method StageDeadLetterSave(handle: nat, entry: DeadLetterEntry, material: FailureMaterial) returns (r: Result<nat, RepositoryError>)
      modifies this`transactions
      ensures Stages(old(transactions), transactions, handle, SaveDeadLetter(committed, Get(old(transactions), handle), entry, material), r)
    {
      if entry.deadLetterId in committed.deadLetters || entry.deliveryId in committed.activeDeadLetters {
        return Err(UniqueViolation);
      }
      if material.failureMaterialId !in committed.failureMaterialVersions {
        return Err(VersionConflict);
      }
      var current := committed.failureMaterialVersions[material.failureMaterialId];
      if handle !in transactions {
        return Err(Unavailable);
      }
      var staged := transactions[handle];
      if entry.deadLetterId in staged.deadLetters || SameDelivery(staged.deadLetters, entry) {
        return Err(UniqueViolation);
      }
      var stored := entry.(version := 1);
      var linked := material.(deadLetterRef := Some(stored.deadLetterId));
      linked := linked.(version := current + 1);
      staged := staged.(deadLetters := staged.deadLetters[stored.deadLetterId := stored]);
      staged := staged.(failureMaterials := staged.failureMaterials[linked.failureMaterialId := linked]);
      transactions := transactions[handle := staged];
      r := Ok(stored.version);
    }

    method StageReplaySave(handle: nat, replay: ReplayPreparation) returns (r: Result<nat, RepositoryError>)
      modifies this`transactions
      ensures Stages(old(transactions), transactions, handle, SaveReplay(committed, Get(old(transactions), handle), replay), r)
    {
      if replay.replayId in committed.replays {
        return Err(UniqueViolation);
      }
      if replay.approvalRef.Some? && (replay.deadLetterId, replay.approvalRef.value) in committed.readyReplays {
        return Err(UniqueViolation);
      }
      var current := Number(Get(committed.replayVersions, replay.replayId));
      if handle !in transactions {
        return Err(Unavailable);
      }
      var staged := transactions[handle];
      if replay.replayId in staged.replays {
        return Err(UniqueViolation);
      }
      if replay.approvalRef.Some? && SameApproval(staged.replays, replay) {
        return Err(UniqueViolation);
      }
      var stored := replay.(version := current + 1);
      transactions := transactions[handle := staged.(replays := staged.replays[stored.replayId := stored])];
      r := Ok(stored.version);
    }

    method StageAnchor(handle: nat, anchor: Anchor) returns (r: Result<nat, RepositoryError>)
      modifies this`transactions
      ensures Stages(old(transactions), transactions, handle, BindAnchor(committed, Get(old(transactions), handle), anchor), r)
    {
      var key := (anchor.scope, anchor.key);
      if key in committed.anchors {
        return Err(UniqueViolation);
      }
      if handle !in transactions {
        return Err(Unavailable);
      }
      var staged := transactions[handle];
      if key in staged.anchors {
        return Err(UniqueViolation);
      }
      transactions := transactions[handle := staged.(anchors := staged.anchors[key := anchor])];
      r := Ok(0);
    }

    method StageConflict(handle: nat, conflict: Conflict) returns (r: Result<nat, RepositoryError>)
      modifies this`transactions
      ensures Stages(old(transactions), transactions, handle, MarkConflict(Get(old(transactions), handle), conflict), r)
    {
      if handle !in transactions {
        return Err(Unavailable);
      }
      var staged := transactions[handle];
      transactions := transactions[handle := staged.(conflicts := staged.conflicts + [conflict])];
      r := Ok(0);
    }

    method StageAuditEntry(handle: nat, entry: AuditEntry) returns (r: Result<nat, RepositoryError>)
      modifies this`transactions
      ensures Stages(old(transactions), transactions, handle, AppendAudit(committed, Get(old(transactions), handle), entry), r)
    {
      var next := committed.auditSequence + 1;
      if handle !in transactions {
        return Err(Unavailable);
      }
      var staged := transactions[handle];
      transactions := transactions[handle := staged.(audits := staged.audits + [entry])];
      r := Ok(next);
    }

    method StageView(handle: nat, view: TransportView) returns (r: Result<string, RepositoryError>)
      modifies this`transactions
      ensures Stages(old(transactions), transactions, handle, UpsertView(committed, Get(old(transactions), handle), view), r)
    {
      var current := if view.viewId in committed.views then Some(committed.views[view.viewId].version) else None;
      if handle !in transactions {
        return Err(Unavailable);
      }
      var staged := transactions[handle];
      var stored := view.(version := NextAfter(current));
      transactions := transactions[handle := staged.(views := staged.views[stored.viewId := stored])];
      r := Ok(stored.version);
    }

    method StageSummary(handle: nat, summary: FailureSummary) returns (r: Result<string, RepositoryError>)
      modifies this`transactions
      ensures Stages(old(transactions), transactions, handle, UpsertSummary(committed, Get(old(transactions), handle), summary), r)
    {
      var version := NextAfter(Get(committed.summaryVersions, summary.summaryId));
      if handle !in transactions {
        return Err(Unavailable);
      }
      var staged := transactions[handle];
      transactions := transactions[handle := staged.(summaries := staged.summaries[summary.summaryId := summary])];
      r := Ok(version);
    }

    method StageHealth(handle: nat, view: BackendHealth) returns (r: Result<string, RepositoryError>)
      modifies this`transactions
      ensures Stages(old(transactions), transactions, handle, UpsertHealth(committed, Get(old(transactions), handle), view), r)
    {
      var version := NextAfter(Get(committed.healthVersions, view.backendId));
      if handle !in transactions {
        return Err(Unavailable);
      }
      var staged := transactions[handle];
      transactions := transactions[handle := staged.(health := staged.health[view.backendId := view])];
      r := Ok(version);
    }

    /** An access entry bypasses transactions; its number is its place in the log. */
    method AppendAccessAuditEntry(entry: AuditEntry) returns (r: Result<nat, RepositoryError>)
      modifies this`committed
      ensures committed == AppendAccess(old(committed), entry)
      ensures r == Ok(old(committed).auditSequence + 1)
    {
      committed := committed.(auditSequence := committed.auditSequence + 1);
      committed := committed.(audits := committed.audits + [entry]);
      r := Ok(committed.auditSequence);
    }

    /** Seeds one committed delivery. */
    method SeedDelivery(delivery: Delivery) returns (r: Result<nat, RepositoryError>)
      modifies this`committed
      ensures delivery.deliveryId in old(committed).deliveries ==> r == Err(UniqueViolation) && committed == old(committed)
      ensures delivery.deliveryId !in old(committed).deliveries ==>
        r == Ok(1) && committed == SeededDelivery(old(committed), delivery)
    {
      if delivery.deliveryId in committed.deliveries {
        return Err(UniqueViolation);
      }
      var stored := delivery.(version := 1);
      committed := committed.(deliveryVersions := committed.deliveryVersions[stored.deliveryId := stored.version]);
      committed := committed.(deliveries := committed.deliveries[stored.deliveryId := stored]);
      r := Ok(1);
    }

    /** Seeds one committed retry plan; at most one scheduled plan per delivery. */
    method SeedRetryPlan(plan: RetryPlan) returns (r: Result<nat, RepositoryError>)
      modifies this`committed
      ensures r.Ok? <==> !PlanSeedRefused(old(committed), plan)
      ensures committed == if r.Ok? then SeededPlan(old(committed), plan) else old(committed)
    {
      if PlanSeedRefused(committed, plan) {
        return Err(UniqueViolation);
      }
      var stored := plan.(version := 1);
      if stored.status == PlanScheduled {
        committed := committed.(activePlans := committed.activePlans[stored.deliveryId := stored.retryPlanId]);
      }
      committed := committed.(planVersions := committed.planVersions[stored.retryPlanId := stored.version]);
      committed := committed.(plans := committed.plans[stored.retryPlanId := stored]);
      r := Ok(1);
    }

    /** Seeds one committed failure material. */
    method SeedFailureMaterial(material: FailureMaterial) returns (r: Result<nat, RepositoryError>)
      modifies this`committed
      ensures r.Ok? <==> material.failureMaterialId !in old(committed).failureMaterials
      ensures committed == if r.Ok? then SeededMaterial(old(committed), material) else old(committed)
    {
      if material.failureMaterialId in committed.failureMaterials {
        return Err(UniqueViolation);
      }
      var stored := material.(version := 1);
      committed := committed.(
        failureMaterialVersions := committed.failureMaterialVersions[stored.failureMaterialId := stored.version]);
      committed := committed.(failureMaterials := committed.failureMaterials[stored.failureMaterialId := stored]);
      r := Ok(1);
    }

    /** The page of schedulable deliveries after a cursor. */
    method FindSchedulable(cursor: string, limit: nat) returns (page: seq<Delivery>)
      ensures page == SchedulablePage(committed, cursor, limit)
    {
      var hasAfterCursor := AnyAfter(committed.deliveries.Keys, cursor);
      page := Take(Schedulable(committed.deliveries, SortedKeys(committed.deliveries.Keys), cursor, !hasAfterCursor), limit);
    }

    /** The page of due retry plans after a cursor. */
    method FindDueRetry(cursor: string, limit: nat, now: Timestamp) returns (page: seq<RetryPlan>)
      ensures page == DueRetryPlans(committed, cursor, limit, now)
    {
      page := Take(DuePlans(committed.plans, SortedKeys(committed.plans.Keys), cursor, now), limit);
    }
  }
}
