/** The audit log accounts for every change a call commits. */
module Accounts {
  import opened Common
  import opened Records
  import opened StoreModel
  import opened Steps
  import opened Invariants
  import opened Paths
  import opened Runs

  ghost predicate Changed<V(!new)>(before: map<Id, V>, after: map<Id, V>, id: Id) {
    id in after && Get(before, id) != Some(after[id])
  }

  // Each table on its own.

  ghost predicate PlansAccounted(before: map<Id, RetryPlan>, after: map<Id, RetryPlan>, news: seq<AuditEntry>) {
    forall id | Changed(before, after, id) :: LoggedAs(news, RetryPlanSubject(id), PlanAction(before, id, after[id]))
  }

  ghost predicate DeadLettersAccounted(before: map<Id, DeadLetterEntry>, after: map<Id, DeadLetterEntry>, news: seq<AuditEntry>) {
    forall id | Changed(before, after, id) :: LoggedAs(news, DeadLetterSubject(id), DeadLetterCreated)
  }

  ghost predicate ReplaysAccounted(before: map<Id, ReplayPreparation>, after: map<Id, ReplayPreparation>, news: seq<AuditEntry>) {
    forall id | Changed(before, after, id) :: LoggedAs(news, ReplaySubject(id), ReplayPreparationReady)
  }

  ghost predicate FeedbacksAccounted(before: map<Id, Feedback>, after: map<Id, Feedback>, news: seq<AuditEntry>) {
    forall id | Changed(before, after, id) ::
      LoggedAs(news, DeliverySubject(after[id].deliveryId), FeedbackRecorded(after[id].status))
  }

  ghost predicate ByPlan(before: map<Id, RetryPlan>, after: map<Id, RetryPlan>, d: Id) {
    exists p :: Changed(before, after, p) && after[p].deliveryId == d
  }

  ghost predicate ByFeedback(before: map<Id, Feedback>, after: map<Id, Feedback>, d: Id) {
    exists f :: Changed(before, after, f) && after[f].deliveryId == d
  }

  ghost predicate ByDeadLetter(before: map<Id, DeadLetterEntry>, after: map<Id, DeadLetterEntry>, d: Id) {
    exists x :: Changed(before, after, x) && after[x].deliveryId == d
  }

  /** A changed delivery is accounted for by its dispatch, or by a plan, a feedback or a dead letter of its own
      that changed with it. */
  ghost predicate DeliveryAccounted(before: Committed, plans: map<Id, RetryPlan>, feedbacks: map<Id, Feedback>,
                                    entries: map<Id, DeadLetterEntry>, news: seq<AuditEntry>, id: Id, status: DeliveryStatus)
  {
    || DispatchTold(news, id, status)
    || ByPlan(before.plans, plans, id)
    || ByFeedback(before.feedbacks, feedbacks, id)
    || (status == DeadLettered && ByDeadLetter(before.deadLetters, entries, id))
  }

  ghost predicate DeliveriesAccounted(before: Committed, after: Committed, news: seq<AuditEntry>) {
    forall id | Changed(before.deliveries, after.deliveries, id) ::
      DeliveryAccounted(before, after.plans, after.feedbacks, after.deadLetters, news, id, after.deliveries[id].status)
  }

  /** Every record that differs is accounted for by the entries appended meanwhile: plans, dead letters,
      replay preparations and feedback under their own subjects with the action that wrote them. */
  ghost predicate Accounted(before: Committed, after: Committed, news: seq<AuditEntry>) {
    && PlansAccounted(before.plans, after.plans, news)
    && DeadLettersAccounted(before.deadLetters, after.deadLetters, news)
    && ReplaysAccounted(before.replays, after.replays, news)
    && FeedbacksAccounted(before.feedbacks, after.feedbacks, news)
    && DeliveriesAccounted(before, after, news)
  }

  lemma ChangedIsStaged<V(!new)>(before: map<Id, V>, staged: map<Id, V>)
    ensures forall id | Changed(before, before + staged, id) :: id in staged && (before + staged)[id] == staged[id]
  {
  }

  lemma TablesAccounted(c: Committed, s: Staged)
    requires Told(c.plans, s)
    ensures PlansAccounted(c.plans, c.plans + s.plans, s.audits)
    ensures DeadLettersAccounted(c.deadLetters, c.deadLetters + s.deadLetters, s.audits)
    ensures ReplaysAccounted(c.replays, c.replays + s.replays, s.audits)
    ensures FeedbacksAccounted(c.feedbacks, c.feedbacks + s.feedbacks, s.audits)
  {
    hide DeliveryTold, LoggedAs, PlanAction;
    ChangedIsStaged(c.plans, s.plans);
    ChangedIsStaged(c.deadLetters, s.deadLetters);
    ChangedIsStaged(c.replays, s.replays);
    ChangedIsStaged(c.feedbacks, s.feedbacks);
  }

  // A lawful transaction changes every plan, feedback and dead letter it stages.

  lemma PlanChanged(plans: map<Id, RetryPlan>, staged: map<Id, RetryPlan>, p: Id)
    requires PlansLawful(plans, staged) && p in staged
    ensures ByPlan(plans, plans + staged, staged[p].deliveryId)
  {
    assert PlanLawful(plans, p, staged[p]);
    assert Changed(plans, plans + staged, p);
  }

  lemma FeedbackChanged(feedbacks: map<Id, Feedback>, staged: map<Id, Feedback>, f: Id)
    requires f in staged && f !in feedbacks
    ensures ByFeedback(feedbacks, feedbacks + staged, staged[f].deliveryId)
  {
    assert Changed(feedbacks, feedbacks + staged, f);
  }

  lemma DeadLetterChanged(entries: map<Id, DeadLetterEntry>, staged: map<Id, DeadLetterEntry>, x: Id)
    requires x in staged && x !in entries
    ensures ByDeadLetter(entries, entries + staged, staged[x].deliveryId)
  {
    assert Changed(entries, entries + staged, x);
  }

  lemma LawfulParts(c: Committed, s: Staged)
    requires LawfulTables(c, s)
    ensures Told(c.plans, s) && PlansLawful(c.plans, s.plans)
    ensures forall f | f in s.feedbacks :: f !in c.feedbacks
    ensures forall x | x in s.deadLetters :: x !in c.deadLetters
  {
  }

  lemma DeliveryIsAccounted(c: Committed, s: Staged, id: Id)
    requires LawfulTables(c, s) && id in s.deliveries
    ensures DeliveryAccounted(c, c.plans + s.plans, c.feedbacks + s.feedbacks, c.deadLetters + s.deadLetters, s.audits, id,
                              s.deliveries[id].status)
  {
    hide LawfulTables, DispatchTold, PlansLawful, ByPlan, ByFeedback, ByDeadLetter;
    LawfulParts(c, s);
    assert DeliveryTold(s, id, s.deliveries[id]);
    if p :| p in s.plans && s.plans[p].deliveryId == id {
      PlanChanged(c.plans, s.plans, p);
    } else if f :| f in s.feedbacks && s.feedbacks[f].deliveryId == id {
      FeedbackChanged(c.feedbacks, s.feedbacks, f);
    } else if x :| x in s.deadLetters && s.deadLetters[x].deliveryId == id && s.deliveries[id].status == DeadLettered {
      DeadLetterChanged(c.deadLetters, s.deadLetters, x);
    }
  }

  lemma CommitAccounted(c: Committed, s: Staged)
    requires LawfulTables(c, s)
    ensures Accounted(c, Overlay(c, s), s.audits)
  {
    hide LawfulTables, Told, DeliveryAccounted;
    hide PlansAccounted, DeadLettersAccounted, ReplaysAccounted, FeedbacksAccounted;
    LawfulParts(c, s);
    TablesAccounted(c, s);
    ChangedIsStaged(c.deliveries, s.deliveries);
    forall id | id in s.deliveries
      ensures DeliveryAccounted(c, c.plans + s.plans, c.feedbacks + s.feedbacks, c.deadLetters + s.deadLetters, s.audits, id,
                                s.deliveries[id].status)
    {
      DeliveryIsAccounted(c, s, id);
    }
  }

  lemma NothingAccounted(c: Committed, news: seq<AuditEntry>)
    ensures Accounted(c, c, news)
  {
  }

  lemma AccessAccounted(c: Committed, e: AuditEntry)
    ensures Accounted(c, AppendAccess(c, e), AppendAccess(c, e).audits[|c.audits|..])
  {
  }

  lemma NewsOf(c: Committed, s: Staged)
    ensures |c.audits| <= |Overlay(c, s).audits| && Overlay(c, s).audits[|c.audits|..] == s.audits
  {
  }

  lemma MoveAccounted(c: Committed, m: Move)
    requires LawfulMove(c, m)
    ensures |c.audits| <= |After(c, m.exit).audits|
    ensures Accounted(c, After(c, m.exit), After(c, m.exit).audits[|c.audits|..])
  {
    match m.exit {
      case Commits(s) =>
        hide *;
        CommitIsAccounted(c, m, s);
      case Appends(e) =>
        hide Accounted;
        AccessAccounted(c, e);
      case _ =>
        hide Accounted;
        NothingAccounted(c, c.audits[|c.audits|..]);
    }
  }

  lemma CommitIsAccounted(c: Committed, m: Move, s: Staged)
    requires LawfulMove(c, m) && m.exit == Commits(s)
    ensures |c.audits| <= |After(c, m.exit).audits|
    ensures Accounted(c, After(c, m.exit), After(c, m.exit).audits[|c.audits|..])
  {
    hide Accounted, LawfulTables, Balanced, Lowers, Overlay;
    NewsOf(c, s);
    CommitAccounted(c, s);
  }

  /** Nothing changes silently: after any service call, every plan, dead letter, replay preparation, feedback
      and delivery that differs is accounted for by the audit entries the call appended. */
  lemma ChangesAreAccounted(c: Committed, t: Turn)
    requires Inv(c)
    ensures |c.audits| <= |Taken(c, t).audits|
    ensures Accounted(c, Taken(c, t), Taken(c, t).audits[|c.audits|..])
  {
    hide ExitOf, Accounted, Inv;
    MoveOfLawful(c, t);
    MoveAccounted(c, MoveOf(c, t));
  }
}
