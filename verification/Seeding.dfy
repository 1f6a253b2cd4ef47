/** Seeding a bus: from the empty store, any well-formed seeds give a state the invariant holds of. */
module Seeding {
  import opened Common
  import opened Records
  import opened StoreModel
  import opened Indexes
  import opened Invariants
  import opened Runs
  import Rules = DeliveryRules

  lemma EmptySound()
    ensures Inv(EMPTY)
  {
  }

  lemma DeliverySeedKeeps(c: Committed, d: Delivery)
    requires Inv(c) && d.deliveryId !in c.deliveries && Rules.WellFormed(d)
    ensures Inv(SeededDelivery(c, d))
  {
    hide Rules.WellFormed;
    WellFormedSeed(d);
    var after := SeededDelivery(c, d);
    forall id | id in c.deadLetters ensures EntryOk(c.deadLetters[id], after.deliveries) {
      assert EntryOk(c.deadLetters[id], c.deliveries);
    }
  }

  /** The stored version is no part of what makes a delivery well formed. */
  lemma WellFormedSeed(d: Delivery)
    requires Rules.WellFormed(d)
    ensures Rules.WellFormed(d.(version := 1))
  {
    Rules.KeepsAttempts(d, d.(version := 1));
  }

  lemma PlanSeedKeeps(c: Committed, p: RetryPlan)
    requires Inv(c) && !PlanSeedRefused(c, p) && p.remainingAttempts <= p.maxAttempts
    ensures Inv(SeededPlan(c, p))
  {
    hide PlanIndexStep, DeliveriesOk, PlansOk, DeadLettersOk, MaterialsOk, ReplaysOk, AnchorsOk;
    hide PlansIndexed, DeadLettersIndexed, FeedbackIndexed, ReplaysIndexed;
    var stored := p.(version := 1);
    SeededPlansOk(c.plans, c.planVersions, stored);
    PlanWriteKeepsIndexIff(c.plans, c.activePlans, p.retryPlanId, stored);
    UnlistedPlan(c.plans, c.activePlans, stored);
  }

  lemma SeededPlansOk(plans: map<Id, RetryPlan>, versions: map<Id, nat>, p: RetryPlan)
    requires PlansOk(plans, versions) && p.remainingAttempts <= p.maxAttempts && p.version == 1
    ensures PlansOk(plans[p.retryPlanId := p], versions[p.retryPlanId := 1])
  {
  }

  /** A plan that is not stored is not active either. */
  lemma UnlistedPlan(plans: map<Id, RetryPlan>, active: map<Id, Id>, p: RetryPlan)
    requires PlansIndexed(plans, active) && p.retryPlanId !in plans
    ensures PlanIndexStep(active, p.retryPlanId, p) ==
            if p.status == PlanScheduled then active[p.deliveryId := p.retryPlanId] else active
  {
    if p.deliveryId in active {
      assert Listed(plans, p.deliveryId, active[p.deliveryId]);
    }
  }

  lemma MaterialSeedKeeps(c: Committed, m: FailureMaterial)
    requires Inv(c) && m.failureMaterialId !in c.failureMaterials && LinkOk(m, c.deadLetters)
    ensures Inv(SeededMaterial(c, m))
  {
  }

  datatype Seed = DeliverySeed(delivery: Delivery) | PlanSeed(plan: RetryPlan) | MaterialSeed(material: FailureMaterial)

  /** A seed already present, or a second scheduled plan for a delivery, is refused. */
  function Sow(c: Committed, seed: Seed): Committed {
    match seed
    case DeliverySeed(d) => if d.deliveryId in c.deliveries then c else SeededDelivery(c, d)
    case PlanSeed(p) => if PlanSeedRefused(c, p) then c else SeededPlan(c, p)
    case MaterialSeed(m) => if m.failureMaterialId in c.failureMaterials then c else SeededMaterial(c, m)
  }

  /** What a seed must look like on its own; nothing in the store checks it. */
  ghost predicate Proper(seed: Seed) {
    match seed
    case DeliverySeed(d) => Rules.WellFormed(d)
    case PlanSeed(p) => p.remainingAttempts <= p.maxAttempts
    case MaterialSeed(m) => m.deadLetterRef == None
  }

  function Sown(c: Committed, seeds: seq<Seed>): Committed
    decreases |seeds|
  {
    if seeds == [] then c else Sow(Sown(c, seeds[..|seeds| - 1]), seeds[|seeds| - 1])
  }

  lemma SowKeeps(c: Committed, seed: Seed)
    requires Inv(c) && Proper(seed)
    ensures Inv(Sow(c, seed))
  {
    hide Inv, Rules.WellFormed, PlanSeedRefused;
    match seed
    case DeliverySeed(d) =>
      if d.deliveryId !in c.deliveries {
        DeliverySeedKeeps(c, d);
      }
    case PlanSeed(p) =>
      if !PlanSeedRefused(c, p) {
        PlanSeedKeeps(c, p);
      }
    case MaterialSeed(m) =>
      if m.failureMaterialId !in c.failureMaterials {
        MaterialSeedKeeps(c, m);
      }
  }

  lemma {:induction false} SownSound(seeds: seq<Seed>)
    requires forall seed | seed in seeds :: Proper(seed)
    ensures Inv(Sown(EMPTY, seeds))
    decreases |seeds|
  {
    hide Inv, Proper;
    EmptySound();
    if seeds != [] {
      SownSound(seeds[..|seeds| - 1]);
      SowKeeps(Sown(EMPTY, seeds[..|seeds| - 1]), seeds[|seeds| - 1]);
    }
  }

  /** Every state reachable from a seeded bus by service calls satisfies the invariant. */
  lemma ReachableSound(seeds: seq<Seed>, turns: seq<Turn>)
    requires forall seed | seed in seeds :: Proper(seed)
    ensures Inv(Run(Sown(EMPTY, seeds), turns))
  {
    hide Inv, Proper, Run, Sown;
    SownSound(seeds);
    RunKeeps(Sown(EMPTY, seeds), turns);
  }
}
