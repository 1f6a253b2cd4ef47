/** Retry budgets summed over the plans of a delivery. */
module Budgets {
  import opened Common
  import opened Records

  function Weight(p: RetryPlan, d: Id): int {
    if p.deliveryId == d then p.maxAttempts - p.remainingAttempts else 0
  }

  /** Attempts the delivery's plans have paid for. */
  ghost function Spent(plans: map<Id, RetryPlan>, d: Id): int
    decreases |plans|
  {
    if plans == map[] then 0
    else
      var k :| k in plans;
      Weight(plans[k], d) + Spent(plans - {k}, d)
  }

  lemma {:induction false} SpentPick(plans: map<Id, RetryPlan>, k: Id, d: Id)
    requires k in plans
    ensures Spent(plans, d) == Weight(plans[k], d) + Spent(plans - {k}, d)
    decreases |plans|
  {
    var j :| j in plans && Spent(plans, d) == Weight(plans[j], d) + Spent(plans - {j}, d);
    if j != k {
      SpentPick(plans - {j}, k, d);
      SpentPick(plans - {k}, j, d);
      assert plans - {j} - {k} == plans - {k} - {j};
    }
  }

  lemma SpentWrite(plans: map<Id, RetryPlan>, k: Id, p: RetryPlan, d: Id)
    ensures Spent(plans + map[k := p], d) ==
            Spent(plans, d) + Weight(p, d) - (if k in plans then Weight(plans[k], d) else 0)
  {
    var after := plans + map[k := p];
    SpentPick(after, k, d);
    if k in plans {
      SpentPick(plans, k, d);
      assert after - {k} == plans - {k};
    } else {
      assert after - {k} == plans;
    }
  }

  /** The whole budget of the delivery's plans. */
  ghost function Budget(plans: map<Id, RetryPlan>, d: Id): int
    decreases |plans|
  {
    if plans == map[] then 0
    else
      var k :| k in plans;
      (if plans[k].deliveryId == d then plans[k].maxAttempts else 0) + Budget(plans - {k}, d)
  }

  lemma {:induction false} BudgetPick(plans: map<Id, RetryPlan>, k: Id, d: Id)
    requires k in plans
    ensures Budget(plans, d) == (if plans[k].deliveryId == d then plans[k].maxAttempts else 0) + Budget(plans - {k}, d)
    decreases |plans|
  {
    var j :| j in plans
      && Budget(plans, d) == (if plans[j].deliveryId == d then plans[j].maxAttempts else 0) + Budget(plans - {j}, d);
    if j != k {
      BudgetPick(plans - {j}, k, d);
      BudgetPick(plans - {k}, j, d);
      assert plans - {j} - {k} == plans - {k} - {j};
    }
  }

  lemma {:induction false} SpentWithinBudget(plans: map<Id, RetryPlan>, d: Id)
    ensures Spent(plans, d) <= Budget(plans, d)
    decreases |plans|
  {
    if plans != map[] {
      var k :| k in plans;
      SpentPick(plans, k, d);
      BudgetPick(plans, k, d);
      SpentWithinBudget(plans - {k}, d);
    }
  }
}
