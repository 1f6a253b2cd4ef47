/** One retry cycle: a page of due plans run one after another, whatever each run comes to. */
module RetryCycles {
  import opened Common
  import opened Records
  import opened StoreModel
  import opened Steps
  import opened Jobs
  import opened RecoverySteps

  /** What every run of a cycle is given; the outside answers each run by its place in the page. */
  datatype CycleJob = CycleJob(actor: Actor, trace: Id, now: Timestamp, answers: nat -> RunPorts)

  function CycleStep(st: State, p: RetryPlan, job: CycleJob, i: nat): Step<PlanRun> {
    RunPlan(st.committed, p, job.actor, job.trace, job.now, job.answers(i), st.faults)
  }

  /** The state after the plans have been run in order. */
  function Cycle(st: State, plans: seq<RetryPlan>, job: CycleJob): State
    decreases |plans|
  {
    if plans == [] then st
    else
      var n := |plans| - 1;
      var before := Cycle(st, plans[..n], job);
      Next(before, CycleStep(before, plans[n], job, n))
  }

  function ItemOf(outcome: Result<PlanRun, ServiceError>): ItemResult {
    match outcome
    case Ok(Retried(_)) => Done
    case Ok(Exhausted(_)) => SetAside
    case Err(_) => FailedItem
  }

  function CycleItems(st: State, plans: seq<RetryPlan>, job: CycleJob): seq<ItemResult>
    decreases |plans|
  {
    if plans == [] then []
    else
      var n := |plans| - 1;
      CycleItems(st, plans[..n], job) + [ItemOf(CycleStep(Cycle(st, plans[..n], job), plans[n], job, n).outcome)]
  }

  /** The identifier of the last scanned plan, or the cursor itself when nothing was due. */
  function CursorAfter(plans: seq<RetryPlan>, cursor: string): string {
    if plans == [] then cursor else plans[|plans| - 1].retryPlanId
  }

  lemma OneRunMore(st: State, plans: seq<RetryPlan>, job: CycleJob, i: nat)
    requires i < |plans|
    ensures var before := Cycle(st, plans[..i], job);
      && Cycle(st, plans[..i + 1], job) == Next(before, CycleStep(before, plans[i], job, i))
      && CycleItems(st, plans[..i + 1], job)
         == CycleItems(st, plans[..i], job) + [ItemOf(CycleStep(before, plans[i], job, i).outcome)]
  {
    assert plans[..i + 1][..i] == plans[..i];
  }
}
