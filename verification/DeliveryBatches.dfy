/** One progression batch: a page of schedulable deliveries dispatched one after another. */
module DeliveryBatches {
  import opened Common
  import opened Records
  import opened StoreModel
  import opened Steps
  import opened Jobs
  import opened DeliverySteps

  /** What the clock and the backend answer to one dispatch. */
  datatype DispatchAnswer = DispatchAnswer(startedAt: Timestamp, answer: Result<BackendResult, TransportError>, finishedAt: Timestamp)

  datatype BatchJob = BatchJob(actor: Actor, trace: Id, answers: nat -> DispatchAnswer)

  function BatchStep(st: State, d: Delivery, job: BatchJob, i: nat): Step<Progress> {
    var turn := job.answers(i);
    ProgressOne(st.committed, d.deliveryId, job.actor, job.trace, turn.startedAt, turn.answer, turn.finishedAt, st.faults)
  }

  /** The state after the deliveries have been dispatched in order. */
  function Batch(st: State, page: seq<Delivery>, job: BatchJob): State
    decreases |page|
  {
    if page == [] then st
    else
      var n := |page| - 1;
      var before := Batch(st, page[..n], job);
      Next(before, BatchStep(before, page[n], job, n))
  }

  function ItemOf(outcome: Result<Progress, ServiceError>): ItemResult {
    match outcome
    case Ok(progress) => if progress.finalStatus == Delivered then Done else FailedItem
    case Err(error) => if error.ConflictError? || error.NotFoundError? then SetAside else FailedItem
  }

  function BatchItems(st: State, page: seq<Delivery>, job: BatchJob): seq<ItemResult>
    decreases |page|
  {
    if page == [] then []
    else
      var n := |page| - 1;
      BatchItems(st, page[..n], job) + [ItemOf(BatchStep(Batch(st, page[..n], job), page[n], job, n).outcome)]
  }

  /** The identifier of the last scanned delivery, or the cursor itself when none was schedulable. */
  function CursorAfter(page: seq<Delivery>, cursor: string): string {
    if page == [] then cursor else page[|page| - 1].deliveryId
  }

  lemma OneDispatchMore(st: State, page: seq<Delivery>, job: BatchJob, i: nat)
    requires i < |page|
    ensures var before := Batch(st, page[..i], job);
      && Batch(st, page[..i + 1], job) == Next(before, BatchStep(before, page[i], job, i))
      && BatchItems(st, page[..i + 1], job)
         == BatchItems(st, page[..i], job) + [ItemOf(BatchStep(before, page[i], job, i).outcome)]
  {
    assert page[..i + 1][..i] == page[..i];
  }
}
