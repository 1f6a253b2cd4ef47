/** The outbox relay: one page of committed facts handed to publication acceptance and acknowledged. */
module OutboxRelay {
  import opened Common
  import opened Records
  import opened StoreModel
  import opened Store
  import opened Steps
  import opened Adapters
  import opened Jobs
  import opened PublicationRules
  import opened PublicationSteps
  import opened PublicationServices
  import opened OutboxSource

  /** What the outside supplies: identifiers and clocks for each acceptance, and the failure armed in the
      source before each acknowledgement, if any. */
  datatype RelayJob = RelayJob(actor: Actor, trace: Id, ports: nat -> Ports, ackFailures: nat -> Option<SourceError>)

  /** The bus, the source's facts, its armed failure and how the facts so far ended. */
  datatype Progress = Progress(st: State, facts: seq<StoredFact>, armed: Option<SourceError>, items: seq<ItemResult>)

  /** The fact has been decided, one way or the other. */
  predicate Settled(outcome: Result<RelayReceipt, ServiceError>) {
    outcome.Ok? || outcome.error.IsRejectedItem()
  }

  function Consume(before: Progress, fact: OutboxFact, job: RelayJob, i: nat): Step<RelayReceipt> {
    AcceptFact(before.st.committed, fact, job.actor, job.trace, job.ports(i), before.st.faults)
  }

  /** One fact: accepted or rejected, then acknowledged; a fact that is neither, or whose
      acknowledgement fails, has failed and stays pending. */
  function RelayOne(before: Progress, fact: OutboxFact, job: RelayJob, i: nat): Progress {
    var step := Consume(before, fact, job, i);
    var armed := if job.ackFailures(i).Some? then job.ackFailures(i) else before.armed;
    var after := Next(before.st, step);
    if !Settled(step.outcome) then Progress(after, before.facts, armed, before.items + [FailedItem])
    else if armed.Some? then Progress(after, before.facts, None, before.items + [FailedItem])
    else if !Lists(before.facts, fact.factRef) then Progress(after, before.facts, None, before.items + [FailedItem])
    else
      Progress(after, Acknowledged(before.facts, fact.factRef, MARKER), None,
               before.items + [if step.outcome.Ok? then Done else SetAside])
  }

  function Relay(start: Progress, page: seq<OutboxFact>, job: RelayJob): Progress
    decreases |page|
  {
    if page == [] then start
    else RelayOne(Relay(start, page[..|page| - 1], job), page[|page| - 1], job, |page| - 1)
  }

  lemma OneFactMore(start: Progress, page: seq<OutboxFact>, job: RelayJob, i: nat)
    requires i < |page|
    ensures Relay(start, page[..i + 1], job) == RelayOne(Relay(start, page[..i], job), page[i], job, i)
  {
    assert page[..i + 1][..i] == page[..i];
  }

  /** A cursor past a fact that failed would lose it, so the relay then stays where it was. */
  function NextCursor(cursor: string, page: Page, items: seq<ItemResult>): string {
    if FailedItem in items then cursor else page.nextCursor
  }

  class OutboxRelayService {
    const source: SharedOutboxSource
    const publication: PublicationAcceptanceService

    constructor (source: SharedOutboxSource, publication: PublicationAcceptanceService)
      ensures this.source == source && this.publication == publication
    {
      this.source, this.publication := source, publication;
    }

    ghost predicate Ready()
      reads publication.deps.store
    {
      publication.deps.Ready()
    }

    ghost function Current(): State
      reads publication.deps.store, publication.deps.unitOfWork, publication.deps.auditTrail
    {
      State(publication.deps.Seen().committed, publication.deps.Seen().faults)
    }

    /** Acknowledges a settled fact. */
    method Acknowledge(factRef: Id) returns (acked: bool)
      modifies source`facts, source`failNextAck
      ensures acked <==> old(source.failNextAck).None? && Lists(old(source.facts), factRef)
      ensures source.facts == if acked then Acknowledged(old(source.facts), factRef, MARKER) else old(source.facts)
      ensures source.failNextAck == None
    {
      AcknowledgedNone(source.facts, factRef, MARKER);
      var r := source.AckConsumed(factRef, MARKER);
      acked := r.Ok?;
    }

    /** Hands one fact to publication acceptance and acknowledges it when it is settled. */
    method RelayFact(fact: OutboxFact, job: RelayJob, i: nat, ghost items: seq<ItemResult>) returns (item: ItemResult)
      requires Ready()
      modifies publication.deps.store, publication.deps.unitOfWork, publication.deps.auditTrail
      modifies source`facts, source`failNextAck
      ensures Ready()
      ensures Progress(Current(), source.facts, source.failNextAck, items + [item]) ==
              RelayOne(Progress(old(Current()), old(source.facts), old(source.failNextAck), items), fact, job, i)
    {
      hide AcceptFact, Overlay;
      if job.ackFailures(i).Some? {
        source.FailNextAck(job.ackFailures(i).value);
      }
      var consumed := publication.AcceptFromOutboxFact(fact, job.actor, job.trace, job.ports(i));
      match consumed {
        case Ok(_) =>
          var acked := Acknowledge(fact.factRef);
          item := if acked then Done else FailedItem;
        case Err(error) =>
          if error.IsRejectedItem() {
            var acked := Acknowledge(fact.factRef);
            item := if acked then SetAside else FailedItem;
          } else {
            item := FailedItem;
          }
      }
    }

    method Tally(result: JobSummary, ghost items: seq<ItemResult>, item: ItemResult) returns (failed: bool)
      requires result.Counts(items)
      modifies result`scanned, result`finished, result`setAside
      ensures result.Counts(items + [item]) && (failed <==> item == FailedItem)
    {
      match item {
        case Done => result.RecordDone(items);
        case SetAside => result.RecordSetAside(items);
        case FailedItem => result.RecordFailed(items);
      }
      failed := item == FailedItem;
    }

    /** Relays one page. The cursor advances only when every fact of the page was acknowledged. */
    method Run(cursor: string, batchSize: nat, job: RelayJob) returns (r: Result<JobSummary, SourceError>)
      requires Ready()
      modifies publication.deps.store, publication.deps.unitOfWork, publication.deps.auditTrail, source
      ensures Ready()
      ensures var polled := match old(source.failNextPoll) case Some(e) => Err(e) case None => Poll(old(source.facts), cursor, batchSize);
        match polled
        case Err(e) => r == Err(e) && Current() == old(Current()) && source.facts == old(source.facts)
        case Ok(page) =>
          var end := Relay(Progress(old(Current()), old(source.facts), old(source.failNextAck), []), page.items, job);
          && r.Ok? && Current() == end.st && source.facts == end.facts && source.failNextAck == end.armed
          && fresh(r.value) && r.value.Counts(end.items) && r.value.nextCursor == NextCursor(cursor, page, end.items)
    {
      hide Poll, Count, AcceptFact;
      var polled := source.PollCommitted(cursor, batchSize);
      if polled.Err? {
        return Err(polled.error);
      }
      var page := polled.value;
      var result := new JobSummary(page.nextCursor);
      var cursorMustReplay := false;
      ghost var start := Progress(old(Current()), old(source.facts), old(source.failNextAck), []);
      ghost var items: seq<ItemResult> := [];
      for i := 0 to |page.items|
        invariant Ready() && fresh(result)
        invariant Progress(Current(), source.facts, source.failNextAck, items) == Relay(start, page.items[..i], job)
        invariant result.Counts(items) && result.nextCursor == page.nextCursor
        invariant cursorMustReplay <==> FailedItem in items
      {
        OneFactMore(start, page.items, job, i);
        hide Relay, RelayOne;
        var item := RelayFact(page.items[i], job, i, items);
        var failed := Tally(result, items, item);
        cursorMustReplay := cursorMustReplay || failed;
        items := items + [item];
      }
      assert page.items[..|page.items|] == page.items;
      if cursorMustReplay {
        result.SetNextCursor(cursor);
      }
      r := Ok(result);
    }
  }
}
