/** The summary a batch job returns. The relay counts accepted and rejected facts, delivery
    progression dispatched and skipped deliveries, the retry cycle retried and exhausted plans;
    each summary keeps the same three counters and a cursor. */
module Jobs {
  import opened Common

  /** What became of one scanned item. */
  datatype ItemResult = Done | SetAside | FailedItem

  function Count(items: seq<ItemResult>, kind: ItemResult): nat {
    if items == [] then 0
    else Count(items[..|items| - 1], kind) + (if items[|items| - 1] == kind then 1 else 0)
  }

  class JobSummary {
    var scanned: nat
    var finished: nat
    var setAside: nat
    var nextCursor: string

    /** The counters of a batch whose items ended so. */
    ghost predicate Counts(items: seq<ItemResult>)
      reads this
    {
      scanned == |items| && finished == Count(items, Done) && setAside == Count(items, SetAside)
    }

    constructor (nextCursor: string)
      ensures Counts([]) && this.nextCursor == nextCursor
    {
      scanned, finished, setAside, this.nextCursor := 0, 0, 0, nextCursor;
    }

    method RecordDone(ghost items: seq<ItemResult>)
      requires Counts(items)
      modifies this`scanned, this`finished
      ensures Counts(items + [Done])
    {
      scanned := scanned + 1;
      finished := finished + 1;
      OneMore(items, Done);
    }

    method RecordSetAside(ghost items: seq<ItemResult>)
      requires Counts(items)
      modifies this`scanned, this`setAside
      ensures Counts(items + [SetAside])
    {
      scanned := scanned + 1;
      setAside := setAside + 1;
      OneMore(items, SetAside);
    }

    method RecordFailed(ghost items: seq<ItemResult>)
      requires Counts(items)
      modifies this`scanned
      ensures Counts(items + [FailedItem])
    {
      scanned := scanned + 1;
      OneMore(items, FailedItem);
    }

    method SetNextCursor(cursor: string)
      modifies this`nextCursor
      ensures nextCursor == cursor
    {
      nextCursor := cursor;
    }

    /** The subtraction never underflows and yields exactly the failed items. */
    method Failed(ghost items: seq<ItemResult>) returns (n: nat)
      requires Counts(items)
      ensures n == Count(items, FailedItem)
    {
      CountsAddUp(items);
      n := scanned - finished - setAside;
    }
  }

  lemma OneMore(items: seq<ItemResult>, item: ItemResult)
    ensures forall kind :: Count(items + [item], kind) == Count(items, kind) + (if item == kind then 1 else 0)
  {
    assert (items + [item])[..|items|] == items;
  }

  lemma {:induction false} CountsAddUp(items: seq<ItemResult>)
    ensures Count(items, Done) + Count(items, SetAside) + Count(items, FailedItem) == |items|
  {
    if items != [] {
      CountsAddUp(items[..|items| - 1]);
    }
  }
}
