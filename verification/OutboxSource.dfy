/** The committed outbox: facts in seeding order, cursors into them, acknowledgement markers. */
module OutboxSource {
  import opened Common
  import opened PublicationRules

  datatype SourceError = SourceUnavailable | CursorInvalid | AckFailed | SourceBoundaryViolation

  datatype StoredFact = StoredFact(cursor: string, fact: OutboxFact, marker: Option<Id>)

  datatype Page = Page(items: seq<OutboxFact>, nextCursor: string)

  const ORIGIN: string := "origin"

  /** The marker the bus acknowledges with. */
  const MARKER: Id := "bus"

  function CursorOf(factRef: Id): string {
    "outbox_cursor_" + factRef
  }

  /** Every fact is stored under the cursor of its reference, and references are unique. */
  ghost predicate Catalogued(facts: seq<StoredFact>) {
    && (forall i | 0 <= i < |facts| :: facts[i].cursor == CursorOf(facts[i].fact.factRef))
    && (forall i, j | 0 <= i < j < |facts| :: facts[i].fact.factRef != facts[j].fact.factRef)
  }

  predicate Lists(facts: seq<StoredFact>, factRef: Id) {
    exists i | 0 <= i < |facts| :: facts[i].fact.factRef == factRef
  }

  /** The position of a cursor: how many facts it has left behind. */
  function PositionOf(facts: seq<StoredFact>, cursor: string): (n: Option<nat>)
    ensures n.Some? ==> n.value <= |facts|
    decreases |facts|
  {
    if cursor == ORIGIN then Some(0)
    else if facts == [] then None
    else
      match PositionOf(facts[..|facts| - 1], cursor)
      case Some(n) => Some(n)
      case None => if facts[|facts| - 1].cursor == cursor then Some(|facts|) else None
  }

  /** The facts not yet acknowledged, in order. */
  function Unacknowledged(facts: seq<StoredFact>): seq<OutboxFact>
    decreases |facts|
  {
    if facts == [] then []
    else Unacknowledged(facts[..|facts| - 1]) + (if facts[|facts| - 1].marker.None? then [facts[|facts| - 1].fact] else [])
  }

  /** Where a poll from `start` stops: when its page is full, or at the end. */
  function Reach(facts: seq<StoredFact>, start: nat, limit: nat): (end: nat)
    requires start <= |facts|
    ensures start <= end <= |facts|
    decreases |facts| - start
  {
    if start == |facts| || limit == 0 then start
    else Reach(facts, start + 1, if facts[start].marker.None? then limit - 1 else limit)
  }

  function CursorAt(facts: seq<StoredFact>, start: nat, end: nat, cursor: string): string
    requires start <= end <= |facts|
  {
    if end == start then cursor else facts[end - 1].cursor
  }

  function Poll(facts: seq<StoredFact>, cursor: string, limit: nat): Result<Page, SourceError> {
    if limit == 0 then Ok(Page([], cursor))
    else
      match PositionOf(facts, cursor)
      case None => Err(CursorInvalid)
      case Some(start) =>
        var end := Reach(facts, start, limit);
        Ok(Page(Unacknowledged(facts[start..end]), CursorAt(facts, start, end, cursor)))
  }

  /** The facts with the referenced one marked. */
  function Acknowledged(facts: seq<StoredFact>, factRef: Id, marker: Id): seq<StoredFact>
    decreases |facts|
  {
    if facts == [] then []
    else if facts[0].fact.factRef == factRef then [facts[0].(marker := Some(marker))] + facts[1..]
    else [facts[0]] + Acknowledged(facts[1..], factRef, marker)
  }

  /** Marking changes the first fact with the reference alone. */
  lemma {:induction false} AcknowledgedAt(facts: seq<StoredFact>, i: nat, marker: Id)
    requires i < |facts| && forall k | 0 <= k < i :: facts[k].fact.factRef != facts[i].fact.factRef
    ensures Acknowledged(facts, facts[i].fact.factRef, marker) == facts[i := facts[i].(marker := Some(marker))]
  {
    if i > 0 {
      AcknowledgedAt(facts[1..], i - 1, marker);
    }
  }

  lemma {:induction false} AcknowledgedNone(facts: seq<StoredFact>, factRef: Id, marker: Id)
    ensures !Lists(facts, factRef) ==> Acknowledged(facts, factRef, marker) == facts
  {
    if !Lists(facts, factRef) && facts != [] {
      assert facts[0].fact.factRef != factRef;
      forall i | 0 <= i < |facts[1..]| ensures facts[1..][i].fact.factRef != factRef {
        assert facts[i + 1].fact.factRef != factRef;
      }
      AcknowledgedNone(facts[1..], factRef, marker);
    }
  }

  // ---------------------------------------------------------------- cursors

  /** No fact's cursor is the origin, and distinct facts have distinct cursors. */
  lemma CursorsDiffer(facts: seq<StoredFact>, i: nat, j: nat)
    requires Catalogued(facts) && i < j < |facts|
    ensures facts[i].cursor != ORIGIN && facts[j].cursor != ORIGIN && facts[i].cursor != facts[j].cursor
  {
    var a, b := facts[i].cursor, facts[j].cursor;
    assert a[1] == 'u' && b[1] == 'u' && ORIGIN[1] == 'r';
    assert a[|"outbox_cursor_"|..] == facts[i].fact.factRef && b[|"outbox_cursor_"|..] == facts[j].fact.factRef;
  }

  /** A fact's cursor leaves exactly the facts up to it behind. */
  lemma {:induction false} PositionAfter(facts: seq<StoredFact>, i: nat)
    requires Catalogued(facts) && i < |facts|
    ensures PositionOf(facts, facts[i].cursor) == Some(i + 1)
    decreases |facts|
  {
    var n := |facts| - 1;
    assert facts[i].cursor[1] == 'u' && ORIGIN[1] == 'r';
    if i < n {
      PositionAfter(facts[..n], i);
    } else {
      NotBefore(facts, n);
    }
  }

  lemma {:induction false} NotBefore(facts: seq<StoredFact>, n: nat)
    requires Catalogued(facts) && n < |facts|
    ensures forall m | 0 <= m <= n :: PositionOf(facts[..m], facts[n].cursor) == None
  {
    assert facts[n].cursor[1] == 'u' && ORIGIN[1] == 'r';
    var m := 0;
    assert facts[..0] == [];
    while m < n
      invariant 0 <= m <= n
      invariant forall k | 0 <= k <= m :: PositionOf(facts[..k], facts[n].cursor) == None
    {
      CursorsDiffer(facts, m, n);
      assert facts[..m + 1][..m] == facts[..m];
      m := m + 1;
    }
  }

  /** Seeding facts at the end and marking facts do not move a cursor. */
  ghost predicate Grown(before: seq<StoredFact>, after: seq<StoredFact>) {
    && |before| <= |after|
    && forall i | 0 <= i < |before| :: after[i].cursor == before[i].cursor && after[i].fact == before[i].fact
  }

  lemma {:induction false} PositionStable(before: seq<StoredFact>, after: seq<StoredFact>, cursor: string)
    requires Grown(before, after) && PositionOf(before, cursor).Some?
    ensures PositionOf(after, cursor) == PositionOf(before, cursor)
    decreases |after|
  {
    if cursor != ORIGIN {
      var n := |after| - 1;
      if |before| == |after| {
        if PositionOf(before[..n], cursor).Some? {
          PositionStable(before[..n], after[..n], cursor);
        } else {
          NoPosition(before[..n], after[..n], cursor);
        }
      } else {
        PositionStable(before, after[..n], cursor);
      }
    }
  }

  lemma {:induction false} NoPosition(before: seq<StoredFact>, after: seq<StoredFact>, cursor: string)
    requires Grown(before, after) && |before| == |after| && PositionOf(before, cursor).None?
    ensures PositionOf(after, cursor).None?
    decreases |after|
  {
    if after != [] {
      NoPosition(before[..|before| - 1], after[..|after| - 1], cursor);
    }
  }

  // ---------------------------------------------------------------- the source itself

  class SharedOutboxSource {
    var facts: seq<StoredFact>
    var failNextPoll: Option<SourceError>
    var failNextAck: Option<SourceError>

    constructor ()
      ensures facts == [] && failNextPoll == None && failNextAck == None
    {
      facts, failNextPoll, failNextAck := [], None, None;
    }

    method FailNextPoll(error: SourceError)
      modifies this`failNextPoll
      ensures failNextPoll == Some(error)
    {
      failNextPoll := Some(error);
    }

    method FailNextAck(error: SourceError)
      modifies this`failNextAck
      ensures failNextAck == Some(error)
    {
      failNextAck := Some(error);
    }

    /** Appends a fact; a reference already present is refused. */
    method SeedCommitted(fact: OutboxFact) returns (cursor: Option<string>)
      modifies this`facts
      ensures Lists(old(facts), fact.factRef) ==> cursor == None && facts == old(facts)
      ensures !Lists(old(facts), fact.factRef) ==>
        && cursor == Some(CursorOf(fact.factRef))
        && facts == old(facts) + [StoredFact(CursorOf(fact.factRef), fact, None)]
    {
      if Lists(facts, fact.factRef) {
        return None;
      }
      facts := facts + [StoredFact(CursorOf(fact.factRef), fact, None)];
      cursor := Some(CursorOf(fact.factRef));
    }

    /** The page after the cursor: pending facts until it is full; its cursor also passes acknowledged ones. */
    method PollCommitted(cursor: string, limit: nat) returns (r: Result<Page, SourceError>)
      modifies this`failNextPoll
      ensures failNextPoll == None
      ensures r == match old(failNextPoll) case Some(e) => Err(e) case None => Poll(facts, cursor, limit)
    {
      if failNextPoll.Some? {
        r := Err(failNextPoll.value);
        failNextPoll := None;
        return;
      }
      if limit == 0 {
        return Ok(Page([], cursor));
      }
      var position := PositionOf(facts, cursor);
      if position.None? {
        return Err(CursorInvalid);
      }
      var start := position.value;
      var items: seq<OutboxFact> := [];
      var nextCursor := cursor;
      var i := start;
      hide PositionOf;
      assert facts[start..start] == [];
      while i < |facts| && |items| < limit
        invariant facts == old(facts) && failNextPoll == None
        invariant start <= i <= |facts| && |items| <= limit
        invariant items == Unacknowledged(facts[start..i])
        invariant nextCursor == CursorAt(facts, start, i, cursor)
        invariant Reach(facts, i, limit - |items|) == Reach(facts, start, limit)
      {
        hide Unacknowledged;
        OnePending(facts, start, i);
        nextCursor := facts[i].cursor;
        if facts[i].marker.None? {
          items := items + [facts[i].fact];
        }
        i := i + 1;
      }
      r := Ok(Page(items, nextCursor));
    }

    /** Marks the fact; an armed failure is used up instead. */
    method AckConsumed(factRef: Id, marker: Id) returns (r: Result<(), SourceError>)
      modifies this`facts, this`failNextAck
      ensures failNextAck == None
      ensures old(failNextAck).Some? ==> r == Err(old(failNextAck).value) && facts == old(facts)
      ensures old(failNextAck).None? ==> r == if Lists(old(facts), factRef) then Ok(()) else Err(AckFailed)
      ensures old(failNextAck).None? ==> facts == Acknowledged(old(facts), factRef, marker)
    {
      if failNextAck.Some? {
        r := Err(failNextAck.value);
        failNextAck := None;
        return;
      }
      var i := 0;
      while i < |facts| && facts[i].fact.factRef != factRef
        invariant 0 <= i <= |facts|
        invariant forall k | 0 <= k < i :: facts[k].fact.factRef != factRef
      {
        i := i + 1;
      }
      if i == |facts| {
        AcknowledgedNone(facts, factRef, marker);
        return Err(AckFailed);
      }
      AcknowledgedAt(facts, i, marker);
      facts := facts[i := facts[i].(marker := Some(marker))];
      r := Ok(());
    }
  }

  lemma OnePending(facts: seq<StoredFact>, start: nat, i: nat)
    requires start <= i < |facts|
    ensures Unacknowledged(facts[start..i + 1]) == Unacknowledged(facts[start..i]) + (if facts[i].marker.None? then [facts[i].fact] else [])
  {
    assert facts[start..i + 1][..i - start] == facts[start..i];
  }
}
