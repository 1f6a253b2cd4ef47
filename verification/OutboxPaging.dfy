/** Following the outbox cursor amounts to one scan, whatever is seeded and acknowledged meanwhile. */
module OutboxPaging {
  import opened Common
  import opened PublicationRules
  import opened OutboxSource

  // ---------------------------------------------------------------- pages

  lemma {:induction false} PendingConcat(a: seq<StoredFact>, b: seq<StoredFact>)
    ensures Unacknowledged(a + b) == Unacknowledged(a) + Unacknowledged(b)
    decreases |b|
  {
    if b == [] {
      assert a + b == a;
    } else {
      var n := |b| - 1;
      PendingConcat(a, b[..n]);
      assert (a + b)[..|a + b| - 1] == a + b[..n];
    }
  }

  /** A page stops when it is full or the facts end; it never holds more than its limit. */
  lemma {:induction false} PageFills(facts: seq<StoredFact>, start: nat, limit: nat)
    requires start <= |facts|
    ensures var end := Reach(facts, start, limit);
      |Unacknowledged(facts[start..end])| <= limit && (|Unacknowledged(facts[start..end])| < limit ==> end == |facts|)
    decreases |facts| - start
  {
    var end := Reach(facts, start, limit);
    if start == |facts| || limit == 0 {
      assert facts[start..end] == [];
    } else {
      PageFills(facts, start + 1, if facts[start].marker.None? then limit - 1 else limit);
      assert facts[start..end] == [facts[start]] + facts[start + 1..end];
      PendingConcat([facts[start]], facts[start + 1..end]);
      assert [facts[start]][..0] == [];
    }
  }

  // ---------------------------------------------------------------- sessions

  datatype Event = SeedEvent(fact: OutboxFact) | AckEvent(factRef: Id) | PollEvent(limit: nat)

  /** A consumer's cursor into the facts and what its polls have returned so far. */
  datatype Session = Session(facts: seq<StoredFact>, cursor: string, returned: seq<OutboxFact>)

  function Seeding(facts: seq<StoredFact>, fact: OutboxFact): seq<StoredFact> {
    if Lists(facts, fact.factRef) then facts else facts + [StoredFact(CursorOf(fact.factRef), fact, None)]
  }

  function Step(s: Session, e: Event): Session {
    match e
    case SeedEvent(fact) => s.(facts := Seeding(s.facts, fact))
    case AckEvent(factRef) => s.(facts := Acknowledged(s.facts, factRef, MARKER))
    case PollEvent(limit) =>
      (match Poll(s.facts, s.cursor, limit)
       case Ok(page) => s.(cursor := page.nextCursor, returned := s.returned + page.items)
       case Err(_) => s)
  }

  function Follow(s: Session, events: seq<Event>): Session
    decreases |events|
  {
    if events == [] then s else Step(Follow(s, events[..|events| - 1]), events[|events| - 1])
  }

  predicate Returned(returned: seq<OutboxFact>, factRef: Id) {
    exists k | 0 <= k < |returned| :: returned[k].factRef == factRef
  }

  /** Only facts already returned are acknowledged. */
  ghost predicate Orderly(s: Session, events: seq<Event>)
    decreases |events|
  {
    events == [] ||
    (var front, last := events[..|events| - 1], events[|events| - 1];
     Orderly(s, front) && (last.AckEvent? ==> Returned(Follow(s, front).returned, last.factRef)))
  }

  /** The facts as they would stand had nothing been acknowledged since the start. */
  function Baseline(facts: seq<StoredFact>, events: seq<Event>): seq<StoredFact>
    decreases |events|
  {
    if events == [] then facts
    else
      var before := Baseline(facts, events[..|events| - 1]);
      match events[|events| - 1]
      case SeedEvent(fact) => Seeding(before, fact)
      case _ => before
  }

  /** The session has returned the baseline's pending facts from `start` up to its cursor; past the
      cursor the facts still stand as in the baseline. */
  ghost predicate Tracks(s: Session, base: seq<StoredFact>, start: nat, n: nat) {
    && Catalogued(base) && Catalogued(s.facts) && Grown(base, s.facts) && |base| == |s.facts|
    && start <= n <= |base| && PositionOf(s.facts, s.cursor) == Some(n)
    && s.facts[n..] == base[n..]
    && s.returned == Unacknowledged(base[start..n])
  }

  lemma SeedTracks(s: Session, base: seq<StoredFact>, start: nat, n: nat, fact: OutboxFact)
    requires Tracks(s, base, start, n)
    ensures Tracks(Step(s, SeedEvent(fact)), Seeding(base, fact), start, n)
  {
    hide Unacknowledged, PositionOf;
    assert Lists(s.facts, fact.factRef) <==> Lists(base, fact.factRef) by {
      forall i | 0 <= i < |base| ensures s.facts[i].fact.factRef == base[i].fact.factRef {
      }
    }
    if !Lists(base, fact.factRef) {
      var after, added := Step(s, SeedEvent(fact)).facts, StoredFact(CursorOf(fact.factRef), fact, None);
      PositionStable(s.facts, after, s.cursor);
      assert after[n..] == s.facts[n..] + [added] && (base + [added])[n..] == base[n..] + [added];
      assert (base + [added])[start..n] == base[start..n];
    }
  }

  /** A fact returned lies before the cursor. */
  lemma {:induction false} PendingFound(facts: seq<StoredFact>, factRef: Id) returns (i: nat)
    requires Returned(Unacknowledged(facts), factRef)
    ensures i < |facts| && facts[i].fact.factRef == factRef
    decreases |facts|
  {
    var n := |facts| - 1;
    if facts[n].fact.factRef == factRef {
      i := n;
    } else {
      var k :| 0 <= k < |Unacknowledged(facts)| && Unacknowledged(facts)[k].factRef == factRef;
      assert k < |Unacknowledged(facts[..n])|;
      assert Unacknowledged(facts[..n])[k].factRef == factRef;
      i := PendingFound(facts[..n], factRef);
    }
  }

  lemma AckTracks(s: Session, base: seq<StoredFact>, start: nat, n: nat, factRef: Id)
    requires Tracks(s, base, start, n) && Returned(s.returned, factRef)
    ensures Tracks(Step(s, AckEvent(factRef)), base, start, n)
  {
    hide Unacknowledged, PositionOf, Acknowledged;
    var k := PendingFound(base[start..n], factRef);
    var i := start + k;
    assert s.facts[i].fact.factRef == factRef;
    AcknowledgedAt(s.facts, i, MARKER);
    var after := Step(s, AckEvent(factRef)).facts;
    assert after[n..] == s.facts[n..];
    PositionStable(s.facts, after, s.cursor);
  }

  lemma ReachNothing(facts: seq<StoredFact>, start: nat)
    requires start <= |facts|
    ensures Reach(facts, start, 0) == start
  {
  }

  lemma PollTracks(s: Session, base: seq<StoredFact>, start: nat, n: nat, limit: nat) returns (end: nat)
    requires Tracks(s, base, start, n)
    ensures end == Reach(s.facts, n, limit)
    ensures Tracks(Step(s, PollEvent(limit)), base, start, end)
  {
    hide Reach, Unacknowledged, PositionOf, Catalogued;
    end := Reach(s.facts, n, limit);
    if limit == 0 {
      ReachNothing(s.facts, n);
    } else {
      assert s.facts[n..end] == s.facts[n..][..end - n] == base[n..][..end - n] == base[n..end];
      assert s.facts[end..] == s.facts[n..][end - n..] == base[n..][end - n..] == base[end..];
      assert base[start..end] == base[start..n] + base[n..end];
      PendingConcat(base[start..n], base[n..end]);
      if end != n {
        PositionAfter(s.facts, end - 1);
      }
    }
  }

  /** Following the cursor returns, in order and each once, exactly the facts pending between where it
      started and where it now stands, with facts seeded and returned facts acknowledged in between. */
  lemma {:induction false} PagesAreOneScan(s: Session, events: seq<Event>, start: nat) returns (n: nat)
    requires Catalogued(s.facts) && PositionOf(s.facts, s.cursor) == Some(start) && s.returned == []
    requires Orderly(s, events)
    ensures Tracks(Follow(s, events), Baseline(s.facts, events), start, n)
    decreases |events|
  {
    if events == [] {
      n := start;
      assert s.facts[start..start] == [];
    } else {
      var front, last := events[..|events| - 1], events[|events| - 1];
      n := PagesAreOneScan(s, front, start);
      var before, base := Follow(s, front), Baseline(s.facts, front);
      match last {
        case SeedEvent(fact) => SeedTracks(before, base, start, n, fact);
        case AckEvent(factRef) => AckTracks(before, base, start, n, factRef);
        case PollEvent(limit) => n := PollTracks(before, base, start, n, limit);
      }
    }
  }

  /** Once a poll comes back short, everything pending after the start has been returned. */
  lemma ShortPageEndsScan(s: Session, events: seq<Event>, start: nat, limit: nat)
    requires Catalogued(s.facts) && PositionOf(s.facts, s.cursor) == Some(start) && s.returned == []
    requires Orderly(s, events)
    requires var before, after := Follow(s, events), Follow(s, events + [PollEvent(limit)]);
      |after.returned| < |before.returned| + limit
    ensures start <= |Baseline(s.facts, events)|
    ensures Follow(s, events + [PollEvent(limit)]).returned == Unacknowledged(Baseline(s.facts, events)[start..])
  {
    hide Unacknowledged, PositionOf, Catalogued, Baseline, Grown;
    var all := events + [PollEvent(limit)];
    assert all[..|all| - 1] == events;
    var n := PagesAreOneScan(s, events, start);
    var before, base := Follow(s, events), Baseline(s.facts, events);
    var end := PollTracks(before, base, start, n, limit);
    PageFills(before.facts, n, limit);
    assert base[start..|base|] == base[start..];
  }
}
