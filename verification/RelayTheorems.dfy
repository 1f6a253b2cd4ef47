/** What the relay guarantees: no fact is skipped, the counters match the acknowledgements, failure-free
    runs drain the source, and a fact counted as accepted is bound on the bus. */
module RelayTheorems {
  import opened Common
  import opened Records
  import opened StoreModel
  import opened Steps
  import opened Digest
  import opened Jobs
  import opened Invariants
  import opened Runs
  import opened IdempotencySteps
  import opened IdempotentReplay
  import opened PublicationRules
  import opened PublicationSteps
  import opened OutboxSource
  import opened OutboxPaging
  import opened OutboxRelay

  // ---------------------------------------------------------------- the facts of a page

  /** The first n facts are acknowledged. */
  ghost predicate DoneUpTo(facts: seq<StoredFact>, n: nat) {
    n <= |facts| && forall i | 0 <= i < n :: facts[i].marker.Some?
  }

  /** Facts keep their order and their markers; only facts in the window may have gained one. */
  ghost predicate MarkedWithin(before: seq<StoredFact>, after: seq<StoredFact>, start: nat, end: nat) {
    && |after| == |before| && Grown(before, after)
    && (forall i | 0 <= i < |before| && (i < start || end <= i || before[i].marker.Some?) :: after[i] == before[i])
  }

  function Acked(items: seq<ItemResult>): nat {
    Count(items, Done) + Count(items, SetAside)
  }

  lemma OneItemMore(items: seq<ItemResult>, item: ItemResult)
    ensures Acked(items + [item]) == Acked(items) + (if item == FailedItem then 0 else 1)
    ensures FailedItem in items + [item] <==> FailedItem in items || item == FailedItem
  {
    OneMore(items, item);
  }

  lemma {:induction false} MarkedOneLess(facts: seq<StoredFact>, i: nat)
    requires i < |facts| && facts[i].marker.None?
    ensures |Unacknowledged(facts[i := facts[i].(marker := Some(MARKER))])| == |Unacknowledged(facts)| - 1
    decreases |facts|
  {
    var n := |facts| - 1;
    var marked := facts[i := facts[i].(marker := Some(MARKER))];
    if i == n {
      assert marked[..n] == facts[..n];
    } else {
      MarkedOneLess(facts[..n], i);
      assert marked[..n] == facts[..n][i := facts[i].(marker := Some(MARKER))];
    }
  }

  lemma CataloguedStays(before: seq<StoredFact>, after: seq<StoredFact>)
    requires Catalogued(before) && Grown(before, after) && |before| == |after|
    ensures Catalogued(after)
  {
  }

  /** What relaying the pending facts of a window has done to the facts and the counters. */
  ghost predicate Relayed(before: seq<StoredFact>, after: seq<StoredFact>, items: seq<ItemResult>, start: nat, end: nat) {
    && start <= end <= |before| && MarkedWithin(before, after, start, end)
    && Acked(items) == |Unacknowledged(before)| - |Unacknowledged(after)|
    && (FailedItem !in items ==> forall i | start <= i < end :: after[i].marker.Some?)
  }

  /** A fact is marked exactly when its item has not failed. */
  lemma RelayOneShape(before: Progress, fact: OutboxFact, job: RelayJob, k: nat) returns (item: ItemResult)
    requires Lists(before.facts, fact.factRef)
    ensures RelayOne(before, fact, job, k).items == before.items + [item]
    ensures RelayOne(before, fact, job, k).facts ==
            if item == FailedItem then before.facts else Acknowledged(before.facts, fact.factRef, MARKER)
  {
    hide AcceptFact, Acknowledged, Next;
    var items := RelayOne(before, fact, job, k).items;
    item := items[|items| - 1];
  }

  lemma WindowSkips(before: seq<StoredFact>, during: seq<StoredFact>, items: seq<ItemResult>, start: nat, end: nat)
    requires Relayed(before, during, items, start, end) && end < |before| && before[end].marker.Some?
    ensures Relayed(before, during, items, start, end + 1)
  {
    hide Unacknowledged;
  }

  lemma WindowGrows(before: seq<StoredFact>, during: seq<StoredFact>, items: seq<ItemResult>, start: nat, end: nat, item: ItemResult)
    requires Catalogued(before) && Relayed(before, during, items, start, end) && end < |before| && before[end].marker.None?
    ensures Lists(during, before[end].fact.factRef)
    ensures Relayed(before, if item == FailedItem then during else Acknowledged(during, before[end].fact.factRef, MARKER),
                    items + [item], start, end + 1)
  {
    hide Unacknowledged;
    CataloguedStays(before, during);
    assert during[end].fact == before[end].fact;
    AcknowledgedAt(during, end, MARKER);
    MarkedOneLess(during, end);
    OneItemMore(items, item);
  }

  /** Relaying the pending facts of a window marks only facts of the window, one for each item that has not failed. */
  lemma {:induction false} RelayMarks(begin: Progress, job: RelayJob, start: nat, end: nat)
    requires Catalogued(begin.facts) && start <= end <= |begin.facts| && begin.items == []
    ensures var after := Relay(begin, Unacknowledged(begin.facts[start..end]), job);
      Relayed(begin.facts, after.facts, after.items, start, end)
    decreases end
  {
    hide AcceptFact, RelayOne, Relayed;
    if start == end {
      assert begin.facts[start..end] == [];
      NothingRelayed(begin.facts, start);
    } else {
      var last := end - 1;
      RelayMarks(begin, job, start, last);
      OnePending(begin.facts, start, last);
      var page := Unacknowledged(begin.facts[start..last]);
      var during := Relay(begin, page, job);
      if begin.facts[last].marker.None? {
        WindowGrows(begin.facts, during.facts, during.items, start, last, FailedItem);
        var item := RelayOneShape(during, begin.facts[last].fact, job, |page|);
        WindowGrows(begin.facts, during.facts, during.items, start, last, item);
        assert (page + [begin.facts[last].fact])[..|page|] == page;
      } else {
        WindowSkips(begin.facts, during.facts, during.items, start, last);
        assert page + [] == page;
      }
    }
  }

  lemma NothingRelayed(facts: seq<StoredFact>, start: nat)
    requires start <= |facts|
    ensures Relayed(facts, facts, [], start, start)
  {
  }

  // ---------------------------------------------------------------- one run

  /** The facts from a cursor to where a poll stops. */
  lemma PolledWindow(facts: seq<StoredFact>, cursor: string, limit: nat) returns (start: nat, end: nat)
    requires Catalogued(facts) && PositionOf(facts, cursor).Some?
    ensures PositionOf(facts, cursor) == Some(start) && start <= end <= |facts|
    ensures Poll(facts, cursor, limit).Ok?
    ensures var page := Poll(facts, cursor, limit).value;
      && page.items == Unacknowledged(facts[start..end]) && PositionOf(facts, page.nextCursor) == Some(end)
      && |page.items| <= limit && (|page.items| < limit ==> end == |facts|)
  {
    start := PositionOf(facts, cursor).value;
    end := Reach(facts, start, limit);
    PageFills(facts, start, limit);
    if limit == 0 {
      ReachNothing(facts, start);
      assert facts[start..end] == [];
    } else if end > start {
      PositionAfter(facts, end - 1);
    }
  }

  /** The relay never skips a fact: if every fact its cursor has left behind is acknowledged, the same
      holds of the cursor it returns, whatever became of the facts and of their acknowledgements; and
      the facts counted as accepted or rejected are exactly those newly acknowledged. */
  lemma NeverSkips(begin: Progress, cursor: string, limit: nat, job: RelayJob)
    requires Catalogued(begin.facts) && begin.items == [] && PositionOf(begin.facts, cursor).Some?
    requires DoneUpTo(begin.facts, PositionOf(begin.facts, cursor).value)
    ensures Poll(begin.facts, cursor, limit).Ok?
    ensures var page := Poll(begin.facts, cursor, limit).value;
      var after := Relay(begin, page.items, job);
      var next := NextCursor(cursor, page, after.items);
      && Catalogued(after.facts) && PositionOf(after.facts, next).Some?
      && DoneUpTo(after.facts, PositionOf(after.facts, next).value)
      && Acked(after.items) == |Unacknowledged(begin.facts)| - |Unacknowledged(after.facts)|
  {
    hide Poll, Unacknowledged, Relay, PositionOf, Acked;
    var start, end := PolledWindow(begin.facts, cursor, limit);
    var page := Poll(begin.facts, cursor, limit).value;
    RelayMarks(begin, job, start, end);
    var after := Relay(begin, page.items, job);
    CataloguedStays(begin.facts, after.facts);
    PositionStable(begin.facts, after.facts, cursor);
    PositionStable(begin.facts, after.facts, page.nextCursor);
  }

  lemma {:induction false} AllMarked(facts: seq<StoredFact>, n: nat)
    requires DoneUpTo(facts, n)
    ensures Unacknowledged(facts[..n]) == [] && Unacknowledged(facts) == Unacknowledged(facts[n..])
  {
    NoneUnacknowledged(facts[..n]);
    PendingConcat(facts[..n], facts[n..]);
    assert facts[..n] + facts[n..] == facts;
  }

  lemma {:induction false} NoneUnacknowledged(facts: seq<StoredFact>)
    requires DoneUpTo(facts, |facts|)
    ensures Unacknowledged(facts) == []
    decreases |facts|
  {
    if facts != [] {
      NoneUnacknowledged(facts[..|facts| - 1]);
    }
  }

  /** A relay run in which nothing fails acknowledges a full page, or all that was left. */
  lemma FailureFreeDrains(begin: Progress, cursor: string, limit: nat, job: RelayJob)
    requires Catalogued(begin.facts) && begin.items == [] && PositionOf(begin.facts, cursor).Some?
    requires DoneUpTo(begin.facts, PositionOf(begin.facts, cursor).value)
    requires Poll(begin.facts, cursor, limit).Ok?
    requires FailedItem !in Relay(begin, Poll(begin.facts, cursor, limit).value.items, job).items
    ensures var after := Relay(begin, Poll(begin.facts, cursor, limit).value.items, job);
      var left := |Unacknowledged(begin.facts)|;
      |Unacknowledged(after.facts)| == if left < limit then 0 else left - limit
  {
    hide Poll, Unacknowledged, Relay, PositionOf, Acked;
    var start, end := PolledWindow(begin.facts, cursor, limit);
    var page := Poll(begin.facts, cursor, limit).value;
    RelayMarks(begin, job, start, end);
    var after := Relay(begin, page.items, job);
    AllMarked(begin.facts, start);
    AllMarked(after.facts, end);
    assert after.facts[end..] == begin.facts[end..];
    assert begin.facts[start..] == begin.facts[start..end] + begin.facts[end..];
    PendingConcat(begin.facts[start..end], begin.facts[end..]);
    if end == |begin.facts| {
      assert begin.facts[end..] == [];
      NoneUnacknowledged([]);
    }
  }

  // ---------------------------------------------------------------- the bus side

  /** The fact's request is bound on the bus. */
  ghost predicate Consumed(c: Committed, f: OutboxFact) {
    var a := FindAnchor(c, FactScope(f), f.idempotencyKey);
    a.Some? && a.value.digest == RequestDigest(f.canonical)
  }

  lemma ConsumedStays(before: Committed, after: Committed, f: OutboxFact)
    requires Consumed(before, f) && Follows(before, after)
    ensures Consumed(after, f)
  {
    hide RequestDigest, DeliveriesEvolve, PlansAdvance;
  }

  /** A fact accepted without an error is bound, now or from before. */
  lemma AcceptedIsConsumed(c: Committed, f: OutboxFact, actor: Actor, trace: Id, ports: Ports, faults: Faults)
    requires AcceptFact(c, f, actor, trace, ports, faults).outcome.Ok?
    ensures Consumed(After(c, AcceptFact(c, f, actor, trace, ports, faults).exit), f)
  {
    hide DecideBody, Overlay, RequestDigest;
    var digest := RequestDigest(f.canonical);
    if FindAnchor(c, FactScope(f), f.idempotencyKey).None? {
      RuleRulesOn(c, MaterialFromFact(f, actor, trace), FactScope(f), f.idempotencyKey, digest, actor, trace, ports, faults);
    }
  }

  lemma ConsumeKeeps(before: Progress, fact: OutboxFact, job: RelayJob, i: nat)
    requires Inv(before.st.committed)
    ensures var after := RelayOne(before, fact, job, i);
      && Inv(after.st.committed) && Follows(before.st.committed, after.st.committed)
      && |after.items| == |before.items| + 1 && before.items == after.items[..|before.items|]
      && (after.items[|before.items|] == Done ==> Consumed(after.st.committed, fact))
  {
    hide AcceptFact, Inv, Follows, After, Consumed;
    FactCallLawful(before.st.committed, fact, job.actor, job.trace, job.ports(i), before.st.faults);
    ExitKeeps(before.st.committed, Consume(before, fact, job, i).exit);
    if Consume(before, fact, job, i).outcome.Ok? {
      AcceptedIsConsumed(before.st.committed, fact, job.actor, job.trace, job.ports(i), before.st.faults);
    }
  }

  /** At-least-once relaying rests on idempotent acceptance: after any relay run the bus's invariant
      holds and every fact counted as accepted is bound, so handing it over again changes nothing. */
  lemma {:induction false} AcceptedFactsBound(begin: Progress, page: seq<OutboxFact>, job: RelayJob)
    requires Inv(begin.st.committed) && begin.items == []
    ensures var after := Relay(begin, page, job);
      && Inv(after.st.committed) && Follows(begin.st.committed, after.st.committed) && |after.items| == |page|
      && forall k | 0 <= k < |page| && after.items[k] == Done :: Consumed(after.st.committed, page[k])
    decreases |page|
  {
    hide RelayOne, Inv, Follows, Consumed;
    if page == [] {
      FollowsReflexive(begin.st.committed);
    } else {
      var n := |page| - 1;
      AcceptedFactsBound(begin, page[..n], job);
      var before, after := Relay(begin, page[..n], job), Relay(begin, page, job);
      ConsumeKeeps(before, page[n], job, n);
      FollowsTransitive(begin.st.committed, before.st.committed, after.st.committed);
      forall k | 0 <= k < n && after.items[k] == Done ensures Consumed(after.st.committed, page[k]) {
        assert after.items[k] == before.items[k];
        ConsumedStays(before.st.committed, after.st.committed, page[..n][k]);
      }
    }
  }

  // ---------------------------------------------------------------- run after run

  datatype Round = Round(limit: nat, job: RelayJob)

  /** Where the relay stands between runs. */
  datatype Standing = Standing(st: State, facts: seq<StoredFact>, armed: Option<SourceError>, cursor: string)

  function Begin(s: Standing): Progress {
    Progress(s.st, s.facts, s.armed, [])
  }

  function RunOnce(s: Standing, r: Round): Standing {
    match Poll(s.facts, s.cursor, r.limit)
    case Err(_) => s
    case Ok(page) =>
      var after := Relay(Begin(s), page.items, r.job);
      Standing(after.st, after.facts, after.armed, NextCursor(s.cursor, page, after.items))
  }

  function RunAll(s: Standing, rounds: seq<Round>): Standing
    decreases |rounds|
  {
    if rounds == [] then s else RunOnce(RunAll(s, rounds[..|rounds| - 1]), rounds[|rounds| - 1])
  }

  /** The cursor is known and everything it has left behind is acknowledged. */
  ghost predicate Sound(s: Standing) {
    && Catalogued(s.facts) && PositionOf(s.facts, s.cursor).Some?
    && DoneUpTo(s.facts, PositionOf(s.facts, s.cursor).value)
  }

  /** No fact of the round fails. */
  ghost predicate Clean(s: Standing, r: Round) {
    && Poll(s.facts, s.cursor, r.limit).Ok?
    && FailedItem !in Relay(Begin(s), Poll(s.facts, s.cursor, r.limit).value.items, r.job).items
  }

  ghost predicate AllClean(s: Standing, rounds: seq<Round>)
    decreases |rounds|
  {
    rounds == [] ||
    (AllClean(s, rounds[..|rounds| - 1]) && Clean(RunAll(s, rounds[..|rounds| - 1]), rounds[|rounds| - 1]))
  }

  function TotalLimit(rounds: seq<Round>): nat
    decreases |rounds|
  {
    if rounds == [] then 0 else TotalLimit(rounds[..|rounds| - 1]) + rounds[|rounds| - 1].limit
  }

  /** Any number of relay runs, failing in any way, skips no fact. */
  lemma {:induction false} RunsNeverSkip(s: Standing, rounds: seq<Round>)
    requires Sound(s)
    ensures Sound(RunAll(s, rounds))
    decreases |rounds|
  {
    hide Relay, Poll, PositionOf;
    if rounds != [] {
      var before, r := RunAll(s, rounds[..|rounds| - 1]), rounds[|rounds| - 1];
      RunsNeverSkip(s, rounds[..|rounds| - 1]);
      NeverSkips(Begin(before), before.cursor, r.limit, r.job);
    }
  }

  /** Failure-free runs lower the number of pending facts by their page sizes until none is left. */
  lemma {:induction false} RunsDrain(s: Standing, rounds: seq<Round>)
    requires Sound(s) && AllClean(s, rounds)
    ensures var left := |Unacknowledged(s.facts)|;
      |Unacknowledged(RunAll(s, rounds).facts)| == if left < TotalLimit(rounds) then 0 else left - TotalLimit(rounds)
    decreases |rounds|
  {
    hide Relay, Poll, PositionOf, Unacknowledged;
    if rounds != [] {
      var before, r := RunAll(s, rounds[..|rounds| - 1]), rounds[|rounds| - 1];
      RunsDrain(s, rounds[..|rounds| - 1]);
      RunsNeverSkip(s, rounds[..|rounds| - 1]);
      FailureFreeDrains(Begin(before), before.cursor, r.limit, r.job);
    }
  }
}
