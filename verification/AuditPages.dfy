/** Listing the audit trail page by page while it grows. */
module AuditPages {
  import opened Common
  import opened Numerals
  import opened Records

  datatype Filter = Filter(recordRef: Option<Id>, eventKind: Option<string>)

  datatype Item = Item(auditRef: Id, sequence: nat, recordRef: Id, eventKind: string, actorRef: Id, occurredAt: Timestamp)

  datatype AuditPage = AuditPage(items: seq<Item>, next: Option<string>)

  function RecordRefOf(s: Subject): Id {
    match s
    case PublicationSubject(id) => id
    case DeliverySubject(id) => id
    case RetryPlanSubject(id) => id
    case DeadLetterSubject(id) => id
    case ReplaySubject(id) => id
    case KeySubject(_, key) => key
  }

  function EventKindOf(a: Action): string {
    match a
    case PublicationAccepted => "publication_accepted"
    case PublicationRejected(_) => "publication_rejected"
    case DeliveryDispatchStarted => "delivery_dispatch_started"
    case DeliveryDelivered => "delivery_delivered"
    case DeliveryFailed(_) => "delivery_failed"
    case FeedbackRecorded(_) => "feedback_recorded"
    case RetryRequested => "retry_requested"
    case RetryAttempted => "retry_attempted"
    case RetryExhausted => "retry_exhausted"
    case DeadLetterCreated => "dead_letter_created"
    case ReplayPreparationReady => "replay_preparation_ready"
    case ReplayAccessRejected => "replay_preparation_access_rejected"
    case BackendSignalIgnored => "backend_signal_ignored"
    case TimeoutSignalIgnored => "timeout_signal_ignored"
    case IdempotencyConflict => "idempotency_conflict"
  }

  predicate Matches(f: Filter, e: AuditEntry) {
    && (f.recordRef.Some? ==> RecordRefOf(e.subject) == f.recordRef.value)
    && (f.eventKind.Some? ==> EventKindOf(e.action) == f.eventKind.value)
  }

  function ItemOf(e: AuditEntry, sequence: nat): Item {
    Item(e.auditRef, sequence, RecordRefOf(e.subject), EventKindOf(e.action), e.actor.actorRef, e.occurredAt)
  }

  /** The matching entries, each numbered by its place in the whole log. */
  function Filtered(audits: seq<AuditEntry>, f: Filter): seq<Item>
    decreases |audits|
  {
    if audits == [] then []
    else
      var n := |audits| - 1;
      Filtered(audits[..n], f) + (if Matches(f, audits[n]) then [ItemOf(audits[n], n + 1)] else [])
  }

  /** A page token is an offset into the matching entries; anything unreadable means the start. */
  function OffsetOf(token: Option<string>): nat {
    match token
    case None => 0
    case Some(text) =>
      (match ParseU64(text)
       case Some(n) => n
       case None => 0)
  }

  function ListAudits(audits: seq<AuditEntry>, f: Filter, token: Option<string>, limit: nat): AuditPage {
    var all, offset := Filtered(audits, f), OffsetOf(token);
    var rest := if offset < |all| then all[offset..] else [];
    var items := if |rest| <= limit then rest else rest[..limit];
    AuditPage(items, if offset + |items| < |all| then Some(Decimal(offset + |items|)) else None)
  }

  // ---------------------------------------------------------------- the filtered log

  /** A longer log only adds matching entries at the end. */
  lemma {:induction false} FilteredGrows(before: seq<AuditEntry>, after: seq<AuditEntry>, f: Filter)
    requires before <= after
    ensures Filtered(before, f) <= Filtered(after, f)
    decreases |after|
  {
    if |before| < |after| {
      FilteredGrows(before, after[..|after| - 1], f);
    } else {
      assert before == after;
    }
  }

  /** Each number denotes its entry of the log, which matches, and numbers increase along the list. */
  ghost predicate Denotes(items: seq<Item>, audits: seq<AuditEntry>, f: Filter) {
    && (forall i | 0 <= i < |items| :: Denoted(items[i], audits, f))
    && (forall i, j | 0 <= i < j < |items| :: items[i].sequence < items[j].sequence)
  }

  ghost predicate Denoted(item: Item, audits: seq<AuditEntry>, f: Filter) {
    && 1 <= item.sequence <= |audits|
    && Matches(f, audits[item.sequence - 1]) && item == ItemOf(audits[item.sequence - 1], item.sequence)
  }

  lemma {:induction false} FilteredSound(audits: seq<AuditEntry>, f: Filter)
    ensures |Filtered(audits, f)| <= |audits| && Denotes(Filtered(audits, f), audits, f)
    decreases |audits|
  {
    hide Matches, ItemOf;
    if audits != [] {
      var n := |audits| - 1;
      FilteredSound(audits[..n], f);
      assert forall item | Denoted(item, audits[..n], f) :: Denoted(item, audits, f);
      assert Matches(f, audits[n]) ==> Denoted(ItemOf(audits[n], n + 1), audits, f) && ItemOf(audits[n], n + 1).sequence == n + 1 by {
        Placed(audits, f);
      }
    }
  }

  lemma Placed(audits: seq<AuditEntry>, f: Filter)
    requires audits != []
    ensures var n := |audits| - 1;
      && ItemOf(audits[n], n + 1).sequence == n + 1
      && (Matches(f, audits[n]) ==> Denoted(ItemOf(audits[n], n + 1), audits, f))
  {
  }

  /** Every matching entry is listed. */
  lemma {:induction false} FilteredComplete(audits: seq<AuditEntry>, f: Filter, s: nat)
    requires 1 <= s <= |audits| && Matches(f, audits[s - 1])
    ensures ItemOf(audits[s - 1], s) in Filtered(audits, f)
    decreases |audits|
  {
    if s < |audits| {
      FilteredComplete(audits[..|audits| - 1], f, s);
    }
  }

  // ---------------------------------------------------------------- following the tokens

  /** A page request against the log as it stands then. */
  datatype Fetch = Fetch(audits: seq<AuditEntry>, limit: nat)

  /** The items collected so far and the token of the last page. */
  datatype Reading = Reading(items: seq<Item>, next: Option<string>)

  function Follow(f: Filter, fetches: seq<Fetch>): Reading
    decreases |fetches|
  {
    if fetches == [] then Reading([], None)
    else
      var before, last := Follow(f, fetches[..|fetches| - 1]), fetches[|fetches| - 1];
      var page := ListAudits(last.audits, f, before.next, last.limit);
      Reading(before.items + page.items, page.next)
  }

  /** Each request follows the token of the one before against a log that has only grown; a log is
      no longer than a 64-bit index can count. */
  ghost predicate Chained(f: Filter, fetches: seq<Fetch>)
    requires fetches != []
    decreases |fetches|
  {
    && |fetches[|fetches| - 1].audits| < U64_LIMIT
    && (|fetches| > 1 ==>
          && Chained(f, fetches[..|fetches| - 1])
          && fetches[|fetches| - 2].audits <= fetches[|fetches| - 1].audits
          && Follow(f, fetches[..|fetches| - 1]).next.Some?)
  }

  function TotalLimit(fetches: seq<Fetch>): nat
    decreases |fetches|
  {
    if fetches == [] then 0 else TotalLimit(fetches[..|fetches| - 1]) + fetches[|fetches| - 1].limit
  }

  /** One page continues a prefix of the matching entries. */
  lemma PageContinues(audits: seq<AuditEntry>, f: Filter, token: Option<string>, limit: nat, read: nat)
    requires OffsetOf(token) == read <= |Filtered(audits, f)| < U64_LIMIT
    ensures var page, all := ListAudits(audits, f, token, limit), Filtered(audits, f);
      && read + |page.items| <= |all| && all[..read] + page.items == all[..read + |page.items|]
      && (page.next.Some? ==> |page.items| == limit && OffsetOf(page.next) == read + limit)
      && (page.next.None? ==> read + |page.items| == |all|)
  {
    hide Filtered, Decimal, ParseU64;
    var page := ListAudits(audits, f, token, limit);
    if page.next.Some? {
      ParseDecimal(read + |page.items|);
    }
  }

  /** Pages fetched one after another, with commits in between, join to a prefix of the matching entries
      of the final log; when the last page has no token they are all of them. */
  lemma {:induction false} PagesJoin(f: Filter, fetches: seq<Fetch>)
    requires fetches != [] && Chained(f, fetches)
    ensures var reading, all := Follow(f, fetches), Filtered(fetches[|fetches| - 1].audits, f);
      && reading.items <= all
      && (reading.next.Some? ==> |reading.items| == TotalLimit(fetches) && OffsetOf(reading.next) == |reading.items|)
      && (reading.next.None? ==> reading.items == all)
    decreases |fetches|
  {
    hide Filtered, ListAudits, OffsetOf;
    var front, last := fetches[..|fetches| - 1], fetches[|fetches| - 1];
    var before := Follow(f, front);
    var all := Filtered(last.audits, f);
    FilteredSound(last.audits, f);
    NoOffset();
    if front != [] {
      PagesJoin(f, front);
      FilteredGrows(front[|front| - 1].audits, last.audits, f);
      Prefixes(before.items, Filtered(front[|front| - 1].audits, f), all);
    }
    PageContinues(last.audits, f, before.next, last.limit, |before.items|);
  }

  lemma NoOffset()
    ensures OffsetOf(None) == 0
  {
  }

  lemma Prefixes<T>(a: seq<T>, b: seq<T>, c: seq<T>)
    requires a <= b <= c
    ensures |a| <= |c| && c[..|a|] == a
  {
  }

  /** Across pages the sequence numbers strictly increase, and each denotes the same entry in every later log. */
  lemma PagesOrdered(f: Filter, fetches: seq<Fetch>, later: seq<AuditEntry>)
    requires fetches != [] && Chained(f, fetches) && fetches[|fetches| - 1].audits <= later
    ensures Denotes(Follow(f, fetches).items, later, f)
  {
    hide Filtered, Follow, Chained, Matches;
    PagesJoin(f, fetches);
    FilteredSound(fetches[|fetches| - 1].audits, f);
  }
}
