/** Shared vocabulary: results, identifiers, the byte order of strings and the
    ordered iteration of the source's sorted maps. */
module Common {

  datatype Option<+T> = None | Some(value: T)

  datatype Result<+T, +E> = Ok(value: T) | Err(error: E) {
    predicate IsFailure() {
      Err?
    }

    function PropagateFailure<U>(): Result<U, E>
      requires Err?
    {
      Err(error)
    }

    function Extract(): T
      requires Ok?
    {
      value
    }
  }

  /** An update in place did to the record what the rule does to its value. */
  predicate Updated<D(==), E(==)>(before: D, after: D, expected: Result<D, E>, r: Result<(), E>) {
    match expected
    case Ok(d) => r == Ok(()) && after == d
    case Err(e) => r == Err(e) && after == before
  }

  /** The same for an update that also yields a part of its result. */
  predicate UpdatedWith<D(==), V(==), E(==)>(before: D, after: D, expected: Result<(D, V), E>, r: Result<V, E>) {
    match expected
    case Ok((d, v)) => r == Ok(v) && after == d
    case Err(e) => r == Err(e) && after == before
  }

  type Id = string
  type Timestamp = string

  /** Map lookup as an option. */
  function Get<K, V>(m: map<K, V>, k: K): Option<V> {
    if k in m then Some(m[k]) else None
  }

  /** One row of the table is written; the others stay. */
  ghost predicate Writes<K(!new), V(!new)>(before: map<K, V>, after: map<K, V>, k: K) {
    && after.Keys == before.Keys + {k}
    && forall j | j in before && j != k :: after[j] == before[j]
  }

  lemma KeyWritten<K(!new), V(!new)>(rows: map<K, V>, more: map<K, V>, k: K)
    requires more.Keys == {k}
    ensures Writes(rows, rows + more, k) && (rows + more)[k] == more[k]
  {
  }

  lemma NothingWritten<K, V>(rows: map<K, V>, more: map<K, V>)
    requires more == map[]
    ensures rows + more == rows
  {
  }

  /** The log grows by one entry at its end. */
  ghost predicate Lengthens<V(!new)>(before: seq<V>, after: seq<V>) {
    |after| == |before| + 1 && before <= after
  }

  lemma EntryAppended<V(!new)>(log: seq<V>, more: seq<V>)
    requires |more| == 1
    ensures Lengthens(log, log + more) && (log + more)[|log|] == more[0]
  {
  }

  // ---------------------------------------------------------------- string order

  /** Strict lexicographic order, the order of `str` and of sorted maps keyed by it. */
  predicate Before(a: string, b: string) {
    b != [] && (a == [] || a[0] < b[0] || (a[0] == b[0] && Before(a[1..], b[1..])))
  }

  predicate AtMost(a: string, b: string) {
    !Before(b, a)
  }

  lemma {:induction false} BeforeTotal(a: string, b: string)
    ensures Before(a, b) || a == b || Before(b, a)
    ensures !(Before(a, b) && Before(b, a))
    ensures !Before(a, a)
  {
    if a != [] && b != [] && a[0] == b[0] {
      BeforeTotal(a[1..], b[1..]);
      assert a == [a[0]] + a[1..] && b == [b[0]] + b[1..];
    }
    if a != [] {
      BeforeTotal(a[1..], a[1..]);
    }
  }

  lemma {:induction false} BeforeTransitive(a: string, b: string, c: string)
    requires Before(a, b) && Before(b, c)
    ensures Before(a, c)
  {
    if a != [] && a[0] == b[0] && b[0] == c[0] {
      BeforeTransitive(a[1..], b[1..], c[1..]);
    }
  }

  ghost predicate Increasing(keys: seq<string>) {
    forall i, j | 0 <= i < j < |keys| :: Before(keys[i], keys[j])
  }

  // ---------------------------------------------------------------- ordered iteration

  predicate AtMostAll(x: string, s: set<string>) {
    forall y | y in s :: AtMost(x, y)
  }

  lemma AtMostAllBelow(x: string, l: string, s: set<string>)
    requires Before(x, l) && AtMostAll(l, s)
    ensures AtMostAll(x, s)
  {
    forall y | y in s ensures AtMost(x, y) {
      if Before(y, x) {
        BeforeTransitive(y, x, l);
      }
    }
  }

  lemma {:induction false} LeastExists(s: set<string>)
    requires s != {}
    ensures exists x :: x in s && AtMostAll(x, s)
    decreases |s|
  {
    var x :| x in s;
    var rest := s - {x};
    BeforeTotal(x, x);
    assert s == rest + {x};
    if rest == {} {
      assert AtMostAll(x, s);
    } else {
      LeastExists(rest);
      var l :| l in rest && AtMostAll(l, rest);
      if Before(x, l) {
        AtMostAllBelow(x, l, rest);
        assert AtMostAll(x, s);
      } else {
        assert AtMostAll(l, s);
      }
    }
  }

  function Least(s: set<string>): (x: string)
    requires s != {}
    ensures x in s && AtMostAll(x, s)
  {
    LeastExists(s);
    assert forall a, b | a in s && AtMostAll(a, s) && b in s && AtMostAll(b, s) :: a == b by {
      forall a, b | a in s && AtMostAll(a, s) && b in s && AtMostAll(b, s) ensures a == b {
        BeforeTotal(a, b);
      }
    }
    var x :| x in s && AtMostAll(x, s);
    x
  }

  /** The keys of a sorted map in iteration order. */
  function SortedKeys(s: set<string>): seq<string>
    decreases |s|
  {
    if s == {} then [] else [Least(s)] + SortedKeys(s - {Least(s)})
  }

  /** Iteration visits every key once, in increasing order. */
  lemma {:induction false} SortedKeysOrder(s: set<string>)
    ensures forall x :: x in SortedKeys(s) <==> x in s
    ensures Increasing(SortedKeys(s))
    decreases |s|
  {
    if s != {} {
      var x := Least(s);
      var rest := SortedKeys(s - {x});
      SortedKeysOrder(s - {x});
      forall y | y in rest ensures Before(x, y) {
        BeforeTotal(x, y);
      }
      assert SortedKeys(s) == [x] + rest;
    }
  }

  ghost function Elements(ids: seq<Id>): set<Id> {
    set id | id in ids
  }

  /** One more element of a prefix. */
  lemma Prefix(ids: seq<Id>, i: nat)
    requires i < |ids|
    ensures ids[..i + 1] == ids[..i] + [ids[i]]
    ensures forall id | id in ids[..i + 1] :: id in ids
    ensures Elements(ids[..i + 1]) == Elements(ids[..i]) + {ids[i]}
    ensures ids[..i + 1][..i] == ids[..i]
  {
    assert ids[..i + 1] == ids[..i] + [ids[i]];
  }

  // ---------------------------------------------------------------- text

  /** Characters removed by trimming (Unicode White_Space). */
  predicate IsSpace(c: char) {
    c in {' ', '\t', '\n', '\r', '\U{0B}', '\U{0C}', '\U{85}', '\U{A0}', '\U{1680}',
          '\U{2028}', '\U{2029}', '\U{202F}', '\U{205F}', '\U{3000}'}
    || '\U{2000}' <= c <= '\U{200A}'
  }

  /** Nothing is left after trimming. */
  predicate IsBlank(s: string) {
    forall i | 0 <= i < |s| :: IsSpace(s[i])
  }

  predicate IsAlphanumeric(c: char) {
    '0' <= c <= '9' || 'a' <= c <= 'z' || 'A' <= c <= 'Z'
  }

  /** Replaces every character that is not an ASCII letter or digit. */
  function Sanitize(s: string): (r: string)
    ensures |r| == |s|
  {
    seq(|s|, i requires 0 <= i < |s| => if IsAlphanumeric(s[i]) then s[i] else '_')
  }

  predicate OccursAt(s: string, part: string, i: nat) {
    i + |part| <= |s| && s[i..i + |part|] == part
  }

  predicate Contains(s: string, part: string) {
    exists i | 0 <= i <= |s| :: OccursAt(s, part, i)
  }

  function Trim(s: string): string {
    if s == [] then []
    else if IsSpace(s[0]) then Trim(s[1..])
    else if IsSpace(s[|s| - 1]) then Trim(s[..|s| - 1])
    else s
  }
}
