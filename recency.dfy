/**
 * The dashboard's ordering, `sort((a, b) => new Date(b.timestamp) - new Date(a.timestamp))`:
 * most recent first. `Array.prototype.sort` is stable, so records with equal
 * timestamps keep their relative order. The sort here inserts each record in
 * front of the records with its own timestamp, which keeps it stable.
 */
module Recency {
  import opened Violations

  /** Most recent first. */
  ghost predicate Descending(s: seq<Violation>)
  {
    forall i, j :: 0 <= i < j < |s| ==> s[i].instant >= s[j].instant
  }

  /** The records with timestamp `t`, in their order in `s`. */
  function WithTimestamp(s: seq<Violation>, t: int): (r: seq<Violation>)
    ensures forall v :: v in r <==> v in s && v.instant == t
  {
    if s == [] then []
    else if s[0].instant == t then [s[0]] + WithTimestamp(s[1..], t)
    else WithTimestamp(s[1..], t)
  }

  /** For every timestamp, `r` holds the records with that timestamp in the order `s` holds them. */
  ghost predicate SameTies(r: seq<Violation>, s: seq<Violation>)
  {
    forall t :: WithTimestamp(r, t) == WithTimestamp(s, t)
  }

  /** Inserts `v` before the first record that is not more recent than it. */
  function Insert(v: Violation, s: seq<Violation>): (r: seq<Violation>)
    ensures multiset(r) == multiset(s) + multiset{v}
    ensures |r| == |s| + 1
    ensures r[0] == v || (s != [] && r[0] == s[0])
  {
    if s == [] then [v]
    else if v.instant >= s[0].instant then [v] + s
    else
      assert s == [s[0]] + s[1..];
      [s[0]] + Insert(v, s[1..])
  }

  /** Inserting into a list that is most recent first keeps it so. */
  lemma {:induction false} InsertDescending(v: Violation, s: seq<Violation>)
    requires Descending(s)
    ensures Descending(Insert(v, s))
  {
    if s != [] && v.instant < s[0].instant {
      var rest := Insert(v, s[1..]);
      InsertDescending(v, s[1..]);
      assert rest[0].instant <= s[0].instant;
      assert forall j :: 0 <= j < |rest| ==> rest[j].instant <= rest[0].instant;
      assert Insert(v, s) == [s[0]] + rest;
    }
  }

  /** The sort of the dashboard: a permutation of its input, most recent first. */
  function SortByRecency(s: seq<Violation>): (r: seq<Violation>)
    ensures multiset(r) == multiset(s)
    ensures |r| == |s|
    ensures Descending(r)
  {
    if s == [] then []
    else
      assert s == [s[0]] + s[1..];
      var sorted := SortByRecency(s[1..]);
      InsertDescending(s[0], sorted);
      Insert(s[0], sorted)
  }

  lemma {:induction false} WithTimestampAppend(a: seq<Violation>, b: seq<Violation>, t: int)
    ensures WithTimestamp(a + b, t) == WithTimestamp(a, t) + WithTimestamp(b, t)
  {
    if a == [] {
      assert a + b == b;
    } else {
      assert (a + b)[1..] == a[1..] + b;
      WithTimestampAppend(a[1..], b, t);
    }
  }

  /** The tie group of a one-record list. */
  lemma WithTimestampSingle(v: Violation, t: int)
    ensures WithTimestamp([v], t) == if v.instant == t then [v] else []
  {
    WithTimestampCons([v], t);
    assert [v][1..] == [];
  }

  /**
   * One tie group of an insertion behind the head: the head and the inserted
   * record have different timestamps, so at most one of them is in the group.
   */
  lemma InsertBehindTies(v: Violation, s: seq<Violation>, t: int)
    requires s != [] && v.instant < s[0].instant
    requires WithTimestamp(Insert(v, s[1..]), t) == WithTimestamp([v] + s[1..], t)
    ensures WithTimestamp(Insert(v, s), t) == WithTimestamp([v] + s, t)
  {
    var head := WithTimestamp([s[0]], t);
    var added := WithTimestamp([v], t);
    var tail := WithTimestamp(s[1..], t);
    WithTimestampSingle(s[0], t);
    WithTimestampSingle(v, t);
    assert head == [] || added == [];
    InsertBehind(v, s);
    WithTimestampAppend([s[0]], Insert(v, s[1..]), t);
    WithTimestampAppend([v], s[1..], t);
    assert WithTimestamp(Insert(v, s), t) == head + (added + tail);
    WithTimestampAppend([v], s, t);
    WithTimestampCons(s, t);
    assert WithTimestamp([v] + s, t) == added + (head + tail);
  }

  /** Inserting `v` keeps it ahead of the records that share its timestamp. */
  lemma {:induction false} InsertSameTies(v: Violation, s: seq<Violation>)
    ensures SameTies(Insert(v, s), [v] + s)
  {
    if s != [] && v.instant < s[0].instant {
      InsertSameTies(v, s[1..]);
      forall t
        ensures WithTimestamp(Insert(v, s), t) == WithTimestamp([v] + s, t)
      {
        InsertBehindTies(v, s, t);
      }
    }
  }

  /** The sort is stable: records with equal timestamps keep their relative order. */
  lemma {:induction false} SortIsStable(s: seq<Violation>)
    ensures SameTies(SortByRecency(s), s)
  {
    if s != [] {
      SortIsStable(s[1..]);
      var sorted := SortByRecency(s[1..]);
      InsertSameTies(s[0], sorted);
      forall t
        ensures WithTimestamp(SortByRecency(s), t) == WithTimestamp(s, t)
      {
        WithTimestampAppend([s[0]], sorted, t);
        WithTimestampAppend([s[0]], s[1..], t);
        assert s == [s[0]] + s[1..];
      }
    }
  }

  lemma DescendingHead(s: seq<Violation>, k: int)
    requires Descending(s) && 0 <= k < |s|
    ensures s[k].instant <= s[0].instant
  {
  }

  lemma WithTimestampCons(s: seq<Violation>, t: int)
    requires s != []
    ensures WithTimestamp(s, t) == (if s[0].instant == t then [s[0]] else []) + WithTimestamp(s[1..], t)
  {
  }

  /** A record of `s` whose timestamp is that of another record of `s` is no more recent than `s[0]`. */
  lemma TiedIsNotNewer(s: seq<Violation>, v: Violation)
    requires Descending(s) && v in s
    ensures v.instant <= s[0].instant
  {
    var k :| 0 <= k < |s| && s[k] == v;
    DescendingHead(s, k);
  }

  /** A list with no record at any timestamp is empty. */
  lemma NothingTiedIsEmpty(s: seq<Violation>)
    requires forall t :: WithTimestamp(s, t) == []
    ensures s == []
  {
    var t := if s == [] then 0 else s[0].instant;
    assert WithTimestamp(s, t) == [];
  }

  /**
   * A list that is most recent first and keeps the input's order among equal
   * timestamps is unique: two such lists are equal.
   */
  lemma {:induction false} TiesDetermineOrder(a: seq<Violation>, b: seq<Violation>)
    requires Descending(a) && Descending(b) && SameTies(a, b)
    ensures a == b
    decreases |a|
  {
    if a == [] || b == [] {
      if a == [] {
        NothingTiedIsEmpty(b);
      } else {
        NothingTiedIsEmpty(a);
      }
    } else {
      var ta, tb := a[0].instant, b[0].instant;
      assert a[0] in WithTimestamp(b, ta) by {
        assert a[0] in WithTimestamp(a, ta);
      }
      TiedIsNotNewer(b, a[0]);
      assert b[0] in WithTimestamp(a, tb) by {
        assert b[0] in WithTimestamp(b, tb);
      }
      TiedIsNotNewer(a, b[0]);
      assert ta == tb;
      WithTimestampCons(a, ta);
      WithTimestampCons(b, ta);
      assert a[0] == WithTimestamp(a, ta)[0] == WithTimestamp(b, ta)[0] == b[0];
      forall t
        ensures WithTimestamp(a[1..], t) == WithTimestamp(b[1..], t)
      {
        WithTimestampCons(a, t);
        WithTimestampCons(b, t);
        var head := if a[0].instant == t then [a[0]] else [];
        assert WithTimestamp(a, t) == head + WithTimestamp(a[1..], t);
        assert WithTimestamp(b, t) == head + WithTimestamp(b[1..], t);
        assert WithTimestamp(a[1..], t) == WithTimestamp(a, t)[|head|..];
        assert WithTimestamp(b[1..], t) == WithTimestamp(b, t)[|head|..];
      }
      TiesDetermineOrder(a[1..], b[1..]);
      assert a == [a[0]] + a[1..] && b == [b[0]] + b[1..];
    }
  }

  /**
   * `SortByRecency` is the result of every stable most-recent-first sort, and so
   * the result of `Array.prototype.sort` with the dashboard's comparator.
   */
  lemma SortIsTheStableSort(s: seq<Violation>, r: seq<Violation>)
    requires Descending(r) && SameTies(r, s)
    ensures r == SortByRecency(s)
  {
    SortIsStable(s);
    TiesDetermineOrder(r, SortByRecency(s));
  }

  /** Sorting a list that is already most recent first changes nothing. */
  lemma SortFixesDescending(s: seq<Violation>)
    requires Descending(s)
    ensures SortByRecency(s) == s
  {
    SortIsTheStableSort(s, s);
  }

  /** The first step of sorting a non-empty list: its head is inserted into its sorted tail. */
  lemma SortStep(s: seq<Violation>)
    requires s != []
    ensures SortByRecency(s) == Insert(s[0], SortByRecency(s[1..]))
  {
  }

  /** A record that is not older than the head goes in front. */
  lemma InsertInFront(v: Violation, s: seq<Violation>)
    requires s != [] && v.instant >= s[0].instant
    ensures Insert(v, s) == [v] + s
  {
  }

  /** A record older than the head goes somewhere behind it. */
  lemma InsertBehind(v: Violation, s: seq<Violation>)
    requires s != [] && v.instant < s[0].instant
    ensures Insert(v, s) == [s[0]] + Insert(v, s[1..])
  {
  }

  lemma SortSingle(c: Violation)
    ensures SortByRecency([c]) == [c]
  {
    SortStep([c]);
    assert [c][1..] == [];
  }

  lemma SortPair(b: Violation, c: Violation)
    requires b.instant < c.instant
    ensures SortByRecency([b, c]) == [c, b]
  {
    SortStep([b, c]);
    assert [b, c][1..] == [c];
    SortSingle(c);
    InsertBehind(b, [c]);
    assert [c][1..] == [];
  }

  /** A record between the two of a pair goes between them. */
  lemma InsertBetween(v: Violation, first: Violation, second: Violation)
    requires second.instant <= v.instant < first.instant
    ensures Insert(v, [first, second]) == [first, v, second]
  {
    InsertBehind(v, [first, second]);
    assert [first, second][1..] == [second];
    InsertInFront(v, [second]);
  }

  /** Timestamps T-2, T-5, T-1 come out as T-1, T-2, T-5. */
  lemma SortExample(t: int, a: Violation, b: Violation, c: Violation)
    requires a.instant == t - 2 && b.instant == t - 5 && c.instant == t - 1
    ensures SortByRecency([a, b, c]) == [c, a, b]
  {
    SortStep([a, b, c]);
    assert [a, b, c][1..] == [b, c];
    SortPair(b, c);
    InsertBetween(a, c, b);
  }
}
