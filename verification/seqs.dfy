/**
 * Sequence combinators behind the client's collection code (`filter`,
 * `compactMap`, `removeAll(where:)`, `first`, `firstIndex(of:)`) and behind
 * the query builder's `order(...)` and `limit(...)`.
 */
module Seqs {
  import opened Wrappers

  /** `a` can be obtained from `b` by deleting elements: order is preserved. */
  ghost predicate IsSubsequence<T>(a: seq<T>, b: seq<T>)
    decreases |b|
  {
    |a| == 0 || (|b| > 0 && if a[0] == b[0] then IsSubsequence(a[1..], b[1..]) else IsSubsequence(a, b[1..]))
  }

  /** The elements of `s` that satisfy `p`, in their original order. */
  function Filter<T(!new)>(p: T -> bool, s: seq<T>): (r: seq<T>)
    ensures |r| <= |s|
    ensures forall x :: x in r <==> x in s && p(x)
    ensures forall x :: multiset(r)[x] == if p(x) then multiset(s)[x] else 0
    ensures IsSubsequence(r, s)
    decreases |s|
  {
    if |s| == 0 then []
    else
      assert s == [s[0]] + s[1..];
      var rest := Filter(p, s[1..]);
      if p(s[0]) then [s[0]] + rest else rest
  }

  /** Swift's `map`. */
  function Map<T, U>(f: T -> U, s: seq<T>): (r: seq<U>)
    ensures |r| == |s|
    ensures forall i :: 0 <= i < |s| ==> r[i] == f(s[i])
  {
    seq(|s|, i requires 0 <= i < |s| => f(s[i]))
  }

  /** Swift's `first`. */
  function First<T>(s: seq<T>): (r: Option<T>)
    ensures r.None? <==> |s| == 0
    ensures r.Some? ==> r.value == s[0]
  {
    if |s| == 0 then None else Some(s[0])
  }

  /** Swift's `firstIndex(of:)`: the position of the first occurrence of `x`. */
  function IndexOf<T(==)>(s: seq<T>, x: T): (r: Option<nat>)
    ensures r.None? <==> x !in s
    ensures r.Some? ==> r.value < |s| && s[r.value] == x && x !in s[..r.value]
    decreases |s|
  {
    if |s| == 0 then None
    else if s[0] == x then Some(0)
    else
      var i := IndexOf(s[1..], x);
      if i.None? then None
      else
        assert s[..i.value + 1] == [s[0]] + s[1..][..i.value];
        Some(i.value + 1)
  }

  /** The query builder's `limit(n)`: at most the first `n` rows. */
  function Take<T>(s: seq<T>, n: nat): (r: seq<T>)
    ensures |r| == if n < |s| then n else |s|
    ensures r == s[..|r|]
  {
    if n < |s| then s[..n] else s
  }

  /** Keys are non-decreasing along `s`. */
  ghost predicate SortedBy<T>(s: seq<T>, key: T -> int) {
    forall i, j :: 0 <= i < j < |s| ==> key(s[i]) <= key(s[j])
  }

  /** Inserts `x` into an already sorted sequence, before the first larger key. */
  function InsertBy<T>(x: T, s: seq<T>, key: T -> int): (r: seq<T>)
    requires SortedBy(s, key)
    ensures SortedBy(r, key)
    ensures multiset(r) == multiset(s) + multiset{x}
    ensures forall i :: 0 <= i < |r| ==> r[i] == x || r[i] in s
    decreases |s|
  {
    if |s| == 0 then [x]
    else if key(x) <= key(s[0]) then [x] + s
    else
      assert s == [s[0]] + s[1..];
      var rest := InsertBy(x, s[1..], key);
      ConsSorted(s[0], rest, key, x, s[1..]);
      ConsFacts(s, rest, x);
      [s[0]] + rest
  }

  /** Re-attaching the head to the insertion into the tail accounts for every element. */
  lemma ConsFacts<T>(s: seq<T>, rest: seq<T>, x: T)
    requires |s| > 0
    requires multiset(rest) == multiset(s[1..]) + multiset{x}
    requires forall i :: 0 <= i < |rest| ==> rest[i] == x || rest[i] in s[1..]
    ensures multiset([s[0]] + rest) == multiset(s) + multiset{x}
    ensures forall i :: 0 <= i < |rest| + 1 ==> ([s[0]] + rest)[i] == x || ([s[0]] + rest)[i] in s
  {
    assert s == [s[0]] + s[1..];
    forall i | 0 <= i < |rest| + 1 ensures ([s[0]] + rest)[i] == x || ([s[0]] + rest)[i] in s {
      if i > 0 {
        assert ([s[0]] + rest)[i] == rest[i - 1];
      }
    }
  }

  /** Putting a least element in front of a sorted sequence keeps it sorted. */
  lemma ConsSorted<T>(h: T, rest: seq<T>, key: T -> int, x: T, tail: seq<T>)
    requires SortedBy(rest, key)
    requires forall i :: 0 <= i < |rest| ==> rest[i] == x || rest[i] in tail
    requires key(h) < key(x)
    requires forall y :: y in tail ==> key(h) <= key(y)
    ensures SortedBy([h] + rest, key)
  {
    var r := [h] + rest;
    forall i, j | 0 <= i < j < |r| ensures key(r[i]) <= key(r[j]) {
      if i == 0 {
        assert r[j] == rest[j - 1];
      } else {
        assert r[i] == rest[i - 1] && r[j] == rest[j - 1];
      }
    }
  }

  /**
   * The query builder's `order(column)`: a permutation of `s` whose keys are
   * non-decreasing. The store leaves the relative order of equal keys open;
   * the model fixes one choice, and nothing below depends on it.
   */
  function SortBy<T>(s: seq<T>, key: T -> int): (r: seq<T>)
    ensures SortedBy(r, key)
    ensures multiset(r) == multiset(s)
    decreases |s|
  {
    if |s| == 0 then []
    else
      assert s == [s[0]] + s[1..];
      InsertBy(s[0], SortBy(s[1..], key), key)
  }

  /**
   * Splitting by a predicate and its negation loses and invents nothing:
   * the two parts together are a permutation of the whole.
   */
  lemma FilterPartition<T(!new)>(p: T -> bool, s: seq<T>)
    ensures multiset(Filter(p, s)) + multiset(Filter(x => !p(x), s)) == multiset(s)
    ensures forall x :: !(x in Filter(p, s) && x in Filter(x => !p(x), s))
  {
    var a, b := Filter(p, s), Filter(x => !p(x), s);
    forall x ensures (multiset(a) + multiset(b))[x] == multiset(s)[x] {
    }
  }

  /**
   * Taking a prefix of a sorted sequence keeps the largest-ranked rows: every
   * element left out has a key no smaller than every element kept.
   */
  lemma {:induction false} TakeSortedKeepsLeast<T>(s: seq<T>, key: T -> int, n: nat)
    requires SortedBy(s, key)
    ensures multiset(Take(s, n)) <= multiset(s)
    ensures forall x, y :: x in multiset(s) - multiset(Take(s, n)) && y in Take(s, n) ==> key(y) <= key(x)
  {
    var k := |Take(s, n)|;
    assert s == s[..k] + s[k..];
    assert multiset(s) == multiset(s[..k]) + multiset(s[k..]);
    assert multiset(s) - multiset(Take(s, n)) == multiset(s[k..]);
    forall x, y | x in multiset(s[k..]) && y in s[..k]
      ensures key(y) <= key(x)
    {
      var i :| 0 <= i < k && s[i] == y;
      var j :| 0 <= j < |s| - k && s[k..][j] == x;
      assert s[k + j] == x;
    }
  }

  /**
   * A query without `limit`: exactly the rows satisfying `p`, each as often
   * as in the table, ordered by `key`.
   */
  function SelectAll<T(!new)>(table: seq<T>, p: T -> bool, key: T -> int): (rows: seq<T>)
    ensures forall x :: multiset(rows)[x] == if p(x) then multiset(table)[x] else 0
    ensures forall x :: x in rows <==> x in table && p(x)
    ensures SortedBy(rows, key)
  {
    var rows := SortBy(Filter(p, table), key);
    assert forall x :: x in rows <==> x in multiset(rows);
    rows
  }

  /**
   * A query with `limit`: at most `limit` rows satisfying `p`, ordered by
   * `key`, and they are the first ones in that order — every matching row left
   * out ranks no earlier than every row kept.
   */
  function SelectTop<T(!new)>(table: seq<T>, p: T -> bool, key: T -> int, limit: nat): (rows: seq<T>)
    ensures |rows| <= limit
    ensures forall x :: x in rows ==> x in table && p(x)
    ensures multiset(rows) <= multiset(table)
    ensures SortedBy(rows, key)
    ensures forall x, y :: x in multiset(table) - multiset(rows) && p(x) && y in rows ==> key(y) <= key(x)
    ensures |rows| < limit ==> forall x :: p(x) ==> multiset(rows)[x] == multiset(table)[x]
  {
    var all := SelectAll(table, p, key);
    var rows := Take(all, limit);
    SelectTopFacts(table, p, key, limit, all, rows);
    rows
  }

  lemma SelectTopFacts<T(!new)>(table: seq<T>, p: T -> bool, key: T -> int, limit: nat, all: seq<T>, rows: seq<T>)
    requires all == SelectAll(table, p, key) && rows == Take(all, limit)
    ensures forall x :: x in rows ==> x in table && p(x)
    ensures multiset(rows) <= multiset(table)
    ensures SortedBy(rows, key)
    ensures forall x, y :: x in multiset(table) - multiset(rows) && p(x) && y in rows ==> key(y) <= key(x)
    ensures |rows| < limit ==> forall x :: p(x) ==> multiset(rows)[x] == multiset(table)[x]
  {
    TakeSortedKeepsLeast(all, key, limit);
    PrefixMembers(all, rows);
    forall x ensures multiset(rows)[x] <= multiset(table)[x] {
      assert multiset(rows)[x] <= multiset(all)[x];
    }
    forall x | p(x) ensures (multiset(table) - multiset(rows))[x] == (multiset(all) - multiset(rows))[x] {
    }
    PrefixSorted(all, rows, key);
  }

  /** Every element of a prefix is an element of the whole. */
  lemma PrefixMembers<T>(s: seq<T>, prefix: seq<T>)
    requires |prefix| <= |s| && prefix == s[..|prefix|]
    ensures forall x :: x in prefix ==> x in s
  {
    forall x | x in prefix ensures x in s {
      var i :| 0 <= i < |prefix| && prefix[i] == x;
      assert s[i] == x;
    }
  }

  /** A prefix of a sorted sequence is sorted. */
  lemma PrefixSorted<T>(s: seq<T>, prefix: seq<T>, key: T -> int)
    requires SortedBy(s, key)
    requires |prefix| <= |s| && prefix == s[..|prefix|]
    ensures SortedBy(prefix, key)
  {
    forall i, j | 0 <= i < j < |prefix| ensures key(prefix[i]) <= key(prefix[j]) {
      assert prefix[i] == s[i] && prefix[j] == s[j];
    }
  }
}
