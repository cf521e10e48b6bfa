/**
 * Stable descending sort by an integer key: the model of SQL's
 * `ORDER BY <timestamp> DESC`. Rows with equal keys keep their table order
 * (the database leaves that order unspecified; the model fixes one).
 */
module Ordering {
  import opened Wrappers

  /** The position of the first element satisfying `p`: the `.first()` of a filtered query read in table order. */
  function FirstIndex<T>(s: seq<T>, p: T -> bool): (r: Option<nat>)
    ensures r.None? <==> forall i :: 0 <= i < |s| ==> !p(s[i])
    ensures r.Some? ==> r.value < |s| && p(s[r.value])
    ensures r.Some? ==> forall i :: 0 <= i < r.value ==> !p(s[i])
  {
    if s == [] then None
    else if p(s[0]) then Some(0)
    else
      match FirstIndex(s[1..], p)
      case None => None
      case Some(k) => Some(k + 1)
  }

  ghost predicate SortedDesc<T>(s: seq<T>, key: T -> int) {
    forall i, j :: 0 <= i < j < |s| ==> key(s[i]) >= key(s[j])
  }

  /** Inserts `x` before the first element whose key is not larger than its own. */
  function Insert<T>(x: T, s: seq<T>, key: T -> int): (r: seq<T>)
    requires SortedDesc(s, key)
    ensures SortedDesc(r, key)
    ensures multiset(r) == multiset(s) + multiset{x}
    ensures |r| == |s| + 1
  {
    if s == [] then [x]
    else if key(x) >= key(s[0]) then [x] + s
    else
      var tail := Insert(x, s[1..], key);
      assert s == [s[0]] + s[1..];
      HeadDominates(s[0], x, s[1..], tail, key);
      [s[0]] + tail
  }

  /** A head whose key bounds every element of a permutation of `rest + [x]` keeps a sorted list sorted. */
  lemma HeadDominates<T>(h: T, x: T, rest: seq<T>, tail: seq<T>, key: T -> int)
    requires SortedDesc([h] + rest, key) && SortedDesc(tail, key)
    requires key(x) < key(h)
    requires multiset(tail) == multiset(rest) + multiset{x}
    ensures SortedDesc([h] + tail, key)
  {
    forall j | 0 <= j < |tail| ensures key(h) >= key(tail[j]) {
      assert tail[j] in multiset(tail);
      if tail[j] != x {
        assert tail[j] in multiset(rest);
        var k :| 0 <= k < |rest| && rest[k] == tail[j];
        assert ([h] + rest)[0] == h && ([h] + rest)[k + 1] == rest[k];
      }
    }
  }

  /** Insertion sort: the result is ordered by descending key and is a permutation of `s`. */
  function SortDesc<T>(s: seq<T>, key: T -> int): (r: seq<T>)
    ensures SortedDesc(r, key)
    ensures multiset(r) == multiset(s)
    ensures |r| == |s|
  {
    if s == [] then []
    else
      assert s == [s[0]] + s[1..];
      Insert(s[0], SortDesc(s[1..], key), key)
  }

  /** The first `n` elements, or all of them when there are fewer (SQL `LIMIT n`). */
  function Take<T>(s: seq<T>, n: nat): (r: seq<T>)
    ensures |r| == if n < |s| then n else |s|
    ensures r <= s
  {
    if n < |s| then s[..n] else s
  }

  /** The elements that satisfy `p`, in table order (SQL `WHERE`). */
  function Filter<T(==,!new)>(s: seq<T>, p: T -> bool): (r: seq<T>)
    ensures forall x :: x in r <==> x in s && p(x)
    ensures |r| <= |s|
  {
    if s == [] then []
    else (if p(s[0]) then [s[0]] else []) + Filter(s[1..], p)
  }

  /** A sub-multiset holds only elements of the larger collection. */
  lemma SubMultisetMembers<T>(r: seq<T>, s: seq<T>)
    requires multiset(r) <= multiset(s)
    ensures forall x :: x in r ==> x in s
  {
    forall x | x in r ensures x in s {
      assert x in multiset(r);
    }
  }

  /** Every element is kept by exactly one of a filter and its complement. */
  lemma {:induction false} FilterSplit<T(!new)>(s: seq<T>, p: T -> bool, q: T -> bool)
    requires forall x :: q(x) == !p(x)
    ensures |Filter(s, p)| + |Filter(s, q)| == |s|
  {
    if s != [] {
      FilterSplit(s[1..], p, q);
    }
  }

  /** No two elements share a key. */
  ghost predicate KeysDistinct<T>(s: seq<T>, key: T -> int) {
    forall i, j :: 0 <= i < j < |s| ==> key(s[i]) != key(s[j])
  }

  /** Filtering keeps distinct keys distinct. */
  lemma {:induction false} FilterKeepsKeysDistinct<T(!new)>(s: seq<T>, p: T -> bool, key: T -> int)
    requires KeysDistinct(s, key)
    ensures KeysDistinct(Filter(s, p), key)
  {
    if s != [] {
      var rest := Filter(s[1..], p);
      FilterKeepsKeysDistinct(s[1..], p, key);
      forall j | 0 <= j < |rest| ensures key(rest[j]) != key(s[0]) {
        assert rest[j] in s[1..];
      }
      if p(s[0]) {
        var r := [s[0]] + rest;
        assert Filter(s, p) == r;
        forall i, j | 0 <= i < j < |r| ensures key(r[i]) != key(r[j]) {
          assert r[j] == rest[j - 1];
          if i > 0 {
            assert r[i] == rest[i - 1];
          } else {
            assert r[i] == s[0];
          }
        }
      } else {
        assert Filter(s, p) == rest;
      }
    }
  }

  /**
   * `ORDER BY key DESC LIMIT n`: at most `n` elements of `s`, newest first;
   * an element is left out only when the limit is reached, and then it is no
   * newer than any element returned.
   */
  function TopN<T(==,!new)>(s: seq<T>, key: T -> int, n: nat): (r: seq<T>)
    ensures SortedDesc(r, key)
    ensures |r| == if n < |s| then n else |s|
    ensures multiset(r) <= multiset(s)
    ensures forall x :: x in s && x !in r ==> |r| == n && forall y :: y in r ==> key(y) >= key(x)
  {
    var sorted := SortDesc(s, key);
    TakeOfSortedDominates(s, sorted, key, n);
    Take(sorted, n)
  }

  /** Whatever a prefix of the sorted sequence leaves out is ranked below all it keeps. */
  lemma TakeOfSortedDominates<T>(s: seq<T>, sorted: seq<T>, key: T -> int, n: nat)
    requires SortedDesc(sorted, key) && multiset(sorted) == multiset(s)
    ensures multiset(Take(sorted, n)) <= multiset(s)
    ensures forall x :: x in s && x !in Take(sorted, n) ==>
              |Take(sorted, n)| == n && forall y :: y in Take(sorted, n) ==> key(y) >= key(x)
  {
    var r := Take(sorted, n);
    assert sorted == r + sorted[|r|..];
    assert multiset(sorted) == multiset(r) + multiset(sorted[|r|..]);
    forall x | x in s && x !in r ensures |r| == n && forall y :: y in r ==> key(y) >= key(x) {
      assert x in multiset(sorted);
      var j :| 0 <= j < |sorted| && sorted[j] == x;
      forall y | y in r ensures key(y) >= key(x) {
        var i :| 0 <= i < |r| && r[i] == y;
        assert sorted[i] == y;
      }
    }
  }
}
