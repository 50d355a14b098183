/**
 * The stable sort that every script relies on (Python `sorted` and `list.sort`, with or without
 * `reverse=True`, and JavaScript's `Array.prototype.sort`): elements are ordered by a real-valued
 * key, ascending or descending, and elements with equal keys keep their original relative order.
 */
module Sorting {
  import opened Common

  /** x may stand before y: its key is no larger (ascending) or no smaller (descending). */
  predicate Precedes<T>(key: T -> real, desc: bool, x: T, y: T) {
    if desc then key(x) >= key(y) else key(x) <= key(y)
  }

  predicate Sorted<T>(s: seq<T>, key: T -> real, desc: bool) {
    forall i, j :: 0 <= i < j < |s| ==> Precedes(key, desc, s[i], s[j])
  }

  /** The elements whose key is v, in their order of appearance. A sort is stable when it keeps these. */
  function WithKey<T>(s: seq<T>, key: T -> real, v: real): seq<T> {
    if s == [] then []
    else (if key(s[0]) == v then [s[0]] else []) + WithKey(s[1..], key, v)
  }

  /** Puts x in front of the first element it may precede. */
  function Insert<T>(x: T, s: seq<T>, key: T -> real, desc: bool): (r: seq<T>)
    ensures multiset(r) == multiset{x} + multiset(s)
    ensures |r| == |s| + 1
  {
    if s == [] || Precedes(key, desc, x, s[0]) then
      [x] + s
    else
      assert s == [s[0]] + s[1..];
      [s[0]] + Insert(x, s[1..], key, desc)
  }

  /** Inserting into a sorted sequence keeps it sorted. */
  lemma {:induction false} InsertSorted<T>(x: T, s: seq<T>, key: T -> real, desc: bool)
    requires Sorted(s, key, desc)
    ensures Sorted(Insert(x, s, key, desc), key, desc)
  {
    if s != [] && !Precedes(key, desc, x, s[0]) {
      var t := Insert(x, s[1..], key, desc);
      InsertSorted(x, s[1..], key, desc);
      assert s == [s[0]] + s[1..];
      forall k | 0 <= k < |t| ensures Precedes(key, desc, s[0], t[k]) {
        assert t[k] in multiset(t);
        assert t[k] == x || t[k] in multiset(s[1..]);
      }
      ConsSorted(s[0], t, key, desc);
    }
  }

  /** A sorted sequence stays sorted with an element in front that may precede all of it. */
  lemma ConsSorted<T>(y: T, t: seq<T>, key: T -> real, desc: bool)
    requires Sorted(t, key, desc)
    requires forall k :: 0 <= k < |t| ==> Precedes(key, desc, y, t[k])
    ensures Sorted([y] + t, key, desc)
  {
    var r := [y] + t;
    forall i, j | 0 <= i < j < |r| ensures Precedes(key, desc, r[i], r[j]) {
      if i > 0 { assert r[i] == t[i - 1] && r[j] == t[j - 1]; }
      else { assert r[j] == t[j - 1]; }
    }
  }

  /** Inserting x adds it in front of the elements that share its key and touches no other key. */
  lemma {:induction false} InsertWithKey<T>(x: T, s: seq<T>, key: T -> real, desc: bool, v: real)
    ensures WithKey(Insert(x, s, key, desc), key, v)
         == if key(x) == v then [x] + WithKey(s, key, v) else WithKey(s, key, v)
  {
    if s == [] || Precedes(key, desc, x, s[0]) {
      WithKeyCons(x, s, key, v);
    } else {
      var t := Insert(x, s[1..], key, desc);
      assert Insert(x, s, key, desc) == [s[0]] + t;
      assert s == [s[0]] + s[1..];
      WithKeyCons(s[0], t, key, v);
      WithKeyCons(s[0], s[1..], key, v);
      InsertWithKey(x, s[1..], key, desc, v);
      if key(x) == v {
        assert key(s[0]) != v;
        var rest := WithKey(s[1..], key, v);
        assert WithKey(s, key, v) == [] + rest;
        assert WithKey(Insert(x, s, key, desc), key, v) == [] + ([x] + rest);
        assert [] + rest == rest && [] + ([x] + rest) == [x] + rest;
      }
    }
  }

  /** The element in front is kept by its own key's filter only. */
  lemma WithKeyCons<T>(y: T, t: seq<T>, key: T -> real, v: real)
    ensures WithKey([y] + t, key, v) == (if key(y) == v then [y] else []) + WithKey(t, key, v)
  {
    assert ([y] + t)[0] == y && ([y] + t)[1..] == t;
  }

  /** Stable insertion sort: a permutation of s, sorted by key, with equal keys in their original order. */
  function SortBy<T>(s: seq<T>, key: T -> real, desc: bool): (r: seq<T>)
    ensures multiset(r) == multiset(s)
    ensures |r| == |s|
    ensures Sorted(r, key, desc)
    ensures forall v :: WithKey(r, key, v) == WithKey(s, key, v)
  {
    if s == [] then []
    else
      assert s == [s[0]] + s[1..];
      var rest := SortBy(s[1..], key, desc);
      var r := Insert(s[0], rest, key, desc);
      InsertSorted(s[0], rest, key, desc);
      assert forall v :: WithKey(r, key, v) == WithKey(s, key, v) by {
        forall v ensures WithKey(r, key, v) == WithKey(s, key, v) {
          InsertWithKey(s[0], rest, key, desc, v);
        }
      }
      r
  }

  /** Sorting a sequence that is already in order changes nothing. */
  lemma {:induction false} SortSorted<T>(s: seq<T>, key: T -> real, desc: bool)
    requires Sorted(s, key, desc)
    ensures SortBy(s, key, desc) == s
  {
    if s != [] {
      SortSorted(s[1..], key, desc);
      assert s == [s[0]] + s[1..];
    }
  }

  /** In a sorted sequence, everything after position n may be preceded by everything before it. */
  lemma SortedSplit<T>(s: seq<T>, key: T -> real, desc: bool, n: nat)
    requires Sorted(s, key, desc) && n <= |s|
    ensures forall x, y :: x in s[..n] && y in s[n..] ==> Precedes(key, desc, x, y)
  {
    forall x, y | x in s[..n] && y in s[n..] ensures Precedes(key, desc, x, y) {
      var i :| 0 <= i < n && s[i] == x;
      var j :| 0 <= j < |s| - n && s[n..][j] == y;
      assert s[n + j] == y;
    }
  }

  /** Projecting a permutation preserves pairwise distinctness of the projection. */
  lemma DistinctByPermutation<T, K>(r: seq<T>, s: seq<T>, id: T -> K)
    requires multiset(r) == multiset(s)
    requires forall i, j :: 0 <= i < j < |s| ==> id(s[i]) != id(s[j])
    ensures forall i, j :: 0 <= i < j < |r| ==> id(r[i]) != id(r[j])
  {
    forall i, j | 0 <= i < j < |r| ensures id(r[i]) != id(r[j]) {
      assert r[i] in multiset(r) && r[j] in multiset(r);
      assert r[i] in s && r[j] in s;
      var p :| 0 <= p < |s| && s[p] == r[i];
      var q :| 0 <= q < |s| && s[q] == r[j];
      if p == q {
        Twice(r, i, j);
        AtMostOnce(s, id, p);
        assert false;
      }
    }
  }

  /** An element found at two positions occurs at least twice. */
  lemma Twice<T>(r: seq<T>, i: nat, j: nat)
    requires i < j < |r| && r[i] == r[j]
    ensures multiset(r)[r[i]] >= 2
  {
    assert r == r[..i] + [r[i]] + r[i+1..j] + [r[j]] + r[j+1..];
  }

  /** An element of a sequence whose projection is pairwise distinct occurs there only once. */
  lemma {:induction false} AtMostOnce<T, K>(s: seq<T>, id: T -> K, p: nat)
    requires p < |s|
    requires forall i, j :: 0 <= i < j < |s| ==> id(s[i]) != id(s[j])
    ensures multiset(s)[s[p]] == 1
  {
    assert s == s[..p] + [s[p]] + s[p+1..];
    var rest := s[..p] + s[p+1..];
    forall k | 0 <= k < |rest| ensures rest[k] != s[p] {
      if k < p { assert rest[k] == s[k]; } else { assert rest[k] == s[k + 1]; }
    }
    assert s[p] !in multiset(rest);
  }

  /**
   * `sorted(s, key=...)[:m]`: sorted, taken from s, and whatever the cut removes may be preceded by
   * everything it keeps.
   */
  lemma SortedHead<T>(s: seq<T>, key: T -> real, desc: bool, m: int)
    ensures Sorted(Head(SortBy(s, key, desc), m), key, desc)
    ensures multiset(Head(SortBy(s, key, desc), m)) <= multiset(s)
    ensures forall x, y :: x in Head(SortBy(s, key, desc), m) && y in multiset(s) - multiset(Head(SortBy(s, key, desc), m)) ==>
              Precedes(key, desc, x, y)
  {
    var sorted := SortBy(s, key, desc);
    var r := Head(sorted, m);
    assert r == sorted[..|r|];
    CutSorted(sorted, key, desc, |r|);
  }

  /**
   * Cutting a sorted sequence after n elements: the prefix is part of it, and whatever the cut
   * removes may be preceded by everything the prefix keeps.
   */
  lemma CutSorted<T>(s: seq<T>, key: T -> real, desc: bool, n: nat)
    requires Sorted(s, key, desc) && n <= |s|
    ensures Sorted(s[..n], key, desc)
    ensures multiset(s[..n]) <= multiset(s)
    ensures forall x, y :: x in s[..n] && y in multiset(s) - multiset(s[..n]) ==> Precedes(key, desc, x, y)
  {
    assert forall i :: 0 <= i < n ==> s[..n][i] == s[i];
    assert s == s[..n] + s[n..];
    assert multiset(s) - multiset(s[..n]) == multiset(s[n..]);
    SortedSplit(s, key, desc, n);
  }
}
