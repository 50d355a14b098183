/** Small shared vocabulary: optional values, Python slicing and ordered keys. */
module Common {

  /** A value that may be absent (a missing dict key, `None`, `undefined`). */
  datatype Option<T> = None | Some(value: T)

  function Min(a: int, b: int): int { if a <= b then a else b }

  function Max(a: int, b: int): int { if a >= b then a else b }

  /** Python's `s[:n]`: the first n elements, where a negative n drops -n elements from the end. */
  function Head<T>(s: seq<T>, n: int): (r: seq<T>)
    ensures r <= s
    ensures |r| == if n >= 0 then Min(n, |s|) else Max(0, |s| + n)
  {
    if n >= 0 then (if n <= |s| then s[..n] else s)
    else if |s| + n >= 0 then s[..|s| + n]
    else []
  }

  /** The concatenation of the inner sequences, in order (nested `for` loops over a nested list). */
  function Flatten<T>(s: seq<seq<T>>): seq<T> {
    if s == [] then [] else Flatten(s[..|s| - 1]) + s[|s| - 1]
  }

  /** Flattening one more inner list appends it. */
  lemma FlattenSnoc<T>(s: seq<seq<T>>, d: nat)
    requires d < |s|
    ensures Flatten(s[..d + 1]) == Flatten(s[..d]) + s[d]
  {
    assert s[..d + 1][..d] == s[..d];
  }

  /** A non-empty set has an element. */
  lemma NonEmptyHasElement(s: set<int>)
    requires s != {}
    ensures exists y :: y in s
  {
    if forall y :: y !in s {
      assert false;
    }
  }

  /** A greatest element, chosen without regard to uniqueness (proof use only). */
  ghost function Top(s: set<int>): (m: int)
    requires s != {}
    ensures m in s && forall x :: x in s ==> x <= m
    decreases |s|
  {
    NonEmptyHasElement(s);
    var y :| y in s;
    var rest := s - {y};
    assert forall x :: x in s ==> x == y || x in rest;
    if rest == {} then y
    else
      var m := Top(rest);
      if y > m then y else m
  }

  /** A least element, chosen without regard to uniqueness (proof use only). */
  ghost function Bottom(s: set<int>): (m: int)
    requires s != {}
    ensures m in s && forall x :: x in s ==> m <= x
    decreases |s|
  {
    NonEmptyHasElement(s);
    var y :| y in s;
    var rest := s - {y};
    assert forall x :: x in s ==> x == y || x in rest;
    if rest == {} then y
    else
      var m := Bottom(rest);
      if y < m then y else m
  }

  /** The largest element (`max(keys)`, `sorted(keys, reverse=True)[0]`). */
  function Greatest(s: set<int>): (m: int)
    requires s != {}
    ensures m in s && forall x :: x in s ==> x <= m
  {
    assert Top(s) in s;
    var m :| m in s && forall x | x in s :: x <= m;
    m
  }

  /** The smallest element (`sorted(keys)[0]`). */
  function Least(s: set<int>): (m: int)
    requires s != {}
    ensures m in s && forall x :: x in s ==> m <= x
  {
    assert Bottom(s) in s;
    var m :| m in s && forall x | x in s :: m <= x;
    m
  }

  /** A strictly decreasing sequence stays so with a larger element in front. */
  lemma PrependGreater(m: int, rest: seq<int>)
    requires forall i, j :: 0 <= i < j < |rest| ==> rest[i] > rest[j]
    requires forall x :: x in rest ==> x < m
    ensures forall i, j :: 0 <= i < j < |[m] + rest| ==> ([m] + rest)[i] > ([m] + rest)[j]
  {
    var r := [m] + rest;
    forall i, j | 0 <= i < j < |r| ensures r[i] > r[j] {
      assert r[j] == rest[j - 1];
      if i > 0 {
        assert r[i] == rest[i - 1];
      } else {
        assert r[j] in rest;
      }
    }
  }

  /** `sorted(keys, reverse=True)` for distinct integer keys: every key once, largest first. */
  function Descending(s: set<int>): (r: seq<int>)
    ensures |r| == |s|
    ensures forall x :: x in r <==> x in s
    ensures forall i, j :: 0 <= i < j < |r| ==> r[i] > r[j]
    decreases |s|
  {
    if s == {} then []
    else
      var m := Greatest(s);
      var rest := Descending(s - {m});
      PrependGreater(m, rest);
      [m] + rest
  }

  /** Dividing by a positive number keeps the order of non-negative numbers. */
  lemma DivMono(a: real, b: real, t: real)
    requires 0.0 <= a <= b && t > 0.0
    ensures 0.0 <= a / t <= b / t
  {
    assert a / t == a * (1.0 / t);
    assert b / t == b * (1.0 / t);
    assert 1.0 / t > 0.0;
  }

  /** a / t lies between 0 and 1 and grows with a, for 0 <= a <= b <= t. */
  lemma Ratio(a: nat, b: nat, t: nat)
    requires a <= b <= t && t > 0
    ensures 0.0 <= (a as real) / (t as real) <= (b as real) / (t as real) <= 1.0
  {
    DivMono(a as real, b as real, t as real);
    DivMono(b as real, t as real, t as real);
    SelfDiv(t as real);
  }

  /** A positive number divided by itself is 1. */
  lemma SelfDiv(x: real)
    requires x > 0.0
    ensures x / x == 1.0
  {
  }

  /** Python's `sep.join(parts)`, JavaScript's `parts.join(sep)`. */
  function JoinText(sep: string, parts: seq<string>): string {
    if parts == [] then ""
    else if |parts| == 1 then parts[0]
    else parts[0] + sep + JoinText(sep, parts[1..])
  }

  /** Joining one more part puts the separator between the old joint and the new part. */
  lemma {:induction false} JoinTextSnoc(sep: string, parts: seq<string>, p: string)
    ensures JoinText(sep, parts + [p]) == if parts == [] then p else JoinText(sep, parts) + sep + p
  {
    if parts != [] {
      assert (parts + [p])[1..] == parts[1..] + [p];
      if |parts| > 1 {
        JoinTextSnoc(sep, parts[1..], p);
      }
    }
  }
}
