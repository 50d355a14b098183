/**
 * ai_engine.js: the browser-side "AI" helpers. `generateCombos` enumerates ordered triples of
 * distinct positions; `generateAIPredictions` ranks players by raw score and takes fixed bets
 * from the combinations of boats 1-6; `generateAIComments` picks a comment by score band;
 * `learnFromResults` counts winning trifecta combinations per venue in the module-level
 * `aiMemory`, modelled as the field of a class.
 */
module AiEngine {
  import opened Common
  import opened Sorting

  // ---------------------------------------------------------------------------------------------
  // generateCombos (lines 50-58)

  /** Positions (i, j, k) into the array. */
  type Triple = (nat, nat, nat)

  /** Line 55: the three positions are pairwise different. */
  predicate Apart(t: Triple) {
    t.0 != t.1 && t.1 != t.2 && t.0 != t.2
  }

  /** `parts(0) + ... + parts(m - 1)`: what one of the loops collects when run up to m. */
  function Runs(parts: nat -> seq<Triple>, m: nat): seq<Triple> {
    if m == 0 then [] else Runs(parts, m - 1) + parts(m - 1)
  }

  /** Line 55: the triple is kept only when its positions are pairwise different. */
  function Keep(t: Triple): seq<Triple> {
    if Apart(t) then [t] else []
  }

  /** One pass of the innermost loop (line 54) for fixed i and j, at k. */
  function RowParts(i: nat, j: nat): nat -> seq<Triple> {
    k => Keep((i, j, k))
  }

  /** The innermost loop for fixed i and j, up to k < kk. */
  function RowT(i: nat, j: nat, kk: nat): seq<Triple> {
    Runs(RowParts(i, j), kk)
  }

  /** One pass of the middle loop (line 53) for fixed i, at j: a whole inner loop over n. */
  function PlaneParts(n: nat, i: nat): nat -> seq<Triple> {
    j => RowT(i, j, n)
  }

  /** The middle loop for fixed i, up to j < jj. */
  function PlaneT(n: nat, i: nat, jj: nat): seq<Triple> {
    Runs(PlaneParts(n, i), jj)
  }

  /** One pass of the outer loop (line 52) at i: a whole middle loop over n. */
  function CubeParts(n: nat): nat -> seq<Triple> {
    i => PlaneT(n, i, n)
  }

  /** The outer loop up to i < ii. */
  function CubeT(n: nat, ii: nat): seq<Triple> {
    Runs(CubeParts(n), ii)
  }

  /** The position triples the three loops visit and keep, in visiting order. */
  function Triples(n: nat): seq<Triple> {
    CubeT(n, n)
  }

  predicate InRange(t: Triple, n: nat) {
    t.0 < n && t.1 < n && t.2 < n
  }

  predicate AllInRange(ts: seq<Triple>, n: nat) {
    forall p :: 0 <= p < |ts| ==> InRange(ts[p], n)
  }

  /** Line 56: the elements at the positions of each triple. */
  function Picks(arr: seq<int>, ts: seq<Triple>): (r: seq<seq<int>>)
    requires AllInRange(ts, |arr|)
  {
    seq(|ts|, p requires 0 <= p < |ts| && InRange(ts[p], |arr|) => [arr[ts[p].0], arr[ts[p].1], arr[ts[p].2]])
  }

  /** `lexLess`: the order in which the loops visit position triples. */
  predicate LexLess(a: Triple, b: Triple) {
    a.0 < b.0 || (a.0 == b.0 && (a.1 < b.1 || (a.1 == b.1 && a.2 < b.2)))
  }

  predicate LexIncreasing(s: seq<Triple>) {
    forall p, q :: 0 <= p < q < |s| ==> LexLess(s[p], s[q])
  }

  // One more pass of each loop appends one part.

  lemma RowStep(i: nat, j: nat, k: nat)
    ensures RowT(i, j, k + 1) == RowT(i, j, k) + Keep((i, j, k))
  {
  }

  lemma PlaneStep(n: nat, i: nat, j: nat)
    ensures PlaneT(n, i, j + 1) == PlaneT(n, i, j) + RowT(i, j, n)
  {
  }

  lemma CubeStep(n: nat, i: nat)
    ensures CubeT(n, i + 1) == CubeT(n, i) + PlaneT(n, i, n)
  {
  }

  /** If t can only be in the part numbered `key`, and is there iff q, it is in a run up to m iff key < m and q. */
  lemma {:induction false} RunMember(parts: nat -> seq<Triple>, m: nat, t: Triple, key: nat, q: bool)
    requires forall i :: 0 <= i < m ==> (t in parts(i) <==> i == key && q)
    ensures t in Runs(parts, m) <==> key < m && q
  {
    if m > 0 {
      RunMember(parts, m - 1, t, key, q);
    }
  }

  /** Every element of a run comes from one of its parts. */
  lemma {:induction false} RunSource(parts: nat -> seq<Triple>, m: nat, t: Triple)
    requires t in Runs(parts, m)
    ensures exists i :: 0 <= i < m && t in parts(i)
  {
    if t !in parts(m - 1) {
      RunSource(parts, m - 1, t);
    }
  }

  /** Two increasing runs, the first wholly before the second, make one increasing run. */
  lemma LexAppend(a: seq<Triple>, b: seq<Triple>)
    requires LexIncreasing(a) && LexIncreasing(b)
    requires forall x, y :: x in a && y in b ==> LexLess(x, y)
    ensures LexIncreasing(a + b)
  {
    var s := a + b;
    forall p, q | 0 <= p < q < |s| ensures LexLess(s[p], s[q]) {
      if q < |a| {
        assert s[p] == a[p] && s[q] == a[q];
      } else if p >= |a| {
        assert s[p] == b[p - |a|] && s[q] == b[q - |a|];
      } else {
        assert s[p] in a && s[q] in b;
      }
    }
  }

  /** Increasing parts, each wholly before the later ones, make an increasing run. */
  lemma {:induction false} RunIncreasing(parts: nat -> seq<Triple>, m: nat)
    requires forall i :: 0 <= i < m ==> LexIncreasing(parts(i))
    requires forall a, b, x, y :: 0 <= a < b < m && x in parts(a) && y in parts(b) ==> LexLess(x, y)
    ensures LexIncreasing(Runs(parts, m))
  {
    if m > 0 {
      RunIncreasing(parts, m - 1);
      forall x, y | x in Runs(parts, m - 1) && y in parts(m - 1) ensures LexLess(x, y) {
        RunSource(parts, m - 1, x);
        var a :| 0 <= a < m - 1 && x in parts(a);
      }
      LexAppend(Runs(parts, m - 1), parts(m - 1));
    }
  }

  lemma AppendInRange(a: seq<Triple>, b: seq<Triple>, n: nat)
    requires AllInRange(a, n) && AllInRange(b, n)
    ensures AllInRange(a + b, n)
  {
  }

  lemma {:induction false} RunInRange(parts: nat -> seq<Triple>, m: nat, n: nat)
    requires forall i :: 0 <= i < m ==> AllInRange(parts(i), n)
    ensures AllInRange(Runs(parts, m), n)
  {
    if m > 0 {
      RunInRange(parts, m - 1, n);
      AppendInRange(Runs(parts, m - 1), parts(m - 1), n);
    }
  }

  /** A run up to a is a prefix of the run up to b >= a. */
  lemma {:induction false} RunPrefix(parts: nat -> seq<Triple>, a: nat, b: nat)
    requires a <= b
    ensures Runs(parts, a) <= Runs(parts, b)
    decreases b - a
  {
    if a < b {
      RunPrefix(parts, a, b - 1);
    }
  }

  /** A triple is visited by the innermost loop iff it has positions i and j and a later free k. */
  lemma RowMember(i: nat, j: nat, kk: nat, t: Triple)
    ensures t in RowT(i, j, kk) <==> t.0 == i && t.1 == j && t.2 < kk && Apart(t)
  {
    RunMember(RowParts(i, j), kk, t, t.2, t.0 == i && t.1 == j && Apart(t));
  }

  lemma PlaneMember(n: nat, i: nat, jj: nat, t: Triple)
    ensures t in PlaneT(n, i, jj) <==> t.0 == i && t.1 < jj && t.2 < n && Apart(t)
  {
    forall j | 0 <= j < jj ensures t in PlaneParts(n, i)(j) <==> j == t.1 && (t.0 == i && t.2 < n && Apart(t)) {
      RowMember(i, j, n, t);
    }
    RunMember(PlaneParts(n, i), jj, t, t.1, t.0 == i && t.2 < n && Apart(t));
  }

  lemma CubeMember(n: nat, ii: nat, t: Triple)
    ensures t in CubeT(n, ii) <==> t.0 < ii && t.1 < n && t.2 < n && Apart(t)
  {
    forall i | 0 <= i < ii ensures t in CubeParts(n)(i) <==> i == t.0 && (t.1 < n && t.2 < n && Apart(t)) {
      PlaneMember(n, i, n, t);
    }
    RunMember(CubeParts(n), ii, t, t.0, t.1 < n && t.2 < n && Apart(t));
  }

  lemma RowIncreasing(i: nat, j: nat, kk: nat)
    ensures LexIncreasing(RowT(i, j, kk))
  {
    forall a | 0 <= a < kk ensures LexIncreasing(RowParts(i, j)(a)) { }
    forall a, b, x, y | 0 <= a < b < kk && x in RowParts(i, j)(a) && y in RowParts(i, j)(b) ensures LexLess(x, y) { }
    RunIncreasing(RowParts(i, j), kk);
  }

  lemma PlaneIncreasing(n: nat, i: nat, jj: nat)
    ensures LexIncreasing(PlaneT(n, i, jj))
  {
    forall a | 0 <= a < jj ensures LexIncreasing(PlaneParts(n, i)(a)) {
      RowIncreasing(i, a, n);
    }
    forall a, b, x, y | 0 <= a < b < jj && x in PlaneParts(n, i)(a) && y in PlaneParts(n, i)(b)
      ensures LexLess(x, y)
    {
      RowMember(i, a, n, x);
      RowMember(i, b, n, y);
    }
    RunIncreasing(PlaneParts(n, i), jj);
  }

  lemma CubeIncreasing(n: nat, ii: nat)
    ensures LexIncreasing(CubeT(n, ii))
  {
    forall a | 0 <= a < ii ensures LexIncreasing(CubeParts(n)(a)) {
      PlaneIncreasing(n, a, n);
    }
    forall a, b, x, y | 0 <= a < b < ii && x in CubeParts(n)(a) && y in CubeParts(n)(b)
      ensures LexLess(x, y)
    {
      PlaneMember(n, a, n, x);
      PlaneMember(n, b, n, y);
    }
    RunIncreasing(CubeParts(n), ii);
  }

  lemma {:induction false} RowCount(i: nat, j: nat, kk: nat)
    ensures |RowT(i, j, kk)| == if i == j then 0 else kk - (if i < kk then 1 else 0) - (if j < kk then 1 else 0)
  {
    if kk > 0 {
      RowCount(i, j, kk - 1);
      RowStep(i, j, kk - 1);
    }
  }

  lemma {:induction false} PlaneCount(n: nat, i: nat, jj: nat)
    requires i < n && jj <= n
    ensures |PlaneT(n, i, jj)| == (jj - (if i < jj then 1 else 0)) * (n - 2)
  {
    if jj > 0 {
      PlaneCount(n, i, jj - 1);
      RowCount(i, jj - 1, n);
      PlaneStep(n, i, jj - 1);
      var c := jj - 1 - (if i < jj - 1 then 1 else 0);
      if i == jj - 1 {
        assert jj - (if i < jj then 1 else 0) == c;
      } else {
        assert jj - (if i < jj then 1 else 0) == c + 1;
        assert (c + 1) * (n - 2) == c * (n - 2) + (n - 2);
      }
    }
  }

  lemma {:induction false} CubeCount(n: nat, ii: nat)
    requires ii <= n
    ensures |CubeT(n, ii)| == ii * (n - 1) * (n - 2)
  {
    if ii > 0 {
      CubeCount(n, ii - 1);
      PlaneCount(n, ii - 1, n);
      CubeStep(n, ii - 1);
      MulStep(ii, n - 1, n - 2);
    }
  }

  lemma MulStep(i: int, a: int, b: int)
    ensures i * a * b == (i - 1) * a * b + a * b
  {
  }

  /**
   * `generateCombos` on n elements: n(n-1)(n-2) position triples, exactly the in-range triples of
   * pairwise different positions, in strictly increasing lexicographic order (so none repeats).
   */
  lemma TriplesFacts(n: nat)
    ensures |Triples(n)| == n * (n - 1) * (n - 2)
    ensures forall t :: t in Triples(n) <==> InRange(t, n) && Apart(t)
    ensures LexIncreasing(Triples(n))
  {
    CubeCount(n, n);
    forall t ensures t in Triples(n) <==> InRange(t, n) && Apart(t) {
      CubeMember(n, n, t);
    }
    CubeIncreasing(n, n);
  }

  lemma RowInRange(i: nat, j: nat, kk: nat, n: nat)
    requires i < n && j < n && kk <= n
    ensures AllInRange(RowT(i, j, kk), n)
  {
    forall k | 0 <= k < kk ensures AllInRange(RowParts(i, j)(k), n) { }
    RunInRange(RowParts(i, j), kk, n);
  }

  lemma PlaneInRange(n: nat, i: nat, jj: nat)
    requires i < n && jj <= n
    ensures AllInRange(PlaneT(n, i, jj), n)
  {
    forall j | 0 <= j < jj ensures AllInRange(PlaneParts(n, i)(j), n) {
      RowInRange(i, j, n, n);
    }
    RunInRange(PlaneParts(n, i), jj, n);
  }

  lemma CubeInRange(n: nat, ii: nat)
    requires ii <= n
    ensures AllInRange(CubeT(n, ii), n)
  {
    forall i | 0 <= i < ii ensures AllInRange(CubeParts(n)(i), n) {
      PlaneInRange(n, i, n);
    }
    RunInRange(CubeParts(n), ii, n);
  }

  /** What `generateCombos(arr)` returns: the elements at each visited position triple. */
  function Combos(arr: seq<int>): (r: seq<seq<int>>)
    ensures |r| == |Triples(|arr|)|
  {
    CubeInRange(|arr|, |arr|);
    Picks(arr, Triples(|arr|))
  }

  /** Every combination has three elements. */
  lemma CombosShape(arr: seq<int>)
    ensures Triplets(Combos(arr))
  {
  }

  lemma PicksAppend(arr: seq<int>, a: seq<Triple>, b: seq<Triple>)
    requires AllInRange(a, |arr|) && AllInRange(b, |arr|)
    ensures AllInRange(a + b, |arr|)
    ensures Picks(arr, a + b) == Picks(arr, a) + Picks(arr, b)
  {
  }

  /** One more pass of the middle loop appends the combinations of row j. */
  lemma PlaneNext(arr: seq<int>, i: nat, j: nat)
    requires i < |arr| && j < |arr|
    ensures AllInRange(PlaneT(|arr|, i, j), |arr|) && AllInRange(RowT(i, j, |arr|), |arr|)
    ensures AllInRange(PlaneT(|arr|, i, j + 1), |arr|)
    ensures Picks(arr, PlaneT(|arr|, i, j + 1)) == Picks(arr, PlaneT(|arr|, i, j)) + Picks(arr, RowT(i, j, |arr|))
  {
    var n := |arr|;
    PlaneInRange(n, i, j + 1);
    PlaneInRange(n, i, j);
    RowInRange(i, j, n, n);
    PicksAppend(arr, PlaneT(n, i, j), RowT(i, j, n));
    PlaneStep(n, i, j);
  }

  /** One more pass of the outer loop appends the combinations of plane i. */
  lemma CubeNext(arr: seq<int>, i: nat)
    requires i < |arr|
    ensures AllInRange(CubeT(|arr|, i), |arr|) && AllInRange(PlaneT(|arr|, i, |arr|), |arr|)
    ensures AllInRange(CubeT(|arr|, i + 1), |arr|)
    ensures Picks(arr, CubeT(|arr|, i + 1)) == Picks(arr, CubeT(|arr|, i)) + Picks(arr, PlaneT(|arr|, i, |arr|))
  {
    var n := |arr|;
    CubeInRange(n, i + 1);
    CubeInRange(n, i);
    PlaneInRange(n, i, n);
    PicksAppend(arr, CubeT(n, i), PlaneT(n, i, n));
    CubeStep(n, i);
  }

  /** Lines 54-56: the innermost loop for fixed i and j, appending to `result`. */
  method PushRow(arr: seq<int>, i: nat, j: nat, result0: seq<seq<int>>) returns (result: seq<seq<int>>)
    requires i < |arr| && j < |arr|
    ensures AllInRange(RowT(i, j, |arr|), |arr|)
    ensures result == result0 + Picks(arr, RowT(i, j, |arr|))
  {
    var n := |arr|;
    result := result0;
    for k := 0 to n
      invariant AllInRange(RowT(i, j, k), n)
      invariant result == result0 + Picks(arr, RowT(i, j, k))
    {
      RowInRange(i, j, k + 1, n);
      var step := Keep((i, j, k));
      PicksAppend(arr, RowT(i, j, k), step);
      RowStep(i, j, k);
      if i != j && j != k && i != k {
        assert Picks(arr, step) == [[arr[i], arr[j], arr[k]]];
        result := result + [[arr[i], arr[j], arr[k]]];
      } else {
        assert Picks(arr, step) == [];
      }
    }
  }

  /** Lines 53-56: the middle loop for fixed i, appending to `result`. */
  method PushPlane(arr: seq<int>, i: nat, result0: seq<seq<int>>) returns (result: seq<seq<int>>)
    requires i < |arr|
    ensures AllInRange(PlaneT(|arr|, i, |arr|), |arr|)
    ensures result == result0 + Picks(arr, PlaneT(|arr|, i, |arr|))
  {
    var n := |arr|;
    result := result0;
    for j := 0 to n
      invariant AllInRange(PlaneT(n, i, j), n)
      invariant result == result0 + Picks(arr, PlaneT(n, i, j))
    {
      PlaneNext(arr, i, j);
      result := PushRow(arr, i, j, result);
    }
  }

  /** Lines 50-58: the three nested loops; the inner two are `PushPlane` and `PushRow`. */
  method GenerateCombos(arr: seq<int>) returns (result: seq<seq<int>>)
    ensures result == Combos(arr)
  {
    var n := |arr|;
    result := [];
    for i := 0 to n
      invariant AllInRange(CubeT(n, i), n)
      invariant result == Picks(arr, CubeT(n, i))
    {
      CubeNext(arr, i);
      result := PushPlane(arr, i, result);
    }
  }

  // ---------------------------------------------------------------------------------------------
  // generateAIPredictions (lines 32-47)

  /** A player as the engine sees it: lane, name and raw score. */
  datatype Player = Player(lane: int, name: string, rawScore: real)

  /** Lines 34-39: one line of the ranking. */
  datatype RankRow = RankRow(rank: int, lane: int, name: string, score: real)

  /** Lines 43-44: a bet, its combination written as one string and its probability. */
  datatype Bet = Bet(combo: string, prob: int)

  datatype AiPrediction = AiPrediction(ranks: seq<RankRow>, main: seq<Bet>, sub: seq<Bet>)

  /** Line 42: the boats 1 to 6. */
  const Boats: seq<int> := [1, 2, 3, 4, 5, 6]

  function Score(p: Player): real { p.rawScore }

  /** The ranked players, recovered from the ranking lines. */
  function RankedPlayers(r: seq<RankRow>): seq<Player> {
    seq(|r|, i requires 0 <= i < |r| => Player(r[i].lane, r[i].name, r[i].score))
  }

  /** Lines 33-39: a sorted copy (highest score first, stable) numbered from 1. */
  function Ranks(players: seq<Player>): (r: seq<RankRow>)
    ensures |r| == |players|
  {
    var sorted := SortBy(players, Score, true);
    seq(|sorted|, i requires 0 <= i < |sorted| => RankRow(i + 1, sorted[i].lane, sorted[i].name, sorted[i].rawScore))
  }

  /**
   * The ranking numbers the players 1..n, by score from highest to lowest, holds every player
   * exactly as often as the input does, and keeps players of equal score in input order.
   */
  lemma RanksFacts(players: seq<Player>)
    ensures var r := Ranks(players);
            && (forall i :: 0 <= i < |r| ==> r[i].rank == i + 1)
            && (forall i, j :: 0 <= i < j < |r| ==> r[i].score >= r[j].score)
            && multiset(RankedPlayers(r)) == multiset(players)
            && (forall v :: WithKey(RankedPlayers(r), Score, v) == WithKey(players, Score, v))
  {
    var sorted := SortBy(players, Score, true);
    assert RankedPlayers(Ranks(players)) == sorted;
  }

  /** JavaScript's decimal text of an integer. */
  function NumberText(x: int): string
    decreases if x < 0 then 1 - x else x
  {
    if x < 0 then "-" + NumberText(-x)
    else if x < 10 then [('0' as int + x) as char]
    else NumberText(x / 10) + [('0' as int + x % 10) as char]
  }

  /** `c.join("")`. */
  function Join(c: seq<int>): string {
    if c == [] then "" else Join(c[..|c| - 1]) + NumberText(c[|c| - 1])
  }

  /** Line 43: a main bet, with probability 80 - 10 * first boat. */
  function MainBet(c: seq<int>): Bet
    requires |c| > 0
  {
    Bet(Join(c), 80 - c[0] * 10)
  }

  /** Line 44: a sub bet, with probability 20 + 5 * first boat. */
  function SubBet(c: seq<int>): Bet
    requires |c| > 0
  {
    Bet(Join(c), 20 + c[0] * 5)
  }

  /** JavaScript `s.slice(-n)` for n > 0: the last n elements, or all of them. */
  function LastN<T>(s: seq<T>, n: nat): (r: seq<T>)
    ensures |r| == Min(n, |s|) && r == s[|s| - |r|..]
  {
    if |s| <= n then s else s[|s| - n..]
  }

  predicate Triplets(combos: seq<seq<int>>) {
    forall p :: 0 <= p < |combos| ==> |combos[p]| == 3
  }

  /** Line 43: the first five combinations as main bets. */
  function MainBets(combos: seq<seq<int>>): (r: seq<Bet>)
    requires Triplets(combos)
    ensures |r| == Min(5, |combos|)
    ensures forall i :: 0 <= i < |r| ==> r[i] == MainBet(combos[i])
  {
    var main := Head(combos, 5);
    seq(|main|, i requires 0 <= i < |main| => MainBet(main[i]))
  }

  /** Line 44: the last five combinations as sub bets. */
  function SubBets(combos: seq<seq<int>>): (r: seq<Bet>)
    requires Triplets(combos)
    ensures |r| == Min(5, |combos|)
    ensures forall i :: 0 <= i < |r| ==> r[i] == SubBet(combos[|combos| - |r| + i])
  {
    var sub := LastN(combos, 5);
    seq(|sub|, i requires 0 <= i < |sub| => SubBet(sub[i]))
  }

  /** Lines 32-47: the ranking, and the bets from the combinations of boats 1-6. */
  function Predictions(players: seq<Player>): (r: AiPrediction)
    ensures r.ranks == Ranks(players)
  {
    CombosShape(Boats);
    AiPrediction(Ranks(players), MainBets(Combos(Boats)), SubBets(Combos(Boats)))
  }

  lemma SixRows()
    ensures RowT(0, 1, 6) == [(0, 1, 2), (0, 1, 3), (0, 1, 4), (0, 1, 5)]
    ensures RowT(0, 2, 2) == [(0, 2, 1)]
    ensures RowT(5, 3, 6) == [(5, 3, 0), (5, 3, 1), (5, 3, 2), (5, 3, 4)]
    ensures RowT(5, 4, 6) == [(5, 4, 0), (5, 4, 1), (5, 4, 2), (5, 4, 3)]
  {
    RowZeroOne();
    RowFiveThree();
    RowFiveFour();
  }

  lemma RowZeroOne()
    ensures RowT(0, 1, 6) == [(0, 1, 2), (0, 1, 3), (0, 1, 4), (0, 1, 5)]
  {
  }

  lemma RowFiveThree()
    ensures RowT(5, 3, 6) == [(5, 3, 0), (5, 3, 1), (5, 3, 2), (5, 3, 4)]
  {
  }

  lemma RowFiveFour()
    ensures RowT(5, 4, 6) == [(5, 4, 0), (5, 4, 1), (5, 4, 2), (5, 4, 3)]
  {
  }

  /** The first rows of the outer loop over six boats. */
  lemma FirstRows(n: nat)
    requires n == 6
    ensures |PlaneT(n, 0, 3)| >= 5
    ensures PlaneT(n, 0, 3)[0] == (0, 1, 2) && PlaneT(n, 0, 3)[1] == (0, 1, 3) && PlaneT(n, 0, 3)[2] == (0, 1, 4)
    ensures PlaneT(n, 0, 3)[3] == (0, 1, 5) && PlaneT(n, 0, 3)[4] == (0, 2, 1)
  {
    SixRows();
    var r0, r1, r2 := RowT(0, 0, n), RowT(0, 1, n), RowT(0, 2, n);
    assert r0 == [] by { RowCount(0, 0, n); }
    RowPrefix(0, 2, 2, n);
    assert r2[0] == (0, 2, 1);
    assert PlaneT(n, 0, 3) == r0 + r1 + r2;
  }

  /** Over six boats the loops start with the rows (0, 0, _), (0, 1, _) and (0, 2, _). */
  lemma FirstPlaneLeads(n: nat)
    requires n >= 3
    ensures PlaneT(n, 0, 3) <= Triples(n)
  {
    PlanePrefix(n, 0, 3, n);
    CubePrefix(n, 1, n);
    CubeStep(n, 0);
  }

  lemma FirstFive(a: seq<Triple>, b: seq<Triple>)
    requires a <= b && |a| >= 5
    ensures |b| >= 5 && b[0] == a[0] && b[1] == a[1] && b[2] == a[2] && b[3] == a[3] && b[4] == a[4]
  {
  }

  /** The first five position triples over six boats. */
  lemma FirstTriples(n: nat)
    requires n == 6
    ensures |Triples(n)| >= 5
    ensures Triples(n)[0] == (0, 1, 2) && Triples(n)[1] == (0, 1, 3) && Triples(n)[2] == (0, 1, 4)
    ensures Triples(n)[3] == (0, 1, 5) && Triples(n)[4] == (0, 2, 1)
  {
    FirstRows(n);
    FirstPlaneLeads(n);
    FirstFive(PlaneT(n, 0, 3), Triples(n));
  }

  /** The loops end with the rows (n-1, n-3, _) and (n-1, n-2, _); (n-1, n-1, _) is empty. */
  lemma LastRows(n: nat)
    requires n >= 3
    ensures Triples(n) == CubeT(n, n - 1) + PlaneT(n, n - 1, n - 3) + RowT(n - 1, n - 3, n) + RowT(n - 1, n - 2, n)
  {
    var i := n - 1;
    assert RowT(i, i, n) == [] by { RowCount(i, i, n); }
    var p3, r3, r4 := PlaneT(n, i, n - 3), RowT(i, n - 3, n), RowT(i, n - 2, n);
    assert PlaneT(n, i, n - 2) == p3 + r3;
    assert PlaneT(n, i, n - 1) == p3 + r3 + r4;
    assert PlaneT(n, i, n) == PlaneT(n, i, n - 1) + RowT(i, i, n);
    assert Triples(n) == CubeT(n, i) + PlaneT(n, i, n);
    assert CubeT(n, i) + (p3 + r3 + r4) == CubeT(n, i) + p3 + r3 + r4;
  }

  lemma LastRowsBefore(n: nat)
    requires n >= 3
    ensures |CubeT(n, n - 1) + PlaneT(n, n - 1, n - 3)| == (n - 1) * (n - 1) * (n - 2) + (n - 3) * (n - 2)
  {
    CubeCount(n, n - 1);
    PlaneCount(n, n - 1, n - 3);
  }

  /** The last five position triples over six boats. */
  lemma LastTriples(n: nat)
    requires n == 6
    ensures |Triples(n)| == 120
    ensures Triples(n)[115..] == [(5, 3, 4), (5, 4, 0), (5, 4, 1), (5, 4, 2), (5, 4, 3)]
  {
    LastRowValues(n);
    LastRows(n);
    LastRowsBefore(n);
    LastFive(CubeT(n, n - 1) + PlaneT(n, n - 1, n - 3), RowT(n - 1, n - 3, n), RowT(n - 1, n - 2, n));
  }

  lemma LastRowValues(n: nat)
    requires n == 6
    ensures |RowT(5, 3, n)| == 4 && RowT(5, 3, n)[3] == (5, 3, 4)
    ensures RowT(5, 4, n) == [(5, 4, 0), (5, 4, 1), (5, 4, 2), (5, 4, 3)]
  {
    SixRows();
  }

  lemma LastFive(rest: seq<Triple>, r3: seq<Triple>, r4: seq<Triple>)
    requires |rest| == 112 && |r3| == 4 && |r4| == 4
    ensures |rest + r3 + r4| == 120
    ensures (rest + r3 + r4)[115..] == [r3[3], r4[0], r4[1], r4[2], r4[3]]
  {
  }

  lemma RowPrefix(i: nat, j: nat, a: nat, b: nat)
    requires a <= b
    ensures RowT(i, j, a) <= RowT(i, j, b)
  {
    RunPrefix(RowParts(i, j), a, b);
  }

  lemma PlanePrefix(n: nat, i: nat, a: nat, b: nat)
    requires a <= b
    ensures PlaneT(n, i, a) <= PlaneT(n, i, b)
  {
    RunPrefix(PlaneParts(n, i), a, b);
  }

  lemma CubePrefix(n: nat, a: nat, b: nat)
    requires a <= b
    ensures CubeT(n, a) <= CubeT(n, b)
  {
    RunPrefix(CubeParts(n), a, b);
  }

  /** Position p of the combinations holds the elements at the p-th visited triple. */
  lemma CombosAt(arr: seq<int>, p: nat)
    requires p < |Combos(arr)|
    ensures InRange(Triples(|arr|)[p], |arr|)
    ensures Combos(arr)[p] == [arr[Triples(|arr|)[p].0], arr[Triples(|arr|)[p].1], arr[Triples(|arr|)[p].2]]
  {
    CubeInRange(|arr|, |arr|);
  }

  /** Over six elements, the first five combinations. */
  lemma FirstCombos(arr: seq<int>)
    requires |arr| == 6
    ensures |Combos(arr)| >= 5
    ensures Combos(arr)[0] == [arr[0], arr[1], arr[2]] && Combos(arr)[1] == [arr[0], arr[1], arr[3]]
    ensures Combos(arr)[2] == [arr[0], arr[1], arr[4]] && Combos(arr)[3] == [arr[0], arr[1], arr[5]]
    ensures Combos(arr)[4] == [arr[0], arr[2], arr[1]]
  {
    FirstTriples(|arr|);
    CombosAt(arr, 0);
    CombosAt(arr, 1);
    CombosAt(arr, 2);
    CombosAt(arr, 3);
    CombosAt(arr, 4);
  }

  /** Over six elements, the last five combinations. */
  lemma LastCombos(arr: seq<int>)
    requires |arr| == 6
    ensures |Combos(arr)| == 120
    ensures Combos(arr)[115] == [arr[5], arr[3], arr[4]] && Combos(arr)[116] == [arr[5], arr[4], arr[0]]
    ensures Combos(arr)[117] == [arr[5], arr[4], arr[1]] && Combos(arr)[118] == [arr[5], arr[4], arr[2]]
    ensures Combos(arr)[119] == [arr[5], arr[4], arr[3]]
  {
    LastTriples(|arr|);
    CombosAt(arr, 115);
    CombosAt(arr, 116);
    CombosAt(arr, 117);
    CombosAt(arr, 118);
    CombosAt(arr, 119);
  }

  /** Three one-digit boats join to their three digits. */
  lemma JoinDigits(a: int, b: int, c: int)
    requires 0 <= a < 10 && 0 <= b < 10 && 0 <= c < 10
    ensures Join([a, b, c]) == [('0' as int + a) as char, ('0' as int + b) as char, ('0' as int + c) as char]
  {
    assert [a][..0] == [];
    assert Join([a]) == [('0' as int + a) as char];
    assert [a, b][..1] == [a];
    assert Join([a, b]) == Join([a]) + NumberText(b);
    assert [a, b, c][..2] == [a, b];
    assert Join([a, b, c]) == Join([a, b]) + NumberText(c);
  }

  /** The decimal digit of 0 <= d < 10. */
  function Digit(d: int): char
    requires 0 <= d < 10
  {
    ('0' as int + d) as char
  }

  /**
   * Lines 43-44 for a combination of three single-digit boats: the combo text is the three digits
   * and the probabilities are 80 - 10 * c[0] for a main bet and 20 + 5 * c[0] for a sub bet.
   */
  lemma BetValues(c: seq<int>)
    requires |c| == 3 && forall i :: 0 <= i < 3 ==> 0 <= c[i] < 10
    ensures Join(c) == [Digit(c[0]), Digit(c[1]), Digit(c[2])]
    ensures MainBet(c) == Bet([Digit(c[0]), Digit(c[1]), Digit(c[2])], 80 - 10 * c[0])
    ensures SubBet(c) == Bet([Digit(c[0]), Digit(c[1]), Digit(c[2])], 20 + 5 * c[0])
  {
    assert c == [c[0], c[1], c[2]];
    JoinDigits(c[0], c[1], c[2]);
  }

  /** Main bets of any list that starts like the one over boats 1-6. */
  lemma FixedMain(combos: seq<seq<int>>)
    requires Triplets(combos) && |combos| >= 5
    requires combos[0] == [1, 2, 3] && combos[1] == [1, 2, 4] && combos[2] == [1, 2, 5]
    requires combos[3] == [1, 2, 6] && combos[4] == [1, 3, 2]
    ensures MainBets(combos) == [Bet("123", 70), Bet("124", 70), Bet("125", 70), Bet("126", 70), Bet("132", 70)]
  {
    BetValues(combos[0]); BetValues(combos[1]); BetValues(combos[2]); BetValues(combos[3]); BetValues(combos[4]);
    var m := MainBets(combos);
    assert m[0] == MainBet(combos[0]) && m[1] == MainBet(combos[1]) && m[2] == MainBet(combos[2]);
    assert m[3] == MainBet(combos[3]) && m[4] == MainBet(combos[4]);
  }

  /** Sub bets of any 120-element list that ends like the one over boats 1-6. */
  lemma FixedSub(combos: seq<seq<int>>)
    requires Triplets(combos) && |combos| == 120
    requires combos[115] == [6, 4, 5] && combos[116] == [6, 5, 1] && combos[117] == [6, 5, 2]
    requires combos[118] == [6, 5, 3] && combos[119] == [6, 5, 4]
    ensures SubBets(combos) == [Bet("645", 50), Bet("651", 50), Bet("652", 50), Bet("653", 50), Bet("654", 50)]
  {
    BetValues(combos[115]); BetValues(combos[116]); BetValues(combos[117]); BetValues(combos[118]); BetValues(combos[119]);
    var m := SubBets(combos);
    assert m[0] == SubBet(combos[115]) && m[1] == SubBet(combos[116]) && m[2] == SubBet(combos[117]);
    assert m[3] == SubBet(combos[118]) && m[4] == SubBet(combos[119]);
  }

  /** Line 43 over boats 1-6: the main bets are 123, 124, 125, 126 and 132, each at 70. */
  lemma BoatsMainBets()
    ensures MainBets(Combos(Boats)) == [Bet("123", 70), Bet("124", 70), Bet("125", 70), Bet("126", 70), Bet("132", 70)]
  {
    CombosShape(Boats);
    FirstCombos(Boats);
    FixedMain(Combos(Boats));
  }

  /** Line 44 over boats 1-6: the sub bets are 645, 651, 652, 653 and 654, each at 50. */
  lemma BoatsSubBets()
    ensures SubBets(Combos(Boats)) == [Bet("645", 50), Bet("651", 50), Bet("652", 50), Bet("653", 50), Bet("654", 50)]
  {
    CombosShape(Boats);
    LastCombos(Boats);
    FixedSub(Combos(Boats));
  }

  /** Lines 42-44: the bets do not depend on the players, and no combination is both a main and a sub bet. */
  lemma FixedBets(players: seq<Player>)
    ensures Predictions(players).main == [Bet("123", 70), Bet("124", 70), Bet("125", 70), Bet("126", 70), Bet("132", 70)]
    ensures Predictions(players).sub == [Bet("645", 50), Bet("651", 50), Bet("652", 50), Bet("653", 50), Bet("654", 50)]
  {
    CombosShape(Boats);
    assert Predictions(players).main == MainBets(Combos(Boats));
    assert Predictions(players).sub == SubBets(Combos(Boats));
    BoatsMainBets();
    BoatsSubBets();
  }

  /** No combination is both a main and a sub bet: every main bet starts with boat 1, every sub bet with boat 6. */
  lemma BetsDisjoint(players: seq<Player>)
    ensures var p := Predictions(players);
            forall i, j :: 0 <= i < |p.main| && 0 <= j < |p.sub| ==> p.main[i].combo != p.sub[j].combo
  {
    FixedBets(players);
    var p := Predictions(players);
    FirstDigits(p.main, p.sub);
  }

  lemma FirstDigits(main: seq<Bet>, sub: seq<Bet>)
    requires main == [Bet("123", 70), Bet("124", 70), Bet("125", 70), Bet("126", 70), Bet("132", 70)]
    requires sub == [Bet("645", 50), Bet("651", 50), Bet("652", 50), Bet("653", 50), Bet("654", 50)]
    ensures forall i, j :: 0 <= i < |main| && 0 <= j < |sub| ==> main[i].combo != sub[j].combo
  {
    assert forall i :: 0 <= i < |main| ==> main[i].combo[0] == '1';
    assert forall j :: 0 <= j < |sub| ==> sub[j].combo[0] == '6';
  }

  // ---------------------------------------------------------------------------------------------
  // generateAIComments (lines 18-29)

  /** Line 27: a player's lane and the comment for it. */
  datatype LaneComment = LaneComment(lane: int, comment: string)

  /** The five comments, from the weakest band to the strongest. */
  const BandComments: seq<string> := [
    "機力劣勢。展開頼みの苦しい戦い。",
    "やや苦戦気味。スタートでリズムを作りたい。",
    "中堅級。展開次第でチャンスあり。",
    "機力上向き。スタート決まれば上位可能。",
    "好調。機力上位で展開主導、押し切り十分。"]

  /** The band boundaries, exclusive: a score above 0.8, 1.2, 2.0 or 3.0 reaches the next band. */
  function Band(s: real): (b: nat)
    ensures b < |BandComments|
  {
    (if s > 0.8 then 1 else 0) + (if s > 1.2 then 1 else 0) + (if s > 2.0 then 1 else 0) + (if s > 3.0 then 1 else 0)
  }

  /** Lines 20-26: the comment chosen by the first threshold the score exceeds, tried from the top. */
  function BandComment(s: real): (c: string)
    ensures c == BandComments[Band(s)]
  {
    if s > 3.0 then "好調。機力上位で展開主導、押し切り十分。"
    else if s > 2.0 then "機力上向き。スタート決まれば上位可能。"
    else if s > 1.2 then "中堅級。展開次第でチャンスあり。"
    else if s > 0.8 then "やや苦戦気味。スタートでリズムを作りたい。"
    else "機力劣勢。展開頼みの苦しい戦い。"
  }

  /** A higher score never gets a weaker band's comment. */
  lemma BandMonotone(s: real, t: real)
    requires s <= t
    ensures Band(s) <= Band(t)
  {
  }

  /** Different bands have different comments, so the comment tells the band. */
  lemma BandCommentsDistinct()
    ensures forall i, j :: 0 <= i < j < |BandComments| ==> BandComments[i] != BandComments[j]
  {
    var c := BandComments;
    assert c[0][0] == '機' && c[1][0] == 'や' && c[2][0] == '中' && c[3][0] == '機' && c[4][0] == '好';
    assert c[0][1] == '力' && c[3][1] == '力' && c[0][2] == '劣' && c[3][2] == '上';
  }

  /** Lines 19-28: one comment per player, in the players' order, keeping each lane. */
  function Comments(players: seq<Player>): (r: seq<LaneComment>)
    ensures |r| == |players|
    ensures forall i :: 0 <= i < |r| ==> r[i].lane == players[i].lane && r[i].comment == BandComments[Band(players[i].rawScore)]
  {
    seq(|players|, i requires 0 <= i < |players| => LaneComment(players[i].lane, BandComment(players[i].rawScore)))
  }

  // ---------------------------------------------------------------------------------------------
  // learnFromResults (lines 3-15)

  /**
   * One race result as far as line 8-9 look at it: its stadium number, and the first trifecta
   * payout's combination, `None` when any step of the optional chain is missing.
   */
  datatype RaceResult = RaceResult(venue: int, combination: Option<string>)

  /** One day of the history; `results` is `None` when it is missing or falsy (line 7). */
  datatype HistoryDay = HistoryDay(results: Option<seq<RaceResult>>)

  /** Per venue, per winning combination, how often it won. */
  type Memory = map<int, map<string, nat>>

  /** Line 10: a combination counts only when it is present and truthy, that is non-empty. */
  function Win(r: RaceResult): Option<(int, string)> {
    if r.combination.Some? && r.combination.value != "" then Some((r.venue, r.combination.value)) else None
  }

  /** The (venue, combination) wins of one day's results, in order. */
  function DayWins(results: seq<RaceResult>): seq<(int, string)> {
    if results == [] then []
    else
      var last := results[|results| - 1];
      DayWins(results[..|results| - 1]) + (if Win(last).Some? then [Win(last).value] else [])
  }

  /** Line 7: `day.results || []`. */
  function Results(day: HistoryDay): seq<RaceResult> {
    if day.results.Some? then day.results.value else []
  }

  /** The wins of the whole history, days in order. */
  function Wins(history: seq<HistoryDay>): seq<(int, string)> {
    if history == [] then []
    else Wins(history[..|history| - 1]) + DayWins(Results(history[|history| - 1]))
  }

  /** How often a combination is recorded for a venue; 0 where line 12's `|| 0` applies. */
  function Count(m: Memory, venue: int, win: string): nat {
    if venue in m && win in m[venue] then m[venue][win] else 0
  }

  /** Lines 11-12: record one win. */
  function Bump(m: Memory, w: (int, string)): (r: Memory)
    ensures r.Keys == m.Keys + {w.0}
    ensures Count(r, w.0, w.1) == Count(m, w.0, w.1) + 1
    ensures forall v, c :: (v, c) != w ==> Count(r, v, c) == Count(m, v, c)
  {
    var inner := if w.0 in m then m[w.0] else map[];
    m[w.0 := inner[w.1 := Count(m, w.0, w.1) + 1]]
  }

  /** The memory after recording the wins in order. */
  function Learned(m: Memory, ws: seq<(int, string)>): Memory {
    if ws == [] then m else Bump(Learned(m, ws[..|ws| - 1]), ws[|ws| - 1])
  }

  lemma DayWinsSnoc(results: seq<RaceResult>, k: nat)
    requires k < |results|
    ensures DayWins(results[..k + 1]) == DayWins(results[..k]) + (if Win(results[k]).Some? then [Win(results[k]).value] else [])
  {
    assert results[..k + 1][..k] == results[..k];
  }

  lemma WinsSnoc(history: seq<HistoryDay>, d: nat)
    requires d < |history|
    ensures Wins(history[..d + 1]) == Wins(history[..d]) + DayWins(Results(history[d]))
  {
    assert history[..d + 1][..d] == history[..d];
  }

  lemma LearnedSnoc(m: Memory, ws: seq<(int, string)>, w: (int, string))
    ensures Learned(m, ws + [w]) == Bump(Learned(m, ws), w)
  {
    assert (ws + [w])[..|ws|] == ws;
  }

  /** Lines 11-12 as written: the in-place update of the two-level map is one `Bump`. */
  lemma BumpUpdate(m: Memory, venue: int, win: string, inner: map<string, nat>, count: nat)
    requires inner == if venue in m then m[venue] else map[]
    requires count == if win in inner then inner[win] else 0
    ensures m[venue := inner[win := count + 1]] == Bump(m, (venue, win))
  {
  }

  /** Recording two runs of wins is recording their concatenation. */
  lemma {:induction false} LearnedAppend(m: Memory, a: seq<(int, string)>, b: seq<(int, string)>)
    ensures Learned(m, a + b) == Learned(Learned(m, a), b)
    decreases |b|
  {
    if b == [] {
      assert a + b == a;
    } else {
      assert (a + b)[..|a + b| - 1] == a + b[..|b| - 1];
      LearnedAppend(m, a, b[..|b| - 1]);
    }
  }

  /** Each count goes up by exactly the number of times its (venue, combination) won. */
  lemma {:induction false} LearnedCount(m: Memory, ws: seq<(int, string)>)
    ensures forall v, c :: Count(Learned(m, ws), v, c) == Count(m, v, c) + multiset(ws)[(v, c)]
  {
    if ws != [] {
      var front, last := ws[..|ws| - 1], ws[|ws| - 1];
      LearnedCount(m, front);
      assert ws == front + [last];
      assert multiset(ws) == multiset(front) + multiset{last};
    }
  }

  /** The venues are the old ones plus every venue with a win. */
  lemma {:induction false} LearnedVenues(m: Memory, ws: seq<(int, string)>)
    ensures Learned(m, ws).Keys == m.Keys + set w | w in ws :: w.0
  {
    if ws != [] {
      var front, last := ws[..|ws| - 1], ws[|ws| - 1];
      assert ws == front + [last];
      LearnedVenues(m, front);
      LearnedSnoc(m, front, last);
      VenuesSnoc(front, last);
    }
  }

  /** The venues of one more win are those before it and the win's. */
  lemma VenuesSnoc(ws: seq<(int, string)>, w: (int, string))
    ensures (set x | x in ws + [w] :: x.0) == (set x | x in ws :: x.0) + {w.0}
  {
  }

  class AiMemory {
    /** `aiMemory` (line 3). */
    var memory: Memory

    /** Line 3: the memory starts empty. */
    constructor ()
      ensures memory == map[]
    {
      memory := map[];
    }

    /** The inner `forEach` of lines 7-13: record the wins of one day's results. */
    method LearnDay(results: seq<RaceResult>)
      modifies this
      ensures memory == Learned(old(memory), DayWins(results))
    {
      ghost var m0 := memory;
      for k := 0 to |results|
        invariant memory == Learned(m0, DayWins(results[..k]))
      {
        var r := results[k];
        DayWinsSnoc(results, k);
        if r.combination.Some? && r.combination.value != "" {
          var win := r.combination.value;
          var venue := r.venue;
          var inner := if venue in memory then memory[venue] else map[];
          var count := if win in inner then inner[win] else 0;
          assert DayWins(results[..k + 1]) == DayWins(results[..k]) + [(venue, win)];
          LearnedSnoc(m0, DayWins(results[..k]), (venue, win));
          BumpUpdate(memory, venue, win, inner, count);
          memory := memory[venue := inner[win := count + 1]];
        } else {
          assert DayWins(results[..k + 1]) == DayWins(results[..k]) + [];
          assert DayWins(results[..k + 1]) == DayWins(results[..k]);
        }
      }
      assert results[..|results|] == results;
    }

    /** Lines 5-15: every day of the history in order, every result of each day in order. */
    method LearnFromResults(history: seq<HistoryDay>)
      modifies this
      ensures memory == Learned(old(memory), Wins(history))
    {
      ghost var m0 := memory;
      for d := 0 to |history|
        invariant memory == Learned(m0, Wins(history[..d]))
      {
        WinsSnoc(history, d);
        LearnedAppend(m0, Wins(history[..d]), DayWins(Results(history[d])));
        LearnDay(Results(history[d]));
      }
      assert history[..|history|] == history;
    }
  }
}
