/**
 * predict.py, `generate_bets`: racers are ranked by predicted win probability, highest first
 * (stably, so ties keep the dict's insertion order). The three best give five "main" trifecta
 * bets, and up to five "dark" bets put one of the remaining racers first, followed by the two
 * best. The probability dict is an ordered sequence of (racer id, probability) pairs; the model
 * that produces the probabilities is not modelled.
 */
module Predict {
  import opened Common
  import opened Sorting

  type Item = (int, real)

  function Prob(x: Item): real { x.1 }

  /** A dict has no repeated key. */
  predicate DistinctIds(s: seq<Item>) {
    forall i, j :: 0 <= i < j < |s| ==> s[i].0 != s[j].0
  }

  /** Line 28: the items by probability, highest first, ties in insertion order. */
  function Ranked(probabilities: seq<Item>): (r: seq<Item>)
    ensures multiset(r) == multiset(probabilities) && |r| == |probabilities|
    ensures forall i, j :: 0 <= i < j < |r| ==> r[i].1 >= r[j].1
    ensures forall v :: WithKey(r, Prob, v) == WithKey(probabilities, Prob, v)
  {
    SortBy(probabilities, Prob, true)
  }

  /** Line 29: the ids of the first three ranked racers. */
  function TopIds(probabilities: seq<Item>): (r: seq<int>)
    requires |probabilities| >= 3
    ensures |r| == 3
    ensures forall k :: 0 <= k < 3 ==> r[k] == Ranked(probabilities)[k].0
  {
    var ranked := Ranked(probabilities);
    [ranked[0].0, ranked[1].0, ranked[2].0]
  }

  /** Line 30: the ids of the remaining racers, in ranked order. */
  function BottomIds(probabilities: seq<Item>): (r: seq<int>)
    requires |probabilities| >= 3
    ensures |r| == |probabilities| - 3
    ensures forall k :: 0 <= k < |r| ==> r[k] == Ranked(probabilities)[k + 3].0
  {
    var ranked := Ranked(probabilities);
    seq(|ranked| - 3, k requires 0 <= k < |ranked| - 3 => ranked[k + 3].0)
  }

  /** Lines 32-36: five of the six orders of the top three; [top[2], top[1], top[0]] is not among them. */
  function MainBets(top: seq<int>): (r: seq<seq<int>>)
    requires |top| == 3
    ensures |r| == 5
    ensures forall k :: 0 <= k < 5 ==> |r[k]| == 3
  {
    [[top[0], top[1], top[2]],
     [top[0], top[2], top[1]],
     [top[1], top[0], top[2]],
     [top[1], top[2], top[0]],
     [top[2], top[0], top[1]]]
  }

  /**
   * `generate_bets`. With fewer than three racers the source fails on `top[2]`, hence the
   * precondition. The dark bets are built by the loop of lines 38-40.
   */
  method GenerateBets(probabilities: seq<Item>) returns (mainBets: seq<seq<int>>, darkBets: seq<seq<int>>)
    requires |probabilities| >= 3
    ensures mainBets == MainBets(TopIds(probabilities))
    ensures |darkBets| == Min(5, |probabilities| - 3)
    ensures forall i :: 0 <= i < |darkBets| ==>
              darkBets[i] == [BottomIds(probabilities)[i], TopIds(probabilities)[0], TopIds(probabilities)[1]]
  {
    var top := TopIds(probabilities);
    var bottom := BottomIds(probabilities);
    mainBets := MainBets(top);
    darkBets := [];
    for i := 0 to Min(5, |bottom|)
      invariant |darkBets| == i
      invariant forall k :: 0 <= k < i ==> darkBets[k] == [bottom[k], top[0], top[1]]
    {
      darkBets := darkBets + [[bottom[i], top[0], top[1]]];
    }
  }

  /** Rearrangements of a triple that the main bets use keep its racers. */
  lemma SwapLast(a: int, b: int, c: int)
    ensures multiset([a, c, b]) == multiset([a, b, c])
  {
    assert [a, c, b] == [a] + [c, b] && [a, b, c] == [a] + [b, c];
  }

  lemma SwapFirst(a: int, b: int, c: int)
    ensures multiset([b, a, c]) == multiset([a, b, c])
  {
    assert [b, a, c] == [b] + [a] + [c];
    assert [a, b, c] == [a] + [b] + [c];
    assert multiset([b]) + multiset([a]) == multiset([a]) + multiset([b]);
  }

  lemma RotateLeft(a: int, b: int, c: int)
    ensures multiset([b, c, a]) == multiset([a, b, c])
  {
    assert [b, c, a] == [b, c] + [a] && [a, b, c] == [a] + [b, c];
  }

  lemma RotateRight(a: int, b: int, c: int)
    ensures multiset([c, a, b]) == multiset([a, b, c])
  {
    assert [c, a, b] == [c] + [a, b] && [a, b, c] == [a, b] + [c];
  }

  /** Each main bet is a rearrangement of the top three. */
  lemma MainBetsPermute(top: seq<int>)
    requires |top| == 3
    ensures forall k :: 0 <= k < 5 ==> multiset(MainBets(top)[k]) == multiset(top)
  {
    var a, b, c := top[0], top[1], top[2];
    assert top == [a, b, c];
    var m := MainBets(top);
    forall k | 0 <= k < 5 ensures multiset(m[k]) == multiset(top) {
      if k == 1 {
        assert m[k] == [a, c, b];
        SwapLast(a, b, c);
      } else if k == 2 {
        assert m[k] == [b, a, c];
        SwapFirst(a, b, c);
      } else if k == 3 {
        assert m[k] == [b, c, a];
        RotateLeft(a, b, c);
      } else if k == 4 {
        assert m[k] == [c, a, b];
        RotateRight(a, b, c);
      }
    }
  }

  /** Every top racer has at least the probability of every other racer. */
  lemma TopBeatsBottom(probabilities: seq<Item>, t: nat, b: nat)
    requires |probabilities| >= 3 && t < 3 && 3 <= b < |probabilities|
    ensures Ranked(probabilities)[t].1 >= Ranked(probabilities)[b].1
    ensures Ranked(probabilities)[t].0 == TopIds(probabilities)[t]
    ensures Ranked(probabilities)[b].0 == BottomIds(probabilities)[b - 3]
  {
  }

  /** The ranked ids are the dict's keys, so they do not repeat either. */
  lemma RankedDistinct(probabilities: seq<Item>)
    requires DistinctIds(probabilities)
    ensures DistinctIds(Ranked(probabilities))
  {
    DistinctByPermutation(Ranked(probabilities), probabilities, (x: Item) => x.0);
  }

  /**
   * Since racer ids are distinct dict keys: no bet repeats a racer, the five main bets differ,
   * the sixth order of the top three is not among them, and no dark bet is a main bet.
   */
  lemma BetsDistinct(probabilities: seq<Item>)
    requires |probabilities| >= 3 && DistinctIds(probabilities)
    ensures var top := TopIds(probabilities);
            && top[0] != top[1] && top[1] != top[2] && top[0] != top[2]
            && (forall i, j :: 0 <= i < j < 5 ==> MainBets(top)[i] != MainBets(top)[j])
            && [top[2], top[1], top[0]] !in MainBets(top)
    ensures var top, bottom := TopIds(probabilities), BottomIds(probabilities);
            forall i :: 0 <= i < |bottom| ==>
              bottom[i] !in top && [bottom[i], top[0], top[1]] !in MainBets(top)
  {
    RankedDistinct(probabilities);
    var ranked := Ranked(probabilities);
    var top, bottom := TopIds(probabilities), BottomIds(probabilities);
    assert top[0] != top[1] && top[1] != top[2] && top[0] != top[2] by {
      assert ranked[0].0 != ranked[1].0 && ranked[1].0 != ranked[2].0 && ranked[0].0 != ranked[2].0;
    }
    forall i | 0 <= i < |bottom| ensures bottom[i] !in top {
      assert bottom[i] == ranked[i + 3].0;
      assert ranked[0].0 != ranked[i + 3].0 && ranked[1].0 != ranked[i + 3].0 && ranked[2].0 != ranked[i + 3].0;
    }
  }
}
