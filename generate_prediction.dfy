/**
 * generate_prediction.py: per race, five trifecta keys and three exacta keys are enumerated from
 * the ranked boats, each boat gets a newspaper-style comment, and `compute_accuracy` reconciles
 * past results against the predictions, venue by venue.
 *
 * The ranking itself (`simple_score`, a floating-point reciprocal) is not modelled: the ranked
 * boat list is the input. A key such as "1-3-2" is the sequence of boat numbers [1, 3, 2]. Python
 * compares boat dicts by value (lines 41 and 60), and so does the model: a boat keeps every key of
 * its dict, so two boats are equal exactly when their dicts are.
 */
module GeneratePrediction {
  import opened Common
  import opened Sorting
  import Predict

  /**
   * A boat entry: its number, the optional fields the score and the comment rules read, and
   * `others`, every other key of the dict (racer name, class, ...) with its value as text.
   */
  datatype Boat = Boat(number: int, startTiming: Option<real>, motor: Option<real>, local: Option<real>,
                       others: map<string, string>)

  /** Lines 47-51 and 65-67: how many keys each list may hold. */
  const TrifectaLimit := 5
  const ExactaLimit := 3

  predicate Distinct<K(==)>(s: seq<K>) {
    forall i, j :: 0 <= i < j < |s| ==> s[i] != s[j]
  }

  /** One candidate of the nested loops: `None` when the loop `continue`s, else the key, appended if new. */
  function Step<K(==)>(acc: seq<K>, c: Option<K>): (r: seq<K>)
    ensures Distinct(acc) ==> Distinct(r)
    ensures acc <= r && |r| <= |acc| + 1
  {
    match c
    case None => acc
    case Some(x) => if x in acc then acc else acc + [x]
  }

  // ---------------------------------------------------------------------------------------------
  // Trifecta (lines 35-52)

  /** Line 41-43: the key for positions (i, j, k) of the top three, unless two of the boats are equal. */
  function Cand3(t: seq<Boat>, i: nat, j: nat, k: nat): Option<seq<int>>
    requires i < |t| && j < |t| && k < |t|
  {
    if t[i] == t[j] || t[j] == t[k] || t[i] == t[k] then None
    else Some([t[i].number, t[j].number, t[k].number])
  }

  /**
   * What the three nested loops still add to `acc` when they resume at positions (i, j, k) of t:
   * candidates in loop order, stopping as soon as five keys are held.
   */
  function Gather3(acc: seq<seq<int>>, t: seq<Boat>, i: nat, j: nat, k: nat): (r: seq<seq<int>>)
    ensures acc <= r
    ensures |acc| <= TrifectaLimit ==> |r| <= TrifectaLimit
    ensures Distinct(acc) ==> Distinct(r)
    decreases |t| - i, |t| - j, |t| - k
  {
    if |acc| >= TrifectaLimit || i >= |t| then acc
    else if j >= |t| then Gather3(acc, t, i + 1, 0, 0)
    else if k >= |t| then Gather3(acc, t, i, j + 1, 0)
    else Gather3(Step(acc, Cand3(t, i, j, k)), t, i, j, k + 1)
  }

  /** The trifecta list for a ranked boat list. */
  function Trifecta(ranked: seq<Boat>): seq<seq<int>> {
    Gather3([], Head(ranked, 3), 0, 0, 0)
  }

  /** Lines 35-52: the triple loop over `top3` with `continue`, the `used` set and the three breaks. */
  method TrifectaPredictions(ranked: seq<Boat>) returns (trifPreds: seq<seq<int>>)
    ensures trifPreds == Trifecta(ranked)
    ensures |trifPreds| <= TrifectaLimit && Distinct(trifPreds)
  {
    var top3 := Head(ranked, 3);
    ghost var target := Trifecta(ranked);
    TrifectaBounds(ranked);
    trifPreds := [];
    var used: set<seq<int>> := {};
    for i := 0 to |top3|
      invariant |trifPreds| < TrifectaLimit
      invariant Gather3(trifPreds, top3, i, 0, 0) == target
      invariant used == set x | x in trifPreds
    {
      for j := 0 to |top3|
        invariant |trifPreds| < TrifectaLimit
        invariant Gather3(trifPreds, top3, i, j, 0) == target
        invariant used == set x | x in trifPreds
      {
        for k := 0 to |top3|
          invariant |trifPreds| < TrifectaLimit
          invariant Gather3(trifPreds, top3, i, j, k) == target
          invariant used == set x | x in trifPreds
        {
          var a, b, c := top3[i], top3[j], top3[k];
          StepAt(trifPreds, top3, i, j, k);
          if a == b || b == c || a == c {
            continue;
          }
          var key := [a.number, b.number, c.number];
          if key !in used {
            KeySetSnoc(trifPreds, key);
            trifPreds := trifPreds + [key];
            used := used + {key};
          }
          if |trifPreds| >= TrifectaLimit {
            Gather3Full(trifPreds, top3, i, j, k + 1);
            break;
          }
        }
        if |trifPreds| >= TrifectaLimit {
          break;
        }
        RowDone3(trifPreds, top3, i, j);
      }
      if |trifPreds| >= TrifectaLimit {
        break;
      }
      PlaneDone3(trifPreds, top3, i);
    }
    Gather3Done(trifPreds, top3);
  }

  /** At most five keys, none twice. */
  lemma TrifectaBounds(ranked: seq<Boat>)
    ensures |Trifecta(ranked)| <= TrifectaLimit && Distinct(Trifecta(ranked))
  {
    assert Distinct<seq<int>>([]);
  }

  /** The outer loop has ended. */
  lemma Gather3Done(acc: seq<seq<int>>, t: seq<Boat>)
    ensures Gather3(acc, t, |t|, 0, 0) == acc
  {
  }

  /** One pass of the innermost loop offers the candidate of (i, j, k). */
  lemma StepAt(acc: seq<seq<int>>, t: seq<Boat>, i: nat, j: nat, k: nat)
    requires i < |t| && j < |t| && k < |t| && |acc| < TrifectaLimit
    ensures Gather3(acc, t, i, j, k) == Gather3(Step(acc, Cand3(t, i, j, k)), t, i, j, k + 1)
  {
  }

  /** Once five keys are listed the loops stop (the three breaks). */
  lemma Gather3Full(acc: seq<seq<int>>, t: seq<Boat>, i: nat, j: nat, k: nat)
    requires |acc| >= TrifectaLimit
    ensures Gather3(acc, t, i, j, k) == acc
  {
  }

  /** The innermost loop ends and the middle one moves on. */
  lemma RowDone3(acc: seq<seq<int>>, t: seq<Boat>, i: nat, j: nat)
    requires i < |t| && j < |t| && |acc| < TrifectaLimit
    ensures Gather3(acc, t, i, j, |t|) == Gather3(acc, t, i, j + 1, 0)
  {
  }

  /** The middle loop ends and the outer one moves on. */
  lemma PlaneDone3(acc: seq<seq<int>>, t: seq<Boat>, i: nat)
    requires i < |t| && |acc| < TrifectaLimit
    ensures Gather3(acc, t, i, |t|, 0) == Gather3(acc, t, i + 1, 0, 0)
  {
  }

  /** With two boats or fewer, every triple of positions repeats a boat, so nothing is gathered. */
  lemma {:induction false} NoTriple(acc: seq<seq<int>>, t: seq<Boat>, i: nat, j: nat, k: nat)
    requires |t| <= 2
    ensures Gather3(acc, t, i, j, k) == acc
    decreases |t| - i, |t| - j, |t| - k
  {
    if |acc| >= TrifectaLimit || i >= |t| {
    } else if j >= |t| {
      NoTriple(acc, t, i + 1, 0, 0);
    } else if k >= |t| {
      NoTriple(acc, t, i, j + 1, 0);
    } else {
      assert i == j || j == k || i == k;
      NoTriple(acc, t, i, j, k + 1);
    }
  }

  /** Three boats with different numbers (and so different boats). */
  predicate ThreeApart(t: seq<Boat>) {
    |t| >= 3 && t[0].number != t[1].number && t[1].number != t[2].number && t[0].number != t[2].number
  }

  /** Three boats that are different dicts, whatever their numbers. */
  predicate DifferentBoats(t: seq<Boat>) {
    |t| == 3 && t[0] != t[1] && t[1] != t[2] && t[0] != t[2]
  }

  /** Among three different boats, boats at different positions differ. */
  lemma ApartBoats(t: seq<Boat>)
    requires |t| >= 3 && t[0] != t[1] && t[1] != t[2] && t[0] != t[2]
    ensures forall x, y :: 0 <= x < 3 && 0 <= y < 3 ==> (t[x] == t[y] <==> x == y)
  {
  }

  /** The third position of {0, 1, 2} besides i and j. */
  function Third(i: nat, j: nat): (r: nat)
    requires i < 3 && j < 3 && i != j
    ensures r < 3 && r != i && r != j
  {
    3 - i - j
  }

  /** The top three boats, with different numbers. */
  predicate Top3(t: seq<Boat>) {
    |t| == 3 && ThreeApart(t)
  }

  /** Three different positions among the top three. */
  predicate Positions(i: nat, j: nat, k: nat) {
    i < 3 && j < 3 && k < 3 && i != j && j != k && i != k
  }

  /** The key of positions (i, j, k) of t. */
  function Key3(t: seq<Boat>, i: nat, j: nat, k: nat): seq<int>
    requires i < |t| && j < |t| && k < |t|
  {
    [t[i].number, t[j].number, t[k].number]
  }

  /** One pass of the innermost loop over three different boats: one key at most, for k = Third(i, j). */
  lemma InnerPass3(acc: seq<seq<int>>, t: seq<Boat>, i: nat, j: nat)
    requires DifferentBoats(t) && i < 3 && j < 3 && |acc| < TrifectaLimit
    ensures Gather3(acc, t, i, j, 0)
         == Gather3(if i == j then acc else Step(acc, Some(Key3(t, i, j, Third(i, j)))), t, i, j + 1, 0)
  {
    ApartBoats(t);
    var acc1 := Step(acc, Cand3(t, i, j, 0));
    var acc2 := Step(acc1, Cand3(t, i, j, 1));
    var acc3 := Step(acc2, Cand3(t, i, j, 2));
    if |acc| < TrifectaLimit {
      assert Gather3(acc, t, i, j, 0) == Gather3(acc1, t, i, j, 1);
      if |acc1| < TrifectaLimit {
        assert Gather3(acc1, t, i, j, 1) == Gather3(acc2, t, i, j, 2);
        if |acc2| < TrifectaLimit {
          assert Gather3(acc2, t, i, j, 2) == Gather3(acc3, t, i, j, 3);
        }
      }
    }
  }

  /** The middle loop over three boats ends and the outer loop moves on. */
  lemma MiddleEnd3(acc: seq<seq<int>>, t: seq<Boat>, i: nat)
    requires |t| == 3 && |acc| < TrifectaLimit && i < 3
    ensures Gather3(acc, t, i, 3, 0) == Gather3(acc, t, i + 1, 0, 0)
  {
  }

  /** A pass of the innermost loop at (i, j), i != j, over three boats adds the key for (i, j, k) when it is new. */
  lemma PassNew(acc: seq<seq<int>>, t: seq<Boat>, i: nat, j: nat, k: nat)
    requires DifferentBoats(t) && Positions(i, j, k) && |acc| < TrifectaLimit && Key3(t, i, j, k) !in acc
    ensures Gather3(acc, t, i, j, 0) == Gather3(acc + [Key3(t, i, j, k)], t, i, j + 1, 0)
  {
    InnerPass3(acc, t, i, j);
    assert Third(i, j) == k;
  }

  /** A pass whose key is already listed adds nothing (`used`). */
  lemma PassOld(acc: seq<seq<int>>, t: seq<Boat>, i: nat, j: nat, k: nat)
    requires DifferentBoats(t) && Positions(i, j, k) && |acc| < TrifectaLimit && Key3(t, i, j, k) in acc
    ensures Gather3(acc, t, i, j, 0) == Gather3(acc, t, i, j + 1, 0)
  {
    InnerPass3(acc, t, i, j);
    assert Third(i, j) == k;
  }

  /** The pass at (i, i) adds nothing. */
  lemma PassSkip(acc: seq<seq<int>>, t: seq<Boat>, i: nat)
    requires DifferentBoats(t) && i < 3 && |acc| < TrifectaLimit
    ensures Gather3(acc, t, i, i, 0) == Gather3(acc, t, i, i + 1, 0)
  {
    InnerPass3(acc, t, i, i);
  }

  /** The key lists as they grow by one key at a time. */
  lemma KeyLists(k0: seq<int>, k1: seq<int>, k2: seq<int>, k3: seq<int>, k4: seq<int>)
    ensures [] + [k0] == [k0] && [k0] + [k1] == [k0, k1] && [k0, k1] + [k2] == [k0, k1, k2]
    ensures [k0, k1, k2] + [k3] == [k0, k1, k2, k3] && [k0, k1, k2, k3] + [k4] == [k0, k1, k2, k3, k4]
  {
  }

  /** What the first pass needs: three different boats, the last two with different numbers. */
  predicate FirstRowApart(t: seq<Boat>) {
    DifferentBoats(t) && t[1].number != t[2].number
  }

  /** The first pass of the outer loop adds the keys for (0,1,2) and (0,2,1). */
  lemma FirstRow(t: seq<Boat>)
    requires FirstRowApart(t)
    ensures Gather3([], t, 0, 0, 0) == Gather3([Key3(t, 0, 1, 2), Key3(t, 0, 2, 1)], t, 1, 0, 0)
  {
    FirstRowStart(t);
    FirstRowEnd(t);
  }

  /** The first pass up to j = 2: the key for (0,1,2) is added. */
  lemma FirstRowStart(t: seq<Boat>)
    requires FirstRowApart(t)
    ensures Gather3([], t, 0, 0, 0) == Gather3([Key3(t, 0, 1, 2)], t, 0, 2, 0)
  {
    var k0 := Key3(t, 0, 1, 2);
    SkipThenNew([], t, 0, 1, 2);
    assert [] + [k0] == [k0];
  }

  /** The passes at (i, i) and then (i, j) for j = i + 1: the key for (i, j, k) is added. */
  lemma SkipThenNew(acc: seq<seq<int>>, t: seq<Boat>, i: nat, j: nat, k: nat)
    requires DifferentBoats(t) && j == i + 1 && Positions(i, j, k) && |acc| < TrifectaLimit && Key3(t, i, j, k) !in acc
    ensures Gather3(acc, t, i, i, 0) == Gather3(acc + [Key3(t, i, j, k)], t, i, j + 1, 0)
  {
    PassSkip(acc, t, i);
    PassNew(acc, t, i, j, k);
  }

  /** The rest of the first pass: the key for (0,2,1) is added. */
  lemma FirstRowEnd(t: seq<Boat>)
    requires FirstRowApart(t)
    ensures Gather3([Key3(t, 0, 1, 2)], t, 0, 2, 0) == Gather3([Key3(t, 0, 1, 2), Key3(t, 0, 2, 1)], t, 1, 0, 0)
  {
    var k0, k1 := Key3(t, 0, 1, 2), Key3(t, 0, 2, 1);
    assert k1 !in [k0] by { assert k1[1] != k0[1]; }
    PassNew([k0], t, 0, 2, 1);
    assert [k0] + [k1] == [k0, k1];
    MiddleEnd3([k0, k1], t, 0);
  }

  /** The second pass adds the keys for (1,0,2) and (1,2,0). */
  lemma SecondRow(t: seq<Boat>)
    requires Top3(t)
    ensures var k0, k1 := Key3(t, 0, 1, 2), Key3(t, 0, 2, 1);
            var k2, k3 := Key3(t, 1, 0, 2), Key3(t, 1, 2, 0);
            Gather3([k0, k1], t, 1, 0, 0) == Gather3([k0, k1, k2, k3], t, 2, 0, 0)
  {
    SecondRowStart(t);
    SecondRowEnd(t);
  }

  /** The second pass up to j = 2: the key for (1,0,2) is added. */
  lemma SecondRowStart(t: seq<Boat>)
    requires Top3(t)
    ensures var k0, k1, k2 := Key3(t, 0, 1, 2), Key3(t, 0, 2, 1), Key3(t, 1, 0, 2);
            Gather3([k0, k1], t, 1, 0, 0) == Gather3([k0, k1, k2], t, 1, 2, 0)
  {
    var k0, k1, k2 := Key3(t, 0, 1, 2), Key3(t, 0, 2, 1), Key3(t, 1, 0, 2);
    assert k2[0] != k0[0] && k2[0] != k1[0];
    assert k2 !in [k0, k1];
    PassNew([k0, k1], t, 1, 0, 2);
    assert [k0, k1] + [k2] == [k0, k1, k2];
    PassSkip([k0, k1, k2], t, 1);
  }

  /** The rest of the second pass: the key for (1,2,0) is added. */
  lemma SecondRowEnd(t: seq<Boat>)
    requires Top3(t)
    ensures var k0, k1 := Key3(t, 0, 1, 2), Key3(t, 0, 2, 1);
            var k2, k3 := Key3(t, 1, 0, 2), Key3(t, 1, 2, 0);
            Gather3([k0, k1, k2], t, 1, 2, 0) == Gather3([k0, k1, k2, k3], t, 2, 0, 0)
  {
    var k0, k1 := Key3(t, 0, 1, 2), Key3(t, 0, 2, 1);
    var k2, k3 := Key3(t, 1, 0, 2), Key3(t, 1, 2, 0);
    KeyLists(k0, k1, k2, k3, k3);
    assert k3[0] != k0[0] && k3[0] != k1[0] && k3[1] != k2[1];
    PassNew([k0, k1, k2], t, 1, 2, 0);
    MiddleEnd3([k0, k1, k2, k3], t, 1);
  }

  /** The third pass adds the key for (2,0,1) and stops at five keys. */
  lemma ThirdRow(t: seq<Boat>)
    requires Top3(t)
    ensures var k0, k1 := Key3(t, 0, 1, 2), Key3(t, 0, 2, 1);
            var k2, k3 := Key3(t, 1, 0, 2), Key3(t, 1, 2, 0);
            Gather3([k0, k1, k2, k3], t, 2, 0, 0) == [k0, k1, k2, k3, Key3(t, 2, 0, 1)]
  {
    var k0, k1 := Key3(t, 0, 1, 2), Key3(t, 0, 2, 1);
    var k2, k3 := Key3(t, 1, 0, 2), Key3(t, 1, 2, 0);
    var k4 := Key3(t, 2, 0, 1);
    KeyLists(k0, k1, k2, k3, k4);
    assert k4[0] != k0[0] && k4[0] != k1[0] && k4[0] != k2[0] && k4[0] != k3[0];
    PassNew([k0, k1, k2, k3], t, 2, 0, 1);
  }

  /**
   * Lines 37-52: with three boats of different numbers at the top, the trifecta is the position
   * orders (0,1,2), (0,2,1), (1,0,2), (1,2,0), (2,0,1) of the top three, which are predict.py's
   * five main bets.
   */
  lemma TrifectaOfThree(ranked: seq<Boat>)
    requires ThreeApart(ranked)
    ensures var n0, n1, n2 := ranked[0].number, ranked[1].number, ranked[2].number;
            Trifecta(ranked) == [[n0, n1, n2], [n0, n2, n1], [n1, n0, n2], [n1, n2, n0], [n2, n0, n1]]
    ensures Trifecta(ranked) == Predict.MainBets([ranked[0].number, ranked[1].number, ranked[2].number])
  {
    var t := Head(ranked, 3);
    assert t[0] == ranked[0] && t[1] == ranked[1] && t[2] == ranked[2];
    FirstRow(t);
    SecondRow(t);
    ThirdRow(t);
  }

  /** The first two of three different boats share their number, as two dicts for one lane can. */
  predicate SharedLane(t: seq<Boat>) {
    DifferentBoats(t) && t[0].number == t[1].number && t[2].number != t[0].number
  }

  /**
   * Lines 37-52 compare whole dicts: two different boats with the same number both take part, so
   * the keys a-a-c, a-c-a and c-a-a are listed once each and the loops run out before five keys.
   */
  lemma SharedLaneTrifecta(ranked: seq<Boat>)
    requires |ranked| >= 3 && SharedLane(ranked[..3])
    ensures var a, c := ranked[0].number, ranked[2].number;
            Trifecta(ranked) == [[a, a, c], [a, c, a], [c, a, a]]
  {
    var t := Head(ranked, 3);
    assert t == ranked[..3];
    FirstRow(t);
    SharedRow1(t);
    SharedRow2(t);
  }

  /** The second pass over a shared lane meets only keys already listed. */
  lemma SharedRow1(t: seq<Boat>)
    requires SharedLane(t)
    ensures var acc := [Key3(t, 0, 1, 2), Key3(t, 0, 2, 1)];
            Gather3(acc, t, 1, 0, 0) == Gather3(acc, t, 2, 0, 0)
  {
    var acc := [Key3(t, 0, 1, 2), Key3(t, 0, 2, 1)];
    assert Key3(t, 1, 0, 2) == acc[0] && Key3(t, 1, 2, 0) == acc[1];
    PassOld(acc, t, 1, 0, 2);
    PassSkip(acc, t, 1);
    PassOld(acc, t, 1, 2, 0);
    MiddleEnd3(acc, t, 1);
  }

  /** The third pass over a shared lane adds c-a-a, and the loops end with three keys. */
  lemma SharedRow2(t: seq<Boat>)
    requires SharedLane(t)
    ensures var acc := [Key3(t, 0, 1, 2), Key3(t, 0, 2, 1)];
            Gather3(acc, t, 2, 0, 0) == acc + [Key3(t, 2, 0, 1)]
  {
    var acc := [Key3(t, 0, 1, 2), Key3(t, 0, 2, 1)];
    var k2 := Key3(t, 2, 0, 1);
    assert k2 !in acc by { assert k2[0] != acc[0][0] && k2[0] != acc[1][0]; }
    PassNew(acc, t, 2, 0, 1);
    var acc3 := acc + [k2];
    assert Key3(t, 2, 1, 0) == acc3[2];
    PassOld(acc3, t, 2, 1, 0);
    PassSkip(acc3, t, 2);
    MiddleEnd3(acc3, t, 2);
    Gather3Done(acc3, t);
  }

  /** Lines 37-52: with two boats or fewer, no trifecta key is produced, and nothing fails. */
  lemma TrifectaOfFew(ranked: seq<Boat>)
    requires |ranked| <= 2
    ensures Trifecta(ranked) == []
  {
    NoTriple([], Head(ranked, 3), 0, 0, 0);
  }

  // ---------------------------------------------------------------------------------------------
  // Exacta (lines 55-68)

  /** Lines 59-61: the key for first boat t2[i] and second boat t3[j], unless they are equal. */
  function Cand2(t2: seq<Boat>, t3: seq<Boat>, i: nat, j: nat): Option<seq<int>>
    requires i < |t2| && j < |t3|
  {
    if t2[i] == t3[j] then None else Some([t2[i].number, t3[j].number])
  }

  /** What the two nested loops still add when they resume at (i, j), stopping at three keys. */
  function Gather2(acc: seq<seq<int>>, t2: seq<Boat>, t3: seq<Boat>, i: nat, j: nat): (r: seq<seq<int>>)
    ensures acc <= r
    ensures |acc| <= ExactaLimit ==> |r| <= ExactaLimit
    ensures Distinct(acc) ==> Distinct(r)
    decreases |t2| - i, |t3| - j
  {
    if |acc| >= ExactaLimit || i >= |t2| then acc
    else if j >= |t3| then Gather2(acc, t2, t3, i + 1, 0)
    else Gather2(Step(acc, Cand2(t2, t3, i, j)), t2, t3, i, j + 1)
  }

  /** The exacta list for a ranked boat list: first boats from `ranked[:2]`, second from `ranked[:3]`. */
  function Exacta(ranked: seq<Boat>): seq<seq<int>> {
    Gather2([], Head(ranked, 2), Head(ranked, 3), 0, 0)
  }

  /** Lines 55-68: the double loop with `continue`, the `used2` set and the two breaks. */
  method ExactaPredictions(ranked: seq<Boat>) returns (exactaPreds: seq<seq<int>>)
    ensures exactaPreds == Exacta(ranked)
    ensures |exactaPreds| <= ExactaLimit && Distinct(exactaPreds)
  {
    var top2, top3 := Head(ranked, 2), Head(ranked, 3);
    ghost var target := Exacta(ranked);
    exactaPreds := [];
    var used2: set<seq<int>> := {};
    for i := 0 to |top2|
      invariant |exactaPreds| < ExactaLimit
      invariant Gather2(exactaPreds, top2, top3, i, 0) == target
      invariant used2 == set x | x in exactaPreds
    {
      for j := 0 to |top3|
        invariant |exactaPreds| < ExactaLimit
        invariant Gather2(exactaPreds, top2, top3, i, j) == target
        invariant used2 == set x | x in exactaPreds
      {
        var a, b := top2[i], top3[j];
        if a == b {
          Gather2Skip(exactaPreds, top2, top3, i, j);
          continue;
        }
        var key2 := [a.number, b.number];
        if key2 !in used2 {
          Gather2New(exactaPreds, top2, top3, i, j);
          KeySetSnoc(exactaPreds, key2);
          exactaPreds := exactaPreds + [key2];
          used2 := used2 + {key2};
        } else {
          Gather2Old(exactaPreds, top2, top3, i, j);
        }
        if |exactaPreds| >= ExactaLimit {
          Gather2Full(exactaPreds, top2, top3, i, j + 1);
          break;
        }
      }
      if |exactaPreds| >= ExactaLimit {
        break;
      }
      Gather2Row(exactaPreds, top2, top3, i);
    }
  }

  /** A pass of the inner loop whose key is already listed adds nothing (`used2`). */
  lemma Gather2Old(acc: seq<seq<int>>, t2: seq<Boat>, t3: seq<Boat>, i: nat, j: nat)
    requires i < |t2| && j < |t3| && |acc| < ExactaLimit && t2[i] != t3[j]
    requires [t2[i].number, t3[j].number] in acc
    ensures Gather2(acc, t2, t3, i, j) == Gather2(acc, t2, t3, i, j + 1)
  {
  }

  /** Once the list is full the loops stop (the two breaks). */
  lemma Gather2Full(acc: seq<seq<int>>, t2: seq<Boat>, t3: seq<Boat>, i: nat, j: nat)
    requires |acc| >= ExactaLimit
    ensures Gather2(acc, t2, t3, i, j) == acc
  {
  }

  /** The set of listed keys after one more key. */
  lemma KeySetSnoc(acc: seq<seq<int>>, key: seq<int>)
    ensures (set x | x in acc + [key]) == (set x | x in acc) + {key}
  {
  }

  /** A pass of the inner loop whose two boats differ and whose key is new appends that key. */
  lemma Gather2New(acc: seq<seq<int>>, t2: seq<Boat>, t3: seq<Boat>, i: nat, j: nat)
    requires i < |t2| && j < |t3| && |acc| < ExactaLimit && t2[i] != t3[j]
    requires [t2[i].number, t3[j].number] !in acc
    ensures Gather2(acc, t2, t3, i, j) == Gather2(acc + [[t2[i].number, t3[j].number]], t2, t3, i, j + 1)
  {
  }

  /** A pass of the inner loop whose two boats are the same is skipped (`continue`). */
  lemma Gather2Skip(acc: seq<seq<int>>, t2: seq<Boat>, t3: seq<Boat>, i: nat, j: nat)
    requires i < |t2| && j < |t3| && |acc| < ExactaLimit && t2[i] == t3[j]
    ensures Gather2(acc, t2, t3, i, j) == Gather2(acc, t2, t3, i, j + 1)
  {
  }

  /** The inner loop ends and the outer loop moves on. */
  lemma Gather2Row(acc: seq<seq<int>>, t2: seq<Boat>, t3: seq<Boat>, i: nat)
    requires i < |t2| && |acc| < ExactaLimit
    ensures Gather2(acc, t2, t3, i, |t3|) == Gather2(acc, t2, t3, i + 1, 0)
  {
  }

  /** Lines 55-68: with three boats of different numbers at the top, the exacta is r0-r1, r0-r2, r1-r0. */
  lemma ExactaOfThree(ranked: seq<Boat>)
    requires ThreeApart(ranked)
    ensures var n0, n1, n2 := ranked[0].number, ranked[1].number, ranked[2].number;
            Exacta(ranked) == [[n0, n1], [n0, n2], [n1, n0]]
  {
    var t2, t3 := Head(ranked, 2), Head(ranked, 3);
    var n0, n1, n2 := t3[0].number, t3[1].number, t3[2].number;
    assert t2 == t3[..2];
    ApartExacta0(t2, t3);
    assert t3[1] != t3[0] && [n1, n0] !in [[n0, n1], [n0, n2]];
    assert [[n0, n1], [n0, n2]] + [[n1, n0]] == [[n0, n1], [n0, n2], [n1, n0]];
    Gather2New([[n0, n1], [n0, n2]], t2, t3, 1, 0);
  }

  /** The first pass of the exacta loops over three boats of different numbers adds r0-r1 and r0-r2. */
  lemma ApartExacta0(t2: seq<Boat>, t3: seq<Boat>)
    requires ThreeApart(t3) && |t3| == 3 && t2 == t3[..2]
    ensures var n0, n1, n2 := t3[0].number, t3[1].number, t3[2].number;
            Gather2([], t2, t3, 0, 0) == Gather2([[n0, n1], [n0, n2]], t2, t3, 1, 0)
  {
    var n0, n1, n2 := t3[0].number, t3[1].number, t3[2].number;
    assert t2[0] == t3[0] && t3[0] != t3[1] && t3[0] != t3[2];
    assert [] + [[n0, n1]] == [[n0, n1]] && [[n0, n1]] + [[n0, n2]] == [[n0, n1], [n0, n2]];
    assert [n0, n2] !in [[n0, n1]];
    Gather2Skip([], t2, t3, 0, 0);
    Gather2New([], t2, t3, 0, 1);
    Gather2New([[n0, n1]], t2, t3, 0, 2);
    Gather2Row([[n0, n1], [n0, n2]], t2, t3, 0);
  }

  /**
   * Lines 55-68 over a shared lane: the second boat repeats the first one's keys, so only a-a and
   * a-c are listed.
   */
  lemma SharedLaneExacta(ranked: seq<Boat>)
    requires |ranked| >= 3 && SharedLane(ranked[..3])
    ensures var a, c := ranked[0].number, ranked[2].number;
            Exacta(ranked) == [[a, a], [a, c]]
  {
    var t2, t3 := Head(ranked, 2), Head(ranked, 3);
    assert t3 == ranked[..3] && t2 == t3[..2];
    SharedExacta0(t2, t3);
    SharedExacta1(t2, t3);
  }

  /** The first pass of the exacta loops over a shared lane adds a-a and a-c. */
  lemma SharedExacta0(t2: seq<Boat>, t3: seq<Boat>)
    requires SharedLane(t3) && t2 == t3[..2]
    ensures var a, c := t3[0].number, t3[2].number;
            Gather2([], t2, t3, 0, 0) == Gather2([[a, a], [a, c]], t2, t3, 1, 0)
  {
    var a, c := t3[0].number, t3[2].number;
    assert t2[0] == t3[0] && |t2| == 2;
    assert [] + [[a, a]] == [[a, a]] && [[a, a]] + [[a, c]] == [[a, a], [a, c]];
    Gather2Skip([], t2, t3, 0, 0);
    Gather2New([], t2, t3, 0, 1);
    SharedExacta0End(t2, t3);
  }

  /** The end of that pass: a-c is new. */
  lemma SharedExacta0End(t2: seq<Boat>, t3: seq<Boat>)
    requires SharedLane(t3) && t2 == t3[..2]
    ensures var a, c := t3[0].number, t3[2].number;
            Gather2([[a, a]], t2, t3, 0, 2) == Gather2([[a, a], [a, c]], t2, t3, 1, 0)
  {
    var a, c := t3[0].number, t3[2].number;
    assert t2[0] == t3[0] && t2[0] != t3[2] && |t2| == 2;
    assert [a, c] !in [[a, a]];
    assert [[a, a]] + [[a, c]] == [[a, a], [a, c]];
    Gather2New([[a, a]], t2, t3, 0, 2);
    Gather2Row([[a, a], [a, c]], t2, t3, 0);
  }

  /** The second pass of the exacta loops over a shared lane meets only listed keys. */
  lemma SharedExacta1(t2: seq<Boat>, t3: seq<Boat>)
    requires SharedLane(t3) && t2 == t3[..2]
    ensures var a, c := t3[0].number, t3[2].number;
            Gather2([[a, a], [a, c]], t2, t3, 1, 0) == [[a, a], [a, c]]
  {
    var a, c := t3[0].number, t3[2].number;
    var acc := [[a, a], [a, c]];
    ApartBoats(t3);
    Gather2Old(acc, t2, t3, 1, 0);
    Gather2Skip(acc, t2, t3, 1, 1);
    Gather2Old(acc, t2, t3, 1, 2);
    Gather2Row(acc, t2, t3, 1);
  }

  /** Lines 55-68: with exactly two boats of different numbers, the exacta is r0-r1, r1-r0. */
  lemma ExactaOfTwo(ranked: seq<Boat>)
    requires |ranked| == 2 && ranked[0].number != ranked[1].number
    ensures Exacta(ranked) == [[ranked[0].number, ranked[1].number], [ranked[1].number, ranked[0].number]]
  {
    var t := Head(ranked, 3);
    assert t == ranked && Head(ranked, 2) == ranked;
    var n0, n1 := t[0].number, t[1].number;
    assert t[0] != t[1];
    assert Gather2([], t, t, 0, 0) == Gather2([], t, t, 0, 1);
    assert Cand2(t, t, 0, 1) == Some([n0, n1]);
    assert Step([], Some([n0, n1])) == [[n0, n1]];
    assert Gather2([], t, t, 0, 1) == Gather2([[n0, n1]], t, t, 0, 2);
    assert Gather2([[n0, n1]], t, t, 0, 2) == Gather2([[n0, n1]], t, t, 1, 0);
    assert Cand2(t, t, 1, 0) == Some([n1, n0]);
    assert Step([[n0, n1]], Some([n1, n0])) == [[n0, n1], [n1, n0]];
    assert Gather2([[n0, n1]], t, t, 1, 0) == Gather2([[n0, n1], [n1, n0]], t, t, 1, 1);
    assert Gather2([[n0, n1], [n1, n0]], t, t, 1, 1) == Gather2([[n0, n1], [n1, n0]], t, t, 1, 2);
  }

  /** Lines 27-68: a race without boats gets empty trifecta and exacta lists. */
  lemma NoBoats()
    ensures Trifecta([]) == [] && Exacta([]) == []
  {
  }

  // ---------------------------------------------------------------------------------------------
  // Comments (lines 71-88)

  const StartTag := "鋭いスタート持ち"
  const MotorTag := "モーター良好"
  const LocalTag := "当地実績あり"

  /** Line 86: the phrases `random.choice` picks from. */
  const Extras := ["展開次第で浮上", "捲り一手に注意", "安定感ある走り", "展開を活かしたい"]

  predicate SharpStart(b: Boat) { b.startTiming.Some? && b.startTiming.value < 0.13 }
  predicate GoodMotor(b: Boat) { b.motor.Some? && b.motor.value > 50.0 }
  predicate LocalRecord(b: Boat) { b.local.Some? && b.local.value > 5.0 }

  /** The position of each tag in the fixed order of lines 79-84. */
  function TagRank(tag: string): int {
    if tag == StartTag then 0 else if tag == MotorTag then 1 else 2
  }

  /** Lines 79-84: each tag iff its condition holds (a missing field never qualifies), in a fixed order. */
  function Tags(b: Boat): (r: seq<string>)
    ensures StartTag in r <==> SharpStart(b)
    ensures MotorTag in r <==> GoodMotor(b)
    ensures LocalTag in r <==> LocalRecord(b)
    ensures forall x :: x in r ==> x == StartTag || x == MotorTag || x == LocalTag
    ensures forall i, j :: 0 <= i < j < |r| ==> TagRank(r[i]) < TagRank(r[j])
  {
    (if SharpStart(b) then [StartTag] else [])
    + (if GoodMotor(b) then [MotorTag] else [])
    + (if LocalRecord(b) then [LocalTag] else [])
  }

  /**
   * Line 88: the tags, then the randomly chosen extra phrase (drawn by the caller: index `pick`
   * into `Extras`), joined by "、" and closed by "。". The comment starts with the first tag (or
   * with the extra phrase when there is no tag) and ends with the extra phrase and "。".
   */
  function Comment(b: Boat, pick: nat): (r: string)
    requires pick < |Extras|
    ensures |r| > 0 && r[|r| - 1] == '。'
    ensures Tags(b) == [] ==> r == Extras[pick] + "。"
    ensures Tags(b) != [] ==> r == JoinText("、", Tags(b)) + "、" + Extras[pick] + "。"
  {
    JoinTextSnoc("、", Tags(b), Extras[pick]);
    JoinText("、", Tags(b) + [Extras[pick]]) + "。"
  }

  /** Each boat's comment, in boat order. */
  function Texts(boats: seq<Boat>, picks: seq<nat>): (r: seq<string>)
    requires |picks| == |boats| && forall i :: 0 <= i < |picks| ==> picks[i] < |Extras|
    ensures |r| == |boats|
  {
    seq(|boats|, i requires 0 <= i < |boats| => Comment(boats[i], picks[i]))
  }

  /** Lines 72-88 writing `texts` under the boats' numbers in boat order: a later write replaces an earlier one. */
  function Assign(boats: seq<Boat>, texts: seq<string>): map<int, string>
    requires |texts| == |boats|
  {
    if boats == [] then map[]
    else
      var n := |boats| - 1;
      Assign(boats[..n], texts[..n])[boats[n].number := texts[n]]
  }

  /** One more boat writes its text over the map of the boats before it. */
  lemma AssignStep(boats: seq<Boat>, texts: seq<string>, n: nat)
    requires |texts| == |boats| && n < |boats|
    ensures Assign(boats[..n + 1], texts[..n + 1]) == Assign(boats[..n], texts[..n])[boats[n].number := texts[n]]
  {
    assert boats[..n + 1][..n] == boats[..n] && texts[..n + 1][..n] == texts[..n];
  }

  /** The comment map after the loop over all boats. */
  function CommentsOf(boats: seq<Boat>, picks: seq<nat>): map<int, string>
    requires |picks| == |boats| && forall i :: 0 <= i < |picks| ==> picks[i] < |Extras|
  {
    Assign(boats, Texts(boats, picks))
  }

  /** The lane numbers of a boat list are those of all but its last boat, and the last one's. */
  lemma NumbersSnoc(boats: seq<Boat>)
    requires boats != []
    ensures var n := |boats| - 1;
            (set i | 0 <= i < |boats| :: boats[i].number) == (set i | 0 <= i < n :: boats[..n][i].number) + {boats[n].number}
  {
    var n := |boats| - 1;
    assert forall i :: 0 <= i < n ==> boats[..n][i] == boats[i];
  }

  lemma {:induction false} AssignKeys(boats: seq<Boat>, texts: seq<string>)
    requires |texts| == |boats|
    ensures Assign(boats, texts).Keys == set i | 0 <= i < |boats| :: boats[i].number
  {
    if boats != [] {
      var n := |boats| - 1;
      AssignKeys(boats[..n], texts[..n]);
      NumbersSnoc(boats);
    }
  }

  lemma {:induction false} AssignLastWins(boats: seq<Boat>, texts: seq<string>, i: nat)
    requires |texts| == |boats|
    requires i < |boats| && forall j :: i < j < |boats| ==> boats[j].number != boats[i].number
    ensures boats[i].number in Assign(boats, texts)
    ensures Assign(boats, texts)[boats[i].number] == texts[i]
  {
    var n := |boats| - 1;
    if i < n {
      var front, frontTexts := boats[..n], texts[..n];
      assert front[i] == boats[i] && frontTexts[i] == texts[i];
      assert forall j :: i < j < n ==> front[j] == boats[j];
      AssignLastWins(front, frontTexts, i);
    }
  }

  /** Every lane number of the boats gets a comment, and no other key. */
  lemma CommentsOfKeys(boats: seq<Boat>, picks: seq<nat>)
    requires |picks| == |boats| && forall i :: 0 <= i < |picks| ==> picks[i] < |Extras|
    ensures CommentsOf(boats, picks).Keys == set i | 0 <= i < |boats| :: boats[i].number
  {
    AssignKeys(boats, Texts(boats, picks));
  }

  /** A lane's comment is the one of the last boat with that number. */
  lemma CommentsOfLastWins(boats: seq<Boat>, picks: seq<nat>, i: nat)
    requires |picks| == |boats| && forall i :: 0 <= i < |picks| ==> picks[i] < |Extras|
    requires i < |boats| && forall j :: i < j < |boats| ==> boats[j].number != boats[i].number
    ensures boats[i].number in CommentsOf(boats, picks)
    ensures CommentsOf(boats, picks)[boats[i].number] == Comment(boats[i], picks[i])
  {
    AssignLastWins(boats, Texts(boats, picks), i);
  }

  /**
   * Lines 71-88: one comment per lane number; `picks[i]` is the random choice made for boat i.
   */
  method BuildComments(boats: seq<Boat>, picks: seq<nat>) returns (comments: map<int, string>)
    requires |picks| == |boats| && forall i :: 0 <= i < |picks| ==> picks[i] < |Extras|
    ensures comments == CommentsOf(boats, picks)
  {
    ghost var texts := Texts(boats, picks);
    comments := map[];
    for n := 0 to |boats|
      invariant comments == Assign(boats[..n], texts[..n])
    {
      var b := boats[n];
      AssignStep(boats, texts, n);
      comments := comments[b.number := Comment(b, picks[n])];
    }
    assert boats[..|boats|] == boats && texts[..|texts|] == texts;
  }

  // ---------------------------------------------------------------------------------------------
  // Accuracy (lines 98-138)

  /** A boat of a past result: its finishing place and number, either possibly missing. */
  datatype ResultBoat = ResultBoat(place: Option<int>, number: Option<int>)

  /** A past race: its stadium number (possibly missing) and its boats. */
  datatype Race = Race(stadium: Option<int>, boats: seq<ResultBoat>)

  /** A venue's counters. */
  datatype Counter = Counter(hit: nat, total: nat)

  /** Line 113: the sort key, a missing place counting as 999. */
  function PlaceKey(b: ResultBoat): real {
    match b.place
    case None => 999.0
    case Some(p) => p as real
  }

  /** Lines 113-114: the boats sorted by place (stably), cut to three. */
  function PlacedFirst(boats: seq<ResultBoat>): (r: seq<ResultBoat>)
    ensures |r| == Min(3, |boats|)
  {
    Head(SortBy(boats, PlaceKey, false), 3)
  }

  /**
   * The three boats kept have the best places, in order: they come from the race, and whatever
   * the cut leaves out places no better (a missing place being last, as 999).
   */
  lemma PlacedFirstBest(boats: seq<ResultBoat>)
    ensures multiset(PlacedFirst(boats)) <= multiset(boats)
    ensures Sorted(PlacedFirst(boats), PlaceKey, false)
    ensures forall x, y :: x in PlacedFirst(boats) && y in multiset(boats) - multiset(PlacedFirst(boats)) ==>
              PlaceKey(x) <= PlaceKey(y)
  {
    var sorted := SortBy(boats, PlaceKey, false);
    var r := PlacedFirst(boats);
    assert r == sorted[..|r|];
    CutSorted(sorted, PlaceKey, false, |r|);
  }

  /** Line 114: the boat numbers of the actual top three. */
  function ActualTop3(boats: seq<ResultBoat>): (r: seq<Option<int>>)
    ensures |r| == Min(3, |boats|)
    ensures forall i :: 0 <= i < |r| ==> r[i] == PlacedFirst(boats)[i].number
  {
    var top := PlacedFirst(boats);
    seq(|top|, i requires 0 <= i < |top| => top[i].number)
  }

  /** Lines 125-126: the predicted key agrees position by position with the actual top three. */
  predicate Matches(comb: seq<int>, top3: seq<Option<int>>) {
    forall i :: 0 <= i < |comb| ==> i < |top3| && top3[i] == Some(comb[i])
  }

  /** Lines 123-128: some predicted key hits. */
  predicate Hit(predList: seq<seq<int>>, top3: seq<Option<int>>) {
    exists q :: 0 <= q < |predList| && Matches(predList[q], top3)
  }

  /** Lines 111-128: the race's actual top three is among the predicted keys. */
  predicate RaceHits(race: Race, predList: seq<seq<int>>) {
    Hit(predList, ActualTop3(race.boats))
  }

  /** One race of lines 105-129, applied to the counters. */
  function Tally(stats: map<int, Counter>, race: Race, predictions: map<int, seq<seq<int>>>): map<int, Counter> {
    match race.stadium
    case None => stats
    case Some(vid) =>
      var s := if vid in stats then stats else stats[vid := Counter(0, 0)];
      if vid !in predictions then s
      else
        var h := if RaceHits(race, predictions[vid]) then 1 else 0;
        s[vid := Counter(s[vid].hit + h, s[vid].total + 1)]
  }

  /** The venues that occur among the races. */
  function Stadiums(races: seq<Race>): set<int> {
    set i | 0 <= i < |races| && races[i].stadium.Some? :: races[i].stadium.value
  }

  /** The counters after the races, from empty; each step adds at most one hit and exactly one total. */
  function StatsOf(races: seq<Race>, predictions: map<int, seq<seq<int>>>): (r: map<int, Counter>)
    ensures r.Keys == Stadiums(races)
    ensures forall v :: v in r ==> r[v].hit <= r[v].total
    ensures forall v :: v in r && v !in predictions ==> r[v] == Counter(0, 0)
  {
    if races == [] then map[]
    else
      var front := races[..|races| - 1];
      var last := races[|races| - 1];
      assert Stadiums(races) == Stadiums(front) + (if last.stadium.Some? then {last.stadium.value} else {}) by {
        assert forall i :: 0 <= i < |front| ==> races[i] == front[i];
      }
      Tally(StatsOf(front, predictions), last, predictions)
  }

  /** One more race is one more tally. */
  lemma StatsSnoc(races: seq<Race>, race: Race, predictions: map<int, seq<seq<int>>>)
    ensures StatsOf(races + [race], predictions) == Tally(StatsOf(races, predictions), race, predictions)
  {
    assert (races + [race])[..|races|] == races;
  }

  /** One more race of the date is tallied onto the counters so far. */
  lemma StatsStep(before: seq<Race>, results: seq<Race>, r: nat, predictions: map<int, seq<seq<int>>>)
    requires r < |results|
    ensures StatsOf(before + results[..r + 1], predictions) == Tally(StatsOf(before + results[..r], predictions), results[r], predictions)
  {
    assert before + results[..r + 1] == (before + results[..r]) + [results[r]];
    StatsSnoc(before + results[..r], results[r], predictions);
  }

  /** The number of races at venue v. */
  function CountAt(races: seq<Race>, v: int): nat {
    if races == [] then 0
    else CountAt(races[..|races| - 1], v) + (if races[|races| - 1].stadium == Some(v) then 1 else 0)
  }

  /** The number of races at venue v whose actual top three some prediction for v matches. */
  function HitsAt(races: seq<Race>, v: int, predList: seq<seq<int>>): nat {
    if races == [] then 0
    else
      var last := races[|races| - 1];
      HitsAt(races[..|races| - 1], v, predList) + (if last.stadium == Some(v) && RaceHits(last, predList) then 1 else 0)
  }

  /** A venue that has not occurred has no races, hence no hits. */
  lemma {:induction false} NotSeen(races: seq<Race>, v: int, predList: seq<seq<int>>)
    requires v !in Stadiums(races)
    ensures CountAt(races, v) == 0 && HitsAt(races, v, predList) == 0
  {
    if races != [] {
      var n := |races| - 1;
      assert Stadiums(races[..n]) <= Stadiums(races) by {
        assert forall i :: 0 <= i < n ==> races[..n][i] == races[i];
      }
      assert races[n].stadium != Some(v) by {
        if races[n].stadium.Some? {
          assert races[n].stadium.value in Stadiums(races);
        }
      }
      NotSeen(races[..n], v, predList);
    }
  }

  /**
   * Lines 108 and 123-129, counted independently: a predicted venue's total is the number of its
   * races and its hit count the number of those some prediction matches.
   */
  lemma {:induction false} StatsCount(races: seq<Race>, predictions: map<int, seq<seq<int>>>, v: int)
    requires v in predictions && v in StatsOf(races, predictions)
    ensures StatsOf(races, predictions)[v].total == CountAt(races, v)
    ensures StatsOf(races, predictions)[v].hit == HitsAt(races, v, predictions[v])
  {
    var n := |races| - 1;
    var front := races[..n];
    if v in StatsOf(front, predictions) {
      StatsCount(front, predictions, v);
    } else {
      NotSeen(front, v, predictions[v]);
    }
  }

  /** Lines 134-137: the accuracy of a counter as an exact percentage; 0 without any predicted race. */
  function Percent(c: Counter): (r: real)
    ensures c.hit <= c.total ==> 0.0 <= r <= 100.0
    ensures c.total == 0 ==> r == 0.0
    ensures c.total > 0 && c.hit == c.total ==> r == 100.0
  {
    if c.total > 0 then UnitFraction(c.hit, c.total); (c.hit as real) / (c.total as real) * 100.0 else 0.0
  }

  /** A count out of a positive total is a fraction in [0, 1], and 1 when the two agree. */
  lemma UnitFraction(h: nat, t: nat)
    requires t > 0
    ensures 0.0 <= (h as real) / (t as real)
    ensures h <= t ==> (h as real) / (t as real) <= 1.0
    ensures h == t ==> (h as real) / (t as real) == 1.0
  {
    SelfDiv(t as real);
    if h <= t {
      Ratio(h, t, t);
    } else {
      DivMono(0.0, h as real, t as real);
    }
  }

  /** Lines 123-128: scan the predicted keys, stopping at the first that matches. */
  method AnyMatch(predList: seq<seq<int>>, top3: seq<Option<int>>) returns (found: bool)
    ensures found <==> Hit(predList, top3)
  {
    found := false;
    for q := 0 to |predList|
      invariant forall p :: 0 <= p < q ==> !Matches(predList[p], top3)
    {
      if Matches(predList[q], top3) {
        found := true;
        break;
      }
    }
  }

  /** Lines 105-129, one race: skip a race without stadium, open its counter, count a predicted race. */
  method TallyRace(venueStats: map<int, Counter>, race: Race, predictions: map<int, seq<seq<int>>>)
    returns (stats: map<int, Counter>)
    ensures stats == Tally(venueStats, race, predictions)
  {
    stats := venueStats;
    if race.stadium.None? {
      return;
    }
    var vid := race.stadium.value;
    if vid !in stats {
      stats := stats[vid := Counter(0, 0)];
    }
    var top3 := ActualTop3(race.boats);
    if vid !in predictions {
      return;
    }
    var found := AnyMatch(predictions[vid], top3);
    var hit := stats[vid].hit + (if found then 1 else 0);
    stats := stats[vid := Counter(hit, stats[vid].total + 1)];
  }

  /** Lines 132-138: the percentage of every counter. */
  method ToAccuracy(venueStats: map<int, Counter>) returns (accuracy: map<int, real>)
    ensures accuracy.Keys == venueStats.Keys
    ensures forall v :: v in accuracy ==> accuracy[v] == Percent(venueStats[v])
  {
    accuracy := map[];
    var remaining := venueStats.Keys;
    while remaining != {}
      invariant remaining <= venueStats.Keys
      invariant accuracy.Keys == venueStats.Keys - remaining
      invariant forall v :: v in accuracy ==> accuracy[v] == Percent(venueStats[v])
      decreases |remaining|
    {
      NonEmptyHasElement(remaining);
      var vid :| vid in remaining;
      var st := venueStats[vid];
      if st.total > 0 {
        accuracy := accuracy[vid := (st.hit as real) / (st.total as real) * 100.0];
      } else {
        accuracy := accuracy[vid := 0.0];
      }
      remaining := remaining - {vid};
    }
  }

  /**
   * `compute_accuracy`: `history` lists each date's results; `predictions` maps the venues that
   * have a (truthy) prediction to its trifecta keys. Every venue seen gets an accuracy, between 0
   * and 100, and a venue without a prediction gets 0.
   */
  method ComputeAccuracy(history: seq<seq<Race>>, predictions: map<int, seq<seq<int>>>)
    returns (accuracy: map<int, real>)
    ensures accuracy.Keys == StatsOf(Flatten(history), predictions).Keys
    ensures forall v :: v in accuracy ==> accuracy[v] == Percent(StatsOf(Flatten(history), predictions)[v])
    ensures forall v :: v in accuracy ==> 0.0 <= accuracy[v] <= 100.0
    ensures forall v :: v in accuracy && v !in predictions ==> accuracy[v] == 0.0
  {
    var venueStats: map<int, Counter> := map[];
    for d := 0 to |history|
      invariant venueStats == StatsOf(Flatten(history[..d]), predictions)
    {
      FlattenSnoc(history, d);
      venueStats := TallyDay(venueStats, history[d], predictions, Flatten(history[..d]));
    }
    assert history[..|history|] == history;
    accuracy := ToAccuracy(venueStats);
  }

  /** Lines 105-129 over one date's results, continuing the counters of the races `before`. */
  method TallyDay(venueStats: map<int, Counter>, results: seq<Race>, predictions: map<int, seq<seq<int>>>,
                  ghost before: seq<Race>)
    returns (stats: map<int, Counter>)
    requires venueStats == StatsOf(before, predictions)
    ensures stats == StatsOf(before + results, predictions)
  {
    stats := venueStats;
    assert before + results[..0] == before;
    for r := 0 to |results|
      invariant stats == StatsOf(before + results[..r], predictions)
    {
      StatsStep(before, results, r, predictions);
      stats := TallyRace(stats, results[r], predictions);
    }
    assert results[..|results|] == results;
  }
}
