/**
 * features.py, `build_features`: every boat with a positive finishing place contributes one
 * race (date, place, start timing) to its racer's list; then each racer's `recent_n` most recent
 * races give one feature row of counts and rates. Dates are integer day numbers (the parsed
 * "YYYY-MM-DD"); rates and averages are exact reals. A racer's list is a `defaultdict(list)`
 * entry, and racers keep the order in which they first contributed.
 */
module Features {
  import opened Common
  import opened Sorting

  /** A boat of a past result: racer number, finishing place and start timing, the last two possibly missing. */
  datatype ResultBoat = ResultBoat(racer: int, place: Option<int>, startTiming: Option<real>)

  /** A past race: its date and boats. */
  datatype Race = Race(date: int, boats: seq<ResultBoat>)

  /** Lines 29-33: what one counted boat appends to its racer's list. */
  datatype Entry = Entry(date: int, rank: int, start: real)

  /** Lines 48-57: one feature row. */
  datatype FeatureRow = FeatureRow(racer: int, totalRaces: nat, winRate: real, place2Rate: real,
                                   place3Rate: real, avgRank: real, avgStart: real, target: int)

  /** The default window of `build_features`. */
  const DefaultRecent := 20

  /** Line 27: a missing place counts as 0. */
  function PlaceOf(b: ResultBoat): int {
    match b.place
    case None => 0
    case Some(p) => p
  }

  /** Line 32: a missing start timing counts as 0.2. */
  function StartOf(b: ResultBoat): real {
    match b.startTiming
    case None => 0.2
    case Some(s) => s
  }

  /** Lines 26-33 for one race: the (racer, entry) pairs its boats append, in boat order. */
  function BoatContribs(date: int, boats: seq<ResultBoat>): seq<(int, Entry)> {
    if boats == [] then []
    else
      var n := |boats| - 1;
      var b := boats[n];
      BoatContribs(date, boats[..n]) + BoatContrib(date, b)
  }

  /** Lines 27-33 for one boat: the pair it appends, if its place is positive. */
  function BoatContrib(date: int, b: ResultBoat): seq<(int, Entry)> {
    if PlaceOf(b) > 0 then [(b.racer, Entry(date, PlaceOf(b), StartOf(b)))] else []
  }

  /** Lines 23-33: the pairs appended over all races, in loop order. */
  function Contribs(races: seq<Race>): seq<(int, Entry)> {
    if races == [] then []
    else
      var n := |races| - 1;
      Contribs(races[..n]) + BoatContribs(races[n].date, races[n].boats)
  }

  /** Only boats with a positive place contribute, and each entry carries its race's date. */
  lemma {:induction false} BoatContribsRanked(date: int, boats: seq<ResultBoat>)
    ensures forall k :: 0 <= k < |BoatContribs(date, boats)| ==>
              BoatContribs(date, boats)[k].1.rank > 0 && BoatContribs(date, boats)[k].1.date == date
  {
    if boats != [] {
      BoatContribsRanked(date, boats[..|boats| - 1]);
    }
  }

  /** Every contributed entry over all races has a positive rank. */
  lemma {:induction false} ContribsRanked(races: seq<Race>)
    ensures forall k :: 0 <= k < |Contribs(races)| ==> Contribs(races)[k].1.rank > 0
  {
    if races != [] {
      var n := |races| - 1;
      ContribsRanked(races[..n]);
      BoatContribsRanked(races[n].date, races[n].boats);
    }
  }

  /** The `races_by_racer` dict after the pairs have been appended. */
  function GroupOf(items: seq<(int, Entry)>): map<int, seq<Entry>> {
    if items == [] then map[]
    else
      var n := |items| - 1;
      var g := GroupOf(items[..n]);
      var (racer, e) := items[n];
      g[racer := (if racer in g then g[racer] else []) + [e]]
  }

  /** The dict's key order: racers in the order they first appear. */
  function OrderOf(items: seq<(int, Entry)>): seq<int> {
    if items == [] then []
    else
      var n := |items| - 1;
      var o := OrderOf(items[..n]);
      if items[n].0 in o then o else o + [items[n].0]
  }

  /** The entries of one racer, in order: the reference meaning of a racer's list. */
  function EntriesOf(items: seq<(int, Entry)>, racer: int): seq<Entry> {
    if items == [] then []
    else
      var n := |items| - 1;
      EntriesOf(items[..n], racer) + (if items[n].0 == racer then [items[n].1] else [])
  }

  /**
   * The dict holds exactly the racers that contributed, each with its own entries in order; the
   * key order lists every such racer once.
   */
  lemma GroupFacts(items: seq<(int, Entry)>)
    ensures GroupOf(items).Keys == set k | 0 <= k < |items| :: items[k].0
    ensures forall r :: r in GroupOf(items) ==> GroupOf(items)[r] == EntriesOf(items, r)
    ensures forall r :: r in OrderOf(items) <==> r in GroupOf(items)
    ensures forall i, j :: 0 <= i < j < |OrderOf(items)| ==> OrderOf(items)[i] != OrderOf(items)[j]
  {
    GroupKeys(items);
    GroupEntries(items);
    OrderKeys(items);
    OrderDistinct(items);
  }

  /** The dict's keys are the racers that contributed. */
  lemma {:induction false} GroupKeys(items: seq<(int, Entry)>)
    ensures GroupOf(items).Keys == set k | 0 <= k < |items| :: items[k].0
  {
    if items != [] {
      var n := |items| - 1;
      var front := items[..n];
      GroupKeys(front);
      assert forall k :: 0 <= k < n ==> items[k] == front[k];
      assert (set k | 0 <= k < |items| :: items[k].0) == (set k | 0 <= k < n :: front[k].0) + {items[n].0};
    }
  }

  /** Each racer's list holds its own entries in order. */
  lemma {:induction false} GroupEntries(items: seq<(int, Entry)>)
    ensures forall r :: r in GroupOf(items) ==> GroupOf(items)[r] == EntriesOf(items, r)
  {
    if items != [] {
      var n := |items| - 1;
      var front := items[..n];
      GroupEntries(front);
      GroupKeys(front);
      forall r | r in GroupOf(items) ensures GroupOf(items)[r] == EntriesOf(items, r) {
        if r != items[n].0 {
          assert GroupOf(items)[r] == GroupOf(front)[r];
        } else if r !in GroupOf(front) {
          assert EntriesOf(front, r) == [] by { EntriesAbsent(front, r); }
        }
      }
    }
  }

  /** The key order lists exactly the dict's keys. */
  lemma {:induction false} OrderKeys(items: seq<(int, Entry)>)
    ensures forall r :: r in OrderOf(items) <==> r in GroupOf(items)
  {
    if items != [] {
      OrderKeys(items[..|items| - 1]);
    }
  }

  /** The key order lists no racer twice. */
  lemma {:induction false} OrderDistinct(items: seq<(int, Entry)>)
    ensures forall i, j :: 0 <= i < j < |OrderOf(items)| ==> OrderOf(items)[i] != OrderOf(items)[j]
  {
    if items != [] {
      OrderDistinct(items[..|items| - 1]);
    }
  }

  /** A racer without a contribution has no entries. */
  lemma {:induction false} EntriesAbsent(items: seq<(int, Entry)>, racer: int)
    requires forall k :: 0 <= k < |items| ==> items[k].0 != racer
    ensures EntriesOf(items, racer) == []
  {
    if items != [] {
      EntriesAbsent(items[..|items| - 1], racer);
    }
  }

  /** A racer's entries are all counted races: every rank is positive. */
  lemma {:induction false} EntriesRanked(items: seq<(int, Entry)>, racer: int)
    requires forall k :: 0 <= k < |items| ==> items[k].1.rank > 0
    ensures forall k :: 0 <= k < |EntriesOf(items, racer)| ==> EntriesOf(items, racer)[k].rank > 0
  {
    if items != [] {
      var n := |items| - 1;
      EntriesRanked(items[..n], racer);
    }
  }

  /** Appending one pair to the dict and its key order. */
  lemma GroupSnoc(items: seq<(int, Entry)>, x: (int, Entry))
    ensures var g := GroupOf(items);
            GroupOf(items + [x]) == g[x.0 := (if x.0 in g then g[x.0] else []) + [x.1]]
    ensures OrderOf(items + [x]) == if x.0 in OrderOf(items) then OrderOf(items) else OrderOf(items) + [x.0]
  {
    assert (items + [x])[..|items|] == items;
  }

  lemma BoatContribsSnoc(date: int, boats: seq<ResultBoat>, b: ResultBoat)
    ensures BoatContribs(date, boats + [b]) == BoatContribs(date, boats) + BoatContrib(date, b)
  {
    assert (boats + [b])[..|boats|] == boats;
  }

  lemma ContribsSnoc(races: seq<Race>, race: Race)
    ensures Contribs(races + [race]) == Contribs(races) + BoatContribs(race.date, race.boats)
  {
    assert (races + [race])[..|races|] == races;
  }

  /** One more boat of the race extends the pairs seen so far by that boat's pair. */
  lemma BoatsStep(seen: seq<(int, Entry)>, date: int, boats: seq<ResultBoat>, b: nat)
    requires b < |boats|
    ensures seen + BoatContribs(date, boats[..b + 1]) == (seen + BoatContribs(date, boats[..b])) + BoatContrib(date, boats[b])
  {
    assert boats[..b + 1] == boats[..b] + [boats[b]];
    BoatContribsSnoc(date, boats[..b], boats[b]);
  }

  /** One more race of the date extends the pairs by that race's pairs. */
  lemma RacesStep(before: seq<Race>, results: seq<Race>, r: nat)
    requires r < |results|
    ensures Contribs(before + results[..r + 1]) == Contribs(before + results[..r]) + BoatContribs(results[r].date, results[r].boats)
  {
    assert before + results[..r + 1] == (before + results[..r]) + [results[r]];
    ContribsSnoc(before + results[..r], results[r]);
  }

  /** Lines 27-33: one boat appended to the dict, if its place is positive. */
  method AddBoat(order: seq<int>, racesByRacer: map<int, seq<Entry>>, raceDate: int, boat: ResultBoat, ghost seen: seq<(int, Entry)>)
    returns (order': seq<int>, racesByRacer': map<int, seq<Entry>>)
    requires order == OrderOf(seen) && racesByRacer == GroupOf(seen)
    ensures order' == OrderOf(seen + BoatContrib(raceDate, boat))
    ensures racesByRacer' == GroupOf(seen + BoatContrib(raceDate, boat))
  {
    order', racesByRacer' := order, racesByRacer;
    var place := PlaceOf(boat);
    if place > 0 {
      var e := Entry(raceDate, place, StartOf(boat));
      assert BoatContrib(raceDate, boat) == [(boat.racer, e)];
      GroupSnoc(seen, (boat.racer, e));
      if boat.racer !in order' {
        order' := order' + [boat.racer];
      }
      var list := if boat.racer in racesByRacer' then racesByRacer'[boat.racer] else [];
      racesByRacer' := racesByRacer'[boat.racer := list + [e]];
    } else {
      assert seen + BoatContrib(raceDate, boat) == seen;
    }
  }

  /** Lines 26-33: one race's boats appended to the dict (the pair of key order and lists). */
  method AddRace(order: seq<int>, racesByRacer: map<int, seq<Entry>>, race: Race, ghost seen: seq<(int, Entry)>)
    returns (order': seq<int>, racesByRacer': map<int, seq<Entry>>)
    requires order == OrderOf(seen) && racesByRacer == GroupOf(seen)
    ensures order' == OrderOf(seen + BoatContribs(race.date, race.boats))
    ensures racesByRacer' == GroupOf(seen + BoatContribs(race.date, race.boats))
  {
    order', racesByRacer' := order, racesByRacer;
    assert seen + BoatContribs(race.date, race.boats[..0]) == seen by {
      assert race.boats[..0] == [];
    }
    var raceDate := race.date;
    var boats := race.boats;
    for b := 0 to |boats|
      invariant order' == OrderOf(seen + BoatContribs(raceDate, boats[..b]))
      invariant racesByRacer' == GroupOf(seen + BoatContribs(raceDate, boats[..b]))
    {
      BoatsStep(seen, raceDate, boats, b);
      order', racesByRacer' := AddBoat(order', racesByRacer', raceDate, boats[b], seen + BoatContribs(raceDate, boats[..b]));
    }
    assert boats[..|boats|] == boats;
  }

  /** Lines 24-33: one date's races appended to the dict, race by race. */
  method AddDate(order: seq<int>, racesByRacer: map<int, seq<Entry>>, results: seq<Race>, ghost before: seq<Race>)
    returns (order': seq<int>, racesByRacer': map<int, seq<Entry>>)
    requires order == OrderOf(Contribs(before)) && racesByRacer == GroupOf(Contribs(before))
    ensures order' == OrderOf(Contribs(before + results))
    ensures racesByRacer' == GroupOf(Contribs(before + results))
  {
    order', racesByRacer' := order, racesByRacer;
    assert before + results[..0] == before;
    for r := 0 to |results|
      invariant order' == OrderOf(Contribs(before + results[..r]))
      invariant racesByRacer' == GroupOf(Contribs(before + results[..r]))
    {
      RacesStep(before, results, r);
      order', racesByRacer' := AddRace(order', racesByRacer', results[r], Contribs(before + results[..r]));
    }
    assert results[..|results|] == results;
  }

  /**
   * Lines 21-33: the nested loops over dates, races and boats. `history` lists each date's
   * results. The dict is the pair (key order, lists).
   */
  method Bucket(history: seq<seq<Race>>) returns (order: seq<int>, racesByRacer: map<int, seq<Entry>>)
    ensures order == OrderOf(Contribs(Flatten(history)))
    ensures racesByRacer == GroupOf(Contribs(Flatten(history)))
  {
    order, racesByRacer := [], map[];
    for d := 0 to |history|
      invariant order == OrderOf(Contribs(Flatten(history[..d])))
      invariant racesByRacer == GroupOf(Contribs(Flatten(history[..d])))
    {
      FlattenSnoc(history, d);
      order, racesByRacer := AddDate(order, racesByRacer, history[d], Flatten(history[..d]));
    }
    assert history[..|history|] == history;
  }

  // ---------------------------------------------------------------------------------------------
  // Rows (lines 35-57)

  function EntryDate(e: Entry): real { e.date as real }

  /** Line 37: the racer's entries newest first (stably), cut to `recent_n` with Python slicing. */
  function Window(results: seq<Entry>, recentN: int): (r: seq<Entry>)
    ensures |r| == if recentN >= 0 then Min(recentN, |results|) else Max(0, |results| + recentN)
  {
    Head(SortBy(results, EntryDate, true), recentN)
  }

  /** The window holds the latest races: sorted newest first, taken from the list, none left out is newer. */
  lemma WindowLatest(results: seq<Entry>, recentN: int)
    ensures Sorted(Window(results, recentN), EntryDate, true)
    ensures multiset(Window(results, recentN)) <= multiset(results)
    ensures forall e, x :: e in Window(results, recentN) && x in multiset(results) - multiset(Window(results, recentN)) ==>
              x.date <= e.date
  {
    var w := Window(results, recentN);
    SortedHead(results, EntryDate, true, recentN);
    forall e, x | e in w && x in multiset(results) - multiset(w) ensures x.date <= e.date {
      assert Precedes(EntryDate, true, e, x);
    }
  }

  /** Lines 42-44: how many entries have the given rank. */
  function CountRank(results: seq<Entry>, rank: int): (c: nat)
    ensures c <= |results|
    ensures c > 0 <==> exists k :: 0 <= k < |results| && results[k].rank == rank
  {
    if results == [] then 0
    else
      var n := |results| - 1;
      CountRank(results[..n], rank) + (if results[n].rank == rank then 1 else 0)
  }

  /** The three podium counts together count no entry twice. */
  lemma {:induction false} PodiumBound(results: seq<Entry>)
    ensures CountRank(results, 1) + CountRank(results, 2) + CountRank(results, 3) <= |results|
  {
    if results != [] {
      PodiumBound(results[..|results| - 1]);
    }
  }

  /** Line 45: the sum of the ranks; at least the length when every rank is positive. */
  function SumRank(results: seq<Entry>): (s: int)
    ensures (forall k :: 0 <= k < |results| ==> results[k].rank > 0) ==> s >= |results|
  {
    if results == [] then 0
    else
      var n := |results| - 1;
      assert forall k :: 0 <= k < n ==> results[..n][k] == results[k];
      SumRank(results[..n]) + results[n].rank
  }

  /** Line 46: the sum of the start timings. */
  function SumStart(results: seq<Entry>): real {
    if results == [] then 0.0 else SumStart(results[..|results| - 1]) + results[|results| - 1].start
  }

  /** An average of numbers that are each at least 1 is at least 1. */
  lemma AtLeastOne(sum: int, t: nat)
    requires t > 0 && sum >= t
    ensures (sum as real) / (t as real) >= 1.0
  {
    var tr, sr := t as real, sum as real;
    assert 0.0 < tr <= sr;
    DivMono(tr, sr, tr);
    SelfDiv(tr);
  }

  /** Lines 41-57: the row of one racer's non-empty window. */
  function RowOf(racer: int, results: seq<Entry>): (row: FeatureRow)
    requires results != []
    ensures row.racer == racer && row.totalRaces == |results|
  {
    var total := |results|;
    var firsts, seconds, thirds := CountRank(results, 1), CountRank(results, 2), CountRank(results, 3);
    FeatureRow(racer, total,
               (firsts as real) / (total as real),
               ((firsts + seconds) as real) / (total as real),
               ((firsts + seconds + thirds) as real) / (total as real),
               (SumRank(results) as real) / (total as real),
               SumStart(results) / (total as real),
               if firsts > 0 then 1 else 0)
  }

  /**
   * The rates of a row form the chain 0 <= win <= top-2 <= top-3 <= 1, the target is 1 exactly
   * when the window has a first place, and the average rank is at least 1 when every rank is
   * positive.
   */
  lemma RowFacts(racer: int, results: seq<Entry>)
    requires results != []
    ensures var row := RowOf(racer, results);
            && 0.0 <= row.winRate <= row.place2Rate <= row.place3Rate <= 1.0
            && row.target == (if exists k :: 0 <= k < |results| && results[k].rank == 1 then 1 else 0)
            && ((forall k :: 0 <= k < |results| ==> results[k].rank > 0) ==> row.avgRank >= 1.0)
  {
    var total := |results|;
    var firsts, seconds, thirds := CountRank(results, 1), CountRank(results, 2), CountRank(results, 3);
    PodiumBound(results);
    Ratio(firsts, firsts + seconds, total);
    Ratio(firsts + seconds, firsts + seconds + thirds, total);
    if forall k :: 0 <= k < |results| ==> results[k].rank > 0 {
      AtLeastOne(SumRank(results), total);
    }
  }

  /** A racer's list; the key order only lists racers that have one. */
  function ListOf(racesByRacer: map<int, seq<Entry>>, racer: int): seq<Entry> {
    if racer in racesByRacer then racesByRacer[racer] else []
  }

  /**
   * Lines 36-57 for any way of cutting a racer's list to its window: one row per racer in key
   * order, skipping a racer whose window is empty.
   */
  function RowsWith(order: seq<int>, racesByRacer: map<int, seq<Entry>>, win: seq<Entry> -> seq<Entry>): seq<FeatureRow> {
    if order == [] then []
    else
      var n := |order| - 1;
      var racer := order[n];
      var w := win(ListOf(racesByRacer, racer));
      RowsWith(order[..n], racesByRacer, win) + (if w == [] then [] else [RowOf(racer, w)])
  }

  /** Line 37 as a function of the list alone. */
  function WindowOf(recentN: int): seq<Entry> -> seq<Entry> {
    l => Window(l, recentN)
  }

  /** Lines 36-57: the rows of `build_features`, with the window of line 37. */
  function RowsOf(order: seq<int>, racesByRacer: map<int, seq<Entry>>, recentN: int): seq<FeatureRow> {
    RowsWith(order, racesByRacer, WindowOf(recentN))
  }

  /** No racer of the key order has an empty window: one row per racer. */
  lemma {:induction false} RowsWithCount(order: seq<int>, racesByRacer: map<int, seq<Entry>>, win: seq<Entry> -> seq<Entry>)
    requires forall r :: r in order ==> win(ListOf(racesByRacer, r)) != []
    ensures |RowsWith(order, racesByRacer, win)| == |order|
  {
    if order != [] {
      var n := |order| - 1;
      assert forall r :: r in order[..n] ==> r in order;
      RowsWithCount(order[..n], racesByRacer, win);
      assert order[n] in order;
    }
  }

  /** The last racer's row closes the list when its window is not empty. */
  lemma RowsWithSnoc(order: seq<int>, racesByRacer: map<int, seq<Entry>>, win: seq<Entry> -> seq<Entry>)
    requires order != []
    requires win(ListOf(racesByRacer, order[|order| - 1])) != []
    ensures RowsWith(order, racesByRacer, win) ==
            RowsWith(order[..|order| - 1], racesByRacer, win) + [RowOf(order[|order| - 1], win(ListOf(racesByRacer, order[|order| - 1])))]
  {
  }

  /** Row i is racer order[i]'s when no window is empty. */
  lemma {:induction false} RowsWithAt(order: seq<int>, racesByRacer: map<int, seq<Entry>>, win: seq<Entry> -> seq<Entry>, i: nat)
    requires forall r :: r in order ==> win(ListOf(racesByRacer, r)) != []
    requires i < |order|
    ensures i < |RowsWith(order, racesByRacer, win)|
    ensures RowsWith(order, racesByRacer, win)[i] == RowOf(order[i], win(ListOf(racesByRacer, order[i])))
    decreases |order|, 1
  {
    var n := |order| - 1;
    assert |RowsWith(order[..n], racesByRacer, win)| == n by {
      assert forall r :: r in order[..n] ==> r in order;
      RowsWithCount(order[..n], racesByRacer, win);
    }
    assert win(ListOf(racesByRacer, order[n])) != [] by {
      assert order[n] in order;
    }
    RowsWithSnoc(order, racesByRacer, win);
    if i < n {
      RowsWithAtFront(order, racesByRacer, win, i);
    }
  }

  /** Row i of all racers but the last, for i before the last. */
  lemma {:induction false} RowsWithAtFront(order: seq<int>, racesByRacer: map<int, seq<Entry>>, win: seq<Entry> -> seq<Entry>, i: nat)
    requires forall r :: r in order ==> win(ListOf(racesByRacer, r)) != []
    requires i < |order| - 1
    ensures i < |RowsWith(order[..|order| - 1], racesByRacer, win)|
    ensures RowsWith(order[..|order| - 1], racesByRacer, win)[i] == RowOf(order[i], win(ListOf(racesByRacer, order[i])))
    decreases |order|, 0
  {
    var front := order[..|order| - 1];
    assert forall r :: r in front ==> r in order;
    RowsWithAt(front, racesByRacer, win, i);
    assert order[i] == front[i];
  }

  /** Each row belongs to a listed racer and has at least one and at most `bound` races. */
  lemma {:induction false} RowsWithBounded(order: seq<int>, racesByRacer: map<int, seq<Entry>>, win: seq<Entry> -> seq<Entry>, recentN: int)
    requires forall l :: recentN >= 0 ==> |win(l)| <= recentN
    ensures forall row :: row in RowsWith(order, racesByRacer, win) ==>
              row.racer in order && row.totalRaces >= 1 && (recentN >= 0 ==> row.totalRaces <= recentN)
  {
    if order != [] {
      var n := |order| - 1;
      assert forall r :: r in order[..n] ==> r in order;
      RowsWithBounded(order[..n], racesByRacer, win, recentN);
      assert order[n] in order;
    }
  }

  /** With every racer listed and recent_n positive, no window is empty. */
  lemma WindowsNonEmpty(order: seq<int>, racesByRacer: map<int, seq<Entry>>, recentN: int)
    requires forall r :: r in order ==> r in racesByRacer && racesByRacer[r] != []
    requires recentN >= 1
    ensures forall r :: r in order ==> 1 <= |WindowOf(recentN)(ListOf(racesByRacer, r))| <= recentN
  {
    forall r | r in order ensures 1 <= |WindowOf(recentN)(ListOf(racesByRacer, r))| <= recentN {
      assert |Window(ListOf(racesByRacer, r), recentN)| >= 1;
    }
  }

  /**
   * When recent_n is positive no racer is skipped: there are as many rows as racers in the key
   * order.
   */
  lemma RowsPerRacer(order: seq<int>, racesByRacer: map<int, seq<Entry>>, recentN: int)
    requires forall r :: r in order ==> r in racesByRacer && racesByRacer[r] != []
    requires recentN >= 1
    ensures |RowsOf(order, racesByRacer, recentN)| == |order|
  {
    WindowsNonEmpty(order, racesByRacer, recentN);
    RowsWithCount(order, racesByRacer, WindowOf(recentN));
  }

  /** When recent_n is positive, row i is racer order[i]'s, of its window. */
  lemma RowAt(order: seq<int>, racesByRacer: map<int, seq<Entry>>, recentN: int, i: nat)
    requires forall r :: r in order ==> r in racesByRacer && racesByRacer[r] != []
    requires recentN >= 1 && i < |order|
    ensures i < |RowsOf(order, racesByRacer, recentN)|
    ensures RowsOf(order, racesByRacer, recentN)[i] == RowOf(order[i], Window(ListOf(racesByRacer, order[i]), recentN))
  {
    WindowsNonEmpty(order, racesByRacer, recentN);
    RowsWithAt(order, racesByRacer, WindowOf(recentN), i);
  }

  /** Every row belongs to a listed racer, and each row holds at most recent_n races (for recent_n >= 0). */
  lemma RowsBounded(order: seq<int>, racesByRacer: map<int, seq<Entry>>, recentN: int)
    ensures forall row :: row in RowsOf(order, racesByRacer, recentN) ==>
              row.racer in order && row.totalRaces >= 1 && (recentN >= 0 ==> row.totalRaces <= recentN)
  {
    forall l ensures recentN >= 0 ==> |WindowOf(recentN)(l)| <= recentN {
      assert |Window(l, recentN)| == if recentN >= 0 then Min(recentN, |l|) else Max(0, |l| + recentN);
    }
    RowsWithBounded(order, racesByRacer, WindowOf(recentN), recentN);
  }

  /** Appending a racer to the key order appends its row, if its window is not empty. */
  lemma RowsSnoc(order: seq<int>, racer: int, racesByRacer: map<int, seq<Entry>>, win: seq<Entry> -> seq<Entry>)
    ensures var w := win(ListOf(racesByRacer, racer));
            RowsWith(order + [racer], racesByRacer, win)
            == RowsWith(order, racesByRacer, win) + (if w == [] then [] else [RowOf(racer, w)])
  {
    assert (order + [racer])[..|order|] == order;
  }

  /**
   * Every racer of the key order has a non-empty list in the dict, and every race in it has a
   * positive rank.
   */
  lemma OrderListed(items: seq<(int, Entry)>)
    requires forall k :: 0 <= k < |items| ==> items[k].1.rank > 0
    ensures forall r :: r in OrderOf(items) ==> r in GroupOf(items) && GroupOf(items)[r] != []
    ensures forall r: int, k: int :: r in GroupOf(items) && 0 <= k < |GroupOf(items)[r]| ==> GroupOf(items)[r][k].rank > 0
  {
    GroupFacts(items);
    var order: seq<int>, groups: map<int, seq<Entry>> := OrderOf(items), GroupOf(items);
    forall r | r in order ensures r in groups && groups[r] != [] {
      var k :| 0 <= k < |items| && items[k].0 == r;
      EntriesNonEmpty(items, r, k);
    }
    forall r: int, k: int | r in groups && 0 <= k < |groups[r]| ensures groups[r][k].rank > 0 {
      EntriesRanked(items, r);
    }
  }

  /** Lines 36-57: the row loop over the dict, in key order. */
  method Rows(order: seq<int>, racesByRacer: map<int, seq<Entry>>, recentN: int) returns (featureRows: seq<FeatureRow>)
    requires forall r :: r in order ==> r in racesByRacer
    ensures featureRows == RowsOf(order, racesByRacer, recentN)
  {
    featureRows := [];
    for i := 0 to |order|
      invariant featureRows == RowsOf(order[..i], racesByRacer, recentN)
    {
      var racer := order[i];
      assert order[..i + 1] == order[..i] + [racer];
      RowsSnoc(order[..i], racer, racesByRacer, WindowOf(recentN));
      assert racer in order;
      var results := Window(racesByRacer[racer], recentN);
      if results == [] {
        continue;
      }
      featureRows := featureRows + [RowOf(racer, results)];
    }
    assert order[..|order|] == order;
  }

  /** `build_features`: the bucketing loops (lines 21-33), then the row loop. */
  method BuildFeatures(history: seq<seq<Race>>, recentN: int) returns (featureRows: seq<FeatureRow>)
    ensures featureRows == RowsOf(OrderOf(Contribs(Flatten(history))), GroupOf(Contribs(Flatten(history))), recentN)
  {
    var order, racesByRacer := Bucket(history);
    ContribsRanked(Flatten(history));
    OrderListed(Contribs(Flatten(history)));
    featureRows := Rows(order, racesByRacer, recentN);
  }

  /** The row of a racer whose list has only positive ranks has an average rank of at least 1. */
  lemma RowRanked(racer: int, list: seq<Entry>, recentN: int)
    requires forall k :: 0 <= k < |list| ==> list[k].rank > 0
    requires Window(list, recentN) != []
    ensures RowOf(racer, Window(list, recentN)).avgRank >= 1.0
  {
    var w := Window(list, recentN);
    WindowLatest(list, recentN);
    forall k | 0 <= k < |w| ensures w[k].rank > 0 {
      assert w[k] in multiset(list);
    }
    RowFacts(racer, w);
  }

  /**
   * Lines 28-57 end to end: with recent_n positive there is one row per racer that has a counted
   * race, in the order of first appearance, each with 1 to recent_n races and an average rank of
   * at least 1.
   */
  lemma OneRowPerRacer(history: seq<seq<Race>>, recentN: int)
    requires recentN >= 1
    ensures var items := Contribs(Flatten(history));
            var rows := RowsOf(OrderOf(items), GroupOf(items), recentN);
            && |rows| == |OrderOf(items)|
            && (forall i :: 0 <= i < |rows| ==> rows[i].racer == OrderOf(items)[i] && 1 <= rows[i].totalRaces <= recentN)
            && (forall i :: 0 <= i < |rows| ==> rows[i].avgRank >= 1.0)
  {
    var items := Contribs(Flatten(history));
    ContribsRanked(Flatten(history));
    OrderListed(items);
    var order, groups := OrderOf(items), GroupOf(items);
    RowsPerRacer(order, groups, recentN);
    var rows := RowsOf(order, groups, recentN);
    forall i | 0 <= i < |rows|
      ensures rows[i].racer == order[i] && 1 <= rows[i].totalRaces <= recentN
      ensures rows[i].avgRank >= 1.0
    {
      RowAt(order, groups, recentN, i);
      assert order[i] in order;
      var list := groups[order[i]];
      assert ListOf(groups, order[i]) == list;
      RowRanked(order[i], list, recentN);
    }
  }

  /** A racer with a contribution has entries. */
  lemma {:induction false} EntriesNonEmpty(items: seq<(int, Entry)>, racer: int, k: nat)
    requires k < |items| && items[k].0 == racer
    ensures EntriesOf(items, racer) != []
  {
    var n := |items| - 1;
    if k < n {
      EntriesNonEmpty(items[..n], racer, k);
    }
  }
}
