/**
 * fetch_history.py: the history is a list of day entries. Each of the last 30 days that has no
 * entry yet is fetched and appended when something was fetched; then the list is sorted newest
 * first and cut to 30 entries. Dates are integer day numbers. The scraper is the parameter
 * `fetch`, which gives the pages fetched for a date (an empty list when nothing was fetched).
 */
module FetchHistory {
  import opened Common
  import opened Sorting

  /** `MAX_DAYS`: how many days are fetched and kept. */
  const MaxDays := 30

  /** One saved day: its date and the pages fetched for it. */
  datatype DayEntry<D> = DayEntry(date: int, data: seq<D>)

  function DateKey<D>(e: DayEntry<D>): real { e.date as real }

  function Dates<D>(history: seq<DayEntry<D>>): set<int> {
    set i | 0 <= i < |history| :: history[i].date
  }

  predicate DistinctDates<D>(history: seq<DayEntry<D>>) {
    forall i, j :: 0 <= i < j < |history| ==> history[i].date != history[j].date
  }

  /** Line 34: today, yesterday, and so on back to 29 days ago. */
  function AllDates(today: int): (r: seq<int>)
    ensures |r| == MaxDays
    ensures forall i :: 0 <= i < MaxDays ==> r[i] == today - i
  {
    seq(MaxDays, i => today - i)
  }

  /**
   * The entries lines 49-54 append for the candidate dates, in order: a date not already present
   * whose fetch gave something.
   */
  function Appended<D>(existing: set<int>, dates: seq<int>, fetch: int -> seq<D>): seq<DayEntry<D>> {
    if dates == [] then []
    else
      var d := dates[|dates| - 1];
      var r := Appended(existing, dates[..|dates| - 1], fetch);
      if d !in existing && fetch(d) != [] then r + [DayEntry(d, fetch(d))] else r
  }

  /**
   * An appended entry has a candidate date not already present and its non-empty fetch; every
   * such candidate date is appended; distinct candidates give distinct appended dates.
   */
  lemma {:induction false} AppendedFacts<D>(existing: set<int>, dates: seq<int>, fetch: int -> seq<D>)
    ensures var r := Appended(existing, dates, fetch);
            forall e :: e in r ==> e.date in dates && e.date !in existing && e.data == fetch(e.date) && e.data != []
    ensures var r := Appended(existing, dates, fetch);
            forall d :: d in dates && d !in existing && fetch(d) != [] ==> exists e :: e in r && e.date == d
    ensures (forall i, j :: 0 <= i < j < |dates| ==> dates[i] != dates[j]) ==> DistinctDates(Appended(existing, dates, fetch))
  {
    if dates != [] {
      var n := |dates| - 1;
      var d := dates[n];
      var front := dates[..n];
      AppendedFacts(existing, front, fetch);
      assert forall x :: x in dates <==> x in front || x == d;
      var r := Appended(existing, front, fetch);
      var add := d !in existing && fetch(d) != [];
      var r' := if add then r + [DayEntry(d, fetch(d))] else r;
      assert Appended(existing, dates, fetch) == r';
      forall x | x in dates && x !in existing && fetch(x) != [] ensures exists e :: e in r' && e.date == x {
        if x in front {
          var e :| e in r && e.date == x;
          assert e in r';
        } else {
          assert DayEntry(d, fetch(d)) in r';
        }
      }
      if forall i, j :: 0 <= i < j < |dates| ==> dates[i] != dates[j] {
        assert forall i, j :: 0 <= i < j < |front| ==> front[i] != front[j] by {
          forall i, j | 0 <= i < j < |front| ensures front[i] != front[j] {
            assert front[i] == dates[i] && front[j] == dates[j];
          }
        }
        if add {
          assert d !in front;
          forall i | 0 <= i < |r| ensures r[i].date != d {
            assert r[i] in r;
          }
        }
      }
    }
  }

  /** One more candidate date appends its entry, if it is new and something was fetched. */
  lemma AppendedSnoc<D>(existing: set<int>, dates: seq<int>, i: nat, fetch: int -> seq<D>)
    requires i < |dates|
    ensures Appended(existing, dates[..i + 1], fetch)
         == Appended(existing, dates[..i], fetch)
            + (if dates[i] !in existing && fetch(dates[i]) != [] then [DayEntry(dates[i], fetch(dates[i]))] else [])
  {
    assert dates[..i + 1][..i] == dates[..i];
  }

  /** Line 57: sort newest first (stably) and keep the first 30 entries. */
  function KeepNewest<D>(h: seq<DayEntry<D>>): (r: seq<DayEntry<D>>)
    ensures |r| == Min(|h|, MaxDays)
  {
    Head(SortBy(h, DateKey, true), MaxDays)
  }

  /** The kept entries are sorted newest first, come from h, and nothing dropped is newer. */
  lemma KeepNewestFacts<D>(h: seq<DayEntry<D>>)
    ensures Sorted(KeepNewest(h), DateKey, true)
    ensures multiset(KeepNewest(h)) <= multiset(h)
    ensures forall e, x :: e in KeepNewest(h) && x in multiset(h) - multiset(KeepNewest(h)) ==> x.date <= e.date
  {
    SortedHead(h, DateKey, true, MaxDays);
  }

  /** Sorting and cutting cannot create a repeated date. */
  lemma KeepNewestDistinct<D>(h: seq<DayEntry<D>>)
    requires DistinctDates(h)
    ensures DistinctDates(KeepNewest(h))
  {
    var sorted := SortBy(h, DateKey, true);
    DistinctByPermutation(sorted, h, (e: DayEntry<D>) => e.date);
    assert DistinctDates(sorted);
    var r := KeepNewest(h);
    assert forall i :: 0 <= i < |r| ==> r[i] == sorted[i];
  }

  /** Appending entries of new dates, themselves without repeats, keeps the dates distinct. */
  lemma AppendDistinct<D>(history: seq<DayEntry<D>>, app: seq<DayEntry<D>>)
    requires DistinctDates(history) && DistinctDates(app)
    requires forall e :: e in app ==> e.date !in Dates(history)
    ensures DistinctDates(history + app)
  {
    var h := history + app;
    forall i, j | 0 <= i < j < |h| ensures h[i].date != h[j].date {
      if j >= |history| && i < |history| {
        assert h[j] == app[j - |history|];
        assert h[j] in app;
        assert h[i].date in Dates(history);
      } else if i >= |history| {
        assert h[i] == app[i - |history|] && h[j] == app[j - |history|];
      }
    }
  }

  /**
   * `main` after loading: the fetch loop (lines 46-54), then the sort-and-cut of line 57.
   */
  method UpdateHistory<D>(history: seq<DayEntry<D>>, today: int, fetch: int -> seq<D>)
    returns (result: seq<DayEntry<D>>)
    ensures result == KeepNewest(history + Appended(Dates(history), AllDates(today), fetch))
    ensures |result| <= MaxDays && Sorted(result, DateKey, true)
    ensures DistinctDates(history) ==> DistinctDates(result)
  {
    var allDates := AllDates(today);
    var existing := Dates(history);
    var h := history;
    for i := 0 to |allDates|
      invariant h == history + Appended(existing, allDates[..i], fetch)
    {
      var date := allDates[i];
      HistoryStep(history, existing, allDates, i, fetch, h);
      if date !in existing {
        var data := fetch(date);
        if data != [] {
          h := h + [DayEntry(date, data)];
        }
      }
    }
    assert forall i, j :: 0 <= i < j < |allDates| ==> allDates[i] != allDates[j];
    UpdateDone(history, existing, allDates, fetch, h);
    result := KeepNewest(h);
  }

  /** One pass of the fetch loop appends the day when it is new and non-empty. */
  lemma HistoryStep<D>(history: seq<DayEntry<D>>, existing: set<int>, dates: seq<int>, i: nat, fetch: int -> seq<D>,
                       h: seq<DayEntry<D>>)
    requires i < |dates| && h == history + Appended(existing, dates[..i], fetch)
    ensures history + Appended(existing, dates[..i + 1], fetch)
         == h + (if dates[i] !in existing && fetch(dates[i]) != [] then [DayEntry(dates[i], fetch(dates[i]))] else [])
  {
    AppendedSnoc(existing, dates, i, fetch);
    var a := Appended(existing, dates[..i], fetch);
    var e := if dates[i] !in existing && fetch(dates[i]) != [] then [DayEntry(dates[i], fetch(dates[i]))] else [];
    assert history + (a + e) == (history + a) + e;
  }

  /** After the loop: the whole appended fold, then the sort and the cut. */
  lemma UpdateDone<D>(history: seq<DayEntry<D>>, existing: set<int>, dates: seq<int>, fetch: int -> seq<D>,
                      h: seq<DayEntry<D>>)
    requires existing == Dates(history) && h == history + Appended(existing, dates[..|dates|], fetch)
    requires forall i, j :: 0 <= i < j < |dates| ==> dates[i] != dates[j]
    ensures h == history + Appended(existing, dates, fetch)
    ensures |KeepNewest(h)| <= MaxDays && Sorted(KeepNewest(h), DateKey, true)
    ensures DistinctDates(history) ==> DistinctDates(KeepNewest(h))
  {
    assert dates[..|dates|] == dates;
    if DistinctDates(history) {
      AppendedFacts(existing, dates, fetch);
      AppendDistinct(history, Appended(existing, dates, fetch));
      KeepNewestDistinct(h);
    }
    KeepNewestFacts(h);
  }
}
