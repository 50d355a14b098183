/**
 * fetch_data.py: today's scraped data is stored under today's key and the history keeps only
 * the 60 newest date keys. Date keys ("YYYYMMDD") are integers, which order the same way; the
 * per-day data is an arbitrary value V. Scraping and the JSON files are not modelled.
 */
module FetchData {
  import opened Common

  /** How many date keys the history keeps. */
  const Retention := 60

  /** The set of elements of a sequence without repeats has as many elements as the sequence. */
  lemma {:induction false} DistinctCard(s: seq<int>)
    requires forall i, j :: 0 <= i < j < |s| ==> s[i] != s[j]
    ensures |(set x | x in s)| == |s|
  {
    if s != [] {
      var rest := s[1..];
      DistinctCard(rest);
      assert (set x | x in s) == (set x | x in rest) + {s[0]};
      assert s[0] !in rest;
    }
  }

  /** The keys kept by `sorted(keys, reverse=True)[:n]`. */
  function Newest(keys: set<int>, n: nat): set<int>
  {
    set x | x in Head(Descending(keys), n)
  }

  /** The n newest keys are keys, there are min(|keys|, n) of them, and they beat every other key. */
  lemma NewestFacts(keys: set<int>, n: nat)
    ensures Newest(keys, n) <= keys
    ensures |Newest(keys, n)| == Min(|keys|, n)
    ensures forall k, d :: k in Newest(keys, n) && d in keys && d !in Newest(keys, n) ==> d < k
    ensures |keys| <= n ==> Newest(keys, n) == keys
  {
    var sorted := Descending(keys);
    var kept := Head(sorted, n);
    DistinctCard(kept);
    forall k, d | k in Newest(keys, n) && d in keys && d !in Newest(keys, n) ensures d < k {
      var i :| 0 <= i < |kept| && kept[i] == k;
      var j :| 0 <= j < |sorted| && sorted[j] == d;
      assert j >= |kept|;
    }
    if |keys| <= n {
      assert kept == sorted;
    }
  }

  /**
   * Lines 100-101: sort the keys newest first, keep the first 60, and rebuild the dict from them.
   * The result holds the 60 largest keys with their values unchanged and nothing else.
   */
  function Prune<V>(history: map<int, V>): (r: map<int, V>)
    ensures r.Keys <= history.Keys
    ensures forall k :: k in r ==> r[k] == history[k]
    ensures |r| == Min(|history|, Retention)
    ensures forall k, d :: k in r && d in history && d !in r ==> d < k
    ensures |history| <= Retention ==> r == history
  {
    var keep := Newest(history.Keys, Retention);
    NewestFacts(history.Keys, Retention);
    Restrict(history, keep);
    map k | k in keep :: history[k]
  }

  /** A dict rebuilt from some of its keys has exactly those keys, and is the dict when they are all of them. */
  lemma Restrict<V>(history: map<int, V>, keep: set<int>)
    requires keep <= history.Keys
    ensures (map k | k in keep :: history[k]).Keys == keep
    ensures |map k | k in keep :: history[k]| == |keep|
    ensures keep == history.Keys ==> (map k | k in keep :: history[k]) == history
  {
    var r := map k | k in keep :: history[k];
    assert r.Keys == keep;
  }

  /** Pruning a pruned history changes nothing. */
  lemma PruneIdempotent<V>(history: map<int, V>)
    ensures Prune(Prune(history)) == Prune(history)
  {
  }

  /**
   * Lines 99-101 of `main`: `history[today_key] = today_data`, then the 60-key pruning. Every key
   * kept keeps its value, today's key holds today's data if kept, and every dropped key is older
   * than every kept one.
   */
  method UpdateHistory<V>(history: map<int, V>, todayKey: int, todayData: V) returns (updated: map<int, V>)
    ensures |updated| <= Retention
    ensures |updated| == Min(|history.Keys + {todayKey}|, Retention)
    ensures updated.Keys <= history.Keys + {todayKey}
    ensures todayKey in updated ==> updated[todayKey] == todayData
    ensures forall k :: k in updated && k != todayKey ==> updated[k] == history[k]
    ensures forall k, d :: k in updated && d in history.Keys + {todayKey} && d !in updated ==> d < k
  {
    var h := history[todayKey := todayData];
    assert h.Keys == history.Keys + {todayKey};
    updated := Prune(h);
  }

  /** When today is the newest date, it is always kept. */
  lemma TodayKept<V>(history: map<int, V>, todayKey: int, todayData: V)
    requires forall k :: k in history ==> k <= todayKey
    ensures var h := history[todayKey := todayData];
            todayKey in Prune(h) && Prune(h)[todayKey] == todayData
  {
    var h := history[todayKey := todayData];
    assert todayKey in h;
  }
}
