/**
 * fetch_result.py: today's results are stored under today's key (overwriting any earlier entry),
 * and when the history then holds more than 60 keys the single oldest key is deleted. Date keys
 * are integers; the stored results are an arbitrary value V. Scraping and JSON I/O are left out.
 */
module FetchResult {
  import opened Common

  /** The key count above which one key is deleted. */
  const Retention := 60

  /**
   * Lines 70-76 of `main`. At most one key is deleted, it is the oldest one (possibly today's
   * own key), and every other entry keeps its value.
   */
  method RecordResults<V>(history: map<int, V>, dateKey: int, todayResults: V) returns (updated: map<int, V>)
    ensures var h := history.Keys + {dateKey};
            && updated.Keys <= h
            && (|h| <= Retention ==> updated.Keys == h)
            && (|h| > Retention ==>
                  exists oldest :: oldest in h && updated.Keys == h - {oldest} && forall k :: k in h ==> oldest <= k)
    ensures dateKey in updated ==> updated[dateKey] == todayResults
    ensures dateKey !in updated ==>
              |history.Keys + {dateKey}| > Retention && forall k :: k in history ==> dateKey <= k
    ensures forall k :: k in updated && k != dateKey ==> updated[k] == history[k]
    ensures |history| <= Retention ==> |updated| <= Retention
  {
    updated := history[dateKey := todayResults];
    assert updated.Keys == history.Keys + {dateKey};
    if |updated| > Retention {
      var oldest := Least(updated.Keys);
      updated := updated - {oldest};
    }
  }
}
