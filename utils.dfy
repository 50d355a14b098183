/**
 * modules/utils.py: the list of past calendar days ending today. Days are integer day numbers
 * (consecutive days differ by one); formatting them as "YYYY-MM-DD" strings is not modelled.
 */
module Utils {
  import opened Common

  /** The default length of the window of past days. */
  const DefaultDays := 60

  function Reverse<T>(s: seq<T>): (r: seq<T>)
    ensures |r| == |s|
    ensures forall k :: 0 <= k < |s| ==> r[k] == s[|s| - 1 - k]
  {
    if s == [] then [] else Reverse(s[1..]) + [s[0]]
  }

  /**
   * `get_past_dates(days)`: the days today - i for i in range(days), newest first, then reversed.
   * A non-positive `days` gives the empty list, as `range` does.
   */
  function GetPastDates(today: int, days: int := DefaultDays): (r: seq<int>)
    ensures |r| == Max(days, 0)
    ensures forall k :: 0 <= k < |r| ==> r[k] == today - (days - 1) + k
    ensures |r| > 0 ==> r[0] == today - (days - 1) && r[|r| - 1] == today
    ensures forall k :: 0 <= k < |r| - 1 ==> r[k] < r[k + 1] && r[k + 1] == r[k] + 1
  {
    Reverse(seq(Max(days, 0), i => today - i))
  }

  /** Called with no argument, the list covers the last 60 days, ending today. */
  lemma DefaultWindow(today: int)
    ensures |GetPastDates(today)| == 60
    ensures GetPastDates(today)[0] == today - 59 && GetPastDates(today)[59] == today
  {
  }
}
