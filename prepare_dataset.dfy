/**
 * prepare_dataset.py, `extract_features`: the nested history {date: {race id: race}} is flattened
 * into one row per entry of each race, dates, races and entries in order. A race is handled in a
 * `try` block: when a step raises inside it, the rows that race already produced stay and the
 * rest of it is skipped, and the loop goes on with the next race. JSON values are the scalars
 * below; a race or entry that is not a dict is `NotAnObject`/`EntryNotObj`, whose `.get` raises.
 */
module PrepareDataset {

  /** A JSON value as far as a row holds it. */
  datatype Scalar = Null | Bool(b: bool) | Num(x: real) | Str(s: string) | Composite

  /** A dict's fields; `.get(key, default)` gives `default` for a missing key. */
  type Fields = map<string, Scalar>

  function Get(f: Fields, key: string, default: Scalar): (v: Scalar)
    ensures key in f ==> v == f[key]
    ensures key !in f ==> v == default
  {
    if key in f then f[key] else default
  }

  /** One entry of a race; anything other than a dict raises on `.get` (line 31). */
  datatype EntryData = EntryObj(fields: Fields) | EntryNotObj

  /**
   * What `race_data.get("entries", [])` gives: missing (so `[]`), a list of entries, or
   * something `for` cannot iterate (`None`, a number), which raises.
   */
  datatype Entries = NoEntries | EntryList(list: seq<EntryData>) | NotIterable

  /** A race; anything other than a dict raises on the first `.get` (line 21). */
  datatype RaceData = RaceObj(fields: Fields, entries: Entries) | NotAnObject

  /** Lines 25-37: one row of the dataset. */
  datatype Row = Row(
    date: string, raceId: string, venue: Scalar, weather: Scalar, waterCondition: Scalar,
    playerId: Scalar, playerName: Scalar, course: Scalar, stTime: Scalar, kimarite: Scalar, rank: Scalar)

  type Races = seq<(string, RaceData)>
  type History = seq<(string, Races)>

  /** Lines 21-23: the race-level fields of every row of the race. */
  datatype RaceContext = RaceContext(date: string, raceId: string, venue: Scalar, weather: Scalar, waterCondition: Scalar)

  function ContextOf(date: string, raceId: string, fields: Fields): (c: RaceContext)
    ensures c.date == date && c.raceId == raceId
    ensures c.venue == Get(fields, "place", Str("")) && c.weather == Get(fields, "weather", Str(""))
    ensures c.waterCondition == Get(fields, "waterCondition", Str(""))
  {
    RaceContext(date, raceId, Get(fields, "place", Str("")), Get(fields, "weather", Str("")),
      Get(fields, "waterCondition", Str("")))
  }

  /** Lines 25-37 for one entry dict. */
  function RowOf(c: RaceContext, e: Fields): (r: Row)
    ensures r.date == c.date && r.raceId == c.raceId && r.venue == c.venue
    ensures r.weather == c.weather && r.waterCondition == c.waterCondition
    ensures r.playerId == Get(e, "id", Null) && r.playerName == Get(e, "name", Null)
    ensures r.course == Get(e, "course", Null) && r.stTime == Get(e, "st", Null)
    ensures r.kimarite == Get(e, "kimarite", Str("")) && r.rank == Get(e, "rank", Null)
  {
    Row(c.date, c.raceId, c.venue, c.weather, c.waterCondition,
      Get(e, "id", Null), Get(e, "name", Null), Get(e, "course", Null), Get(e, "st", Null),
      Get(e, "kimarite", Str("")), Get(e, "rank", Null))
  }

  /** How many leading entries are dicts: the loop of line 24 raises at the first one that is not. */
  function Clean(es: seq<EntryData>): (n: nat)
    ensures n <= |es|
    ensures forall i :: 0 <= i < n ==> es[i].EntryObj?
    ensures n < |es| ==> es[n].EntryNotObj?
  {
    if es == [] || es[0].EntryNotObj? then 0
    else
      var n := Clean(es[1..]);
      assert forall i :: 1 <= i < n + 1 ==> es[i] == es[1..][i - 1];
      n + 1
  }

  /** The rows of the given entry dicts, in order. */
  function EntryRows(c: RaceContext, es: seq<EntryData>): (r: seq<Row>)
    requires forall i :: 0 <= i < |es| ==> es[i].EntryObj?
    ensures |r| == |es|
    ensures forall i :: 0 <= i < |es| ==> r[i] == RowOf(c, es[i].fields)
  {
    seq(|es|, i requires 0 <= i < |es| && es[i].EntryObj? => RowOf(c, es[i].fields))
  }

  /** Lines 20-41 for one race: the rows it produces before it raises, if it does. */
  function RaceRows(date: string, raceId: string, race: RaceData): seq<Row> {
    match race
    case NotAnObject => []
    case RaceObj(fields, entries) =>
      match entries
      case EntryList(es) => EntryRows(ContextOf(date, raceId, fields), es[..Clean(es)])
      case _ => []
  }

  /** Line 19: the races of one date in order. */
  function DateRows(date: string, races: Races): seq<Row> {
    if races == [] then []
    else DateRows(date, races[..|races| - 1]) + RaceRows(date, races[|races| - 1].0, races[|races| - 1].1)
  }

  /** Line 18: the dates in order. */
  function Dataset(history: History): seq<Row> {
    if history == [] then []
    else Dataset(history[..|history| - 1]) + DateRows(history[|history| - 1].0, history[|history| - 1].1)
  }

  /** Lines 20-41 for one race: the `try` block, with the first exception ending the race. */
  method ExtractRace(date: string, raceId: string, race: RaceData) returns (rows: seq<Row>)
    ensures rows == RaceRows(date, raceId, race)
  {
    rows := [];
    if race.NotAnObject? {
      return;
    }
    var c := ContextOf(date, raceId, race.fields);
    if !race.entries.EntryList? {
      return;
    }
    var es := race.entries.list;
    var k := 0;
    while k < |es|
      invariant k <= Clean(es)
      invariant rows == EntryRows(c, es[..k])
      decreases |es| - k
    {
      if es[k].EntryNotObj? {
        break;
      }
      rows := rows + [RowOf(c, es[k].fields)];
      k := k + 1;
    }
    assert k == Clean(es);
  }

  /** The two loops of lines 18-19 around `ExtractRace`; the inner one is `ExtractDate`. */
  method ExtractDate(date: string, races: Races) returns (rows: seq<Row>)
    ensures rows == DateRows(date, races)
  {
    rows := [];
    for j := 0 to |races|
      invariant rows == DateRows(date, races[..j])
    {
      assert races[..j + 1][..j] == races[..j];
      var more := ExtractRace(date, races[j].0, races[j].1);
      rows := rows + more;
    }
    assert races[..|races|] == races;
  }

  /** Lines 16-42. */
  method ExtractFeatures(history: History) returns (dataset: seq<Row>)
    ensures dataset == Dataset(history)
  {
    dataset := [];
    for i := 0 to |history|
      invariant dataset == Dataset(history[..i])
    {
      assert history[..i + 1][..i] == history[..i];
      var rows := ExtractDate(history[i].0, history[i].1);
      dataset := dataset + rows;
    }
    assert history[..|history|] == history;
  }

  // ---------------------------------------------------------------------------------------------
  // Properties

  /** Every row of a race carries that race's date, id and race-level fields, defaults included. */
  lemma RaceRowsContext(date: string, raceId: string, race: RaceData)
    ensures forall r :: r in RaceRows(date, raceId, race) ==>
              r.date == date && r.raceId == raceId && race.RaceObj?
              && r.venue == Get(race.fields, "place", Str(""))
              && r.weather == Get(race.fields, "weather", Str(""))
              && r.waterCondition == Get(race.fields, "waterCondition", Str(""))
  {
    if race.RaceObj? && race.entries.EntryList? {
      var es := race.entries.list;
      var rows := RaceRows(date, raceId, race);
      forall r | r in rows
        ensures r.date == date && r.raceId == raceId
        ensures r.venue == Get(race.fields, "place", Str(""))
        ensures r.weather == Get(race.fields, "weather", Str(""))
        ensures r.waterCondition == Get(race.fields, "waterCondition", Str(""))
      {
        var i :| 0 <= i < |rows| && rows[i] == r;
      }
    }
  }

  /** Lines 18-19, 26-27: every row's date and race id are keys of the history it came from. */
  lemma {:induction false} RowsFromHistory(history: History)
    ensures forall r :: r in Dataset(history) ==>
              exists i, j :: 0 <= i < |history| && 0 <= j < |history[i].1|
                && r.date == history[i].0 && r.raceId == history[i].1[j].0
  {
    if history != [] {
      var n := |history| - 1;
      RowsFromHistory(history[..n]);
      DateRowsFrom(history[n].0, history[n].1);
      forall r | r in Dataset(history)
        ensures exists i, j :: 0 <= i < |history| && 0 <= j < |history[i].1|
                  && r.date == history[i].0 && r.raceId == history[i].1[j].0
      {
        if r in Dataset(history[..n]) {
          var i, j :| 0 <= i < n && 0 <= j < |history[..n][i].1|
                      && r.date == history[..n][i].0 && r.raceId == history[..n][i].1[j].0;
          assert history[..n][i] == history[i];
        } else {
          assert r in DateRows(history[n].0, history[n].1);
          var j :| 0 <= j < |history[n].1| && r.date == history[n].0 && r.raceId == history[n].1[j].0;
        }
      }
    }
  }

  /** Every row of a date's races carries the date and the id of one of those races. */
  lemma {:induction false} DateRowsFrom(date: string, races: Races)
    ensures forall r :: r in DateRows(date, races) ==>
              r.date == date && exists j :: 0 <= j < |races| && r.raceId == races[j].0
  {
    if races != [] {
      var n := |races| - 1;
      DateRowsFrom(date, races[..n]);
      RaceRowsContext(date, races[n].0, races[n].1);
      forall r | r in DateRows(date, races)
        ensures r.date == date && exists j :: 0 <= j < |races| && r.raceId == races[j].0
      {
        if r in DateRows(date, races[..n]) {
          var j :| 0 <= j < n && r.raceId == races[..n][j].0;
          assert races[..n][j] == races[j];
        } else {
          assert r in RaceRows(date, races[n].0, races[n].1);
          assert r.raceId == races[n].0;
        }
      }
    }
  }

  /** A race that raises before its entries, or has none, adds no row. */
  lemma BrokenRaceAddsNothing(date: string, raceId: string, race: RaceData)
    requires race.NotAnObject? || (race.RaceObj? && !race.entries.EntryList?)
    ensures RaceRows(date, raceId, race) == []
  {
  }

  /**
   * Line 41: a race's failure does not stop the loop; the rows of a date are those of its races
   * in order, whatever any earlier race did.
   */
  lemma {:induction false} DateRowsAppend(date: string, a: Races, b: Races)
    ensures DateRows(date, a + b) == DateRows(date, a) + DateRows(date, b)
    decreases |b|
  {
    if b == [] {
      assert a + b == a;
    } else {
      var n := |b| - 1;
      var front, x := b[..n], b[n];
      assert b == front + [x];
      assert a + b == (a + front) + [x];
      var rows := RaceRows(date, x.0, x.1);
      DateRowsSnoc(date, front, x);
      DateRowsSnoc(date, a + front, x);
      DateRowsAppend(date, a, front);
      var ra, rf := DateRows(date, a), DateRows(date, front);
      Regroup(ra, rf, rows);
      calc {
        DateRows(date, a + b);
        DateRows(date, (a + front) + [x]);
        DateRows(date, a + front) + rows;
        (ra + rf) + rows;
        ra + (rf + rows);
        DateRows(date, a) + DateRows(date, b);
      }
    }
  }

  lemma Regroup(x: seq<Row>, y: seq<Row>, z: seq<Row>)
    ensures (x + y) + z == x + (y + z)
  {
  }

  /** One more race adds its rows at the end. */
  lemma DateRowsSnoc(date: string, races: Races, x: (string, RaceData))
    ensures DateRows(date, races + [x]) == DateRows(date, races) + RaceRows(date, x.0, x.1)
  {
    assert (races + [x])[..|races|] == races;
  }

  /** An entry list in which every entry is a dict. */
  predicate CleanRace(race: RaceData) {
    race.RaceObj? && (race.entries.EntryList? ==> forall i :: 0 <= i < |race.entries.list| ==> race.entries.list[i].EntryObj?)
  }

  /** The number of entries a race lists. */
  function EntryCount(race: RaceData): nat {
    if race.RaceObj? && race.entries.EntryList? then |race.entries.list| else 0
  }

  function DateEntryCount(races: Races): nat {
    if races == [] then 0 else DateEntryCount(races[..|races| - 1]) + EntryCount(races[|races| - 1].1)
  }

  function EntryTotal(history: History): nat {
    if history == [] then 0 else EntryTotal(history[..|history| - 1]) + DateEntryCount(history[|history| - 1].1)
  }

  /** One date's races are all clean. */
  predicate CleanDate(races: Races) {
    forall j :: 0 <= j < |races| ==> CleanRace(races[j].1)
  }

  lemma CleanRaceCount(date: string, raceId: string, race: RaceData)
    requires CleanRace(race)
    ensures |RaceRows(date, raceId, race)| == EntryCount(race)
  {
    if race.entries.EntryList? {
      var es := race.entries.list;
      assert es[..Clean(es)] == es;
    }
  }

  lemma {:induction false} CleanDateCount(date: string, races: Races)
    requires CleanDate(races)
    ensures |DateRows(date, races)| == DateEntryCount(races)
  {
    if races != [] {
      var n := |races| - 1;
      assert CleanDate(races[..n]) by {
        forall j | 0 <= j < n ensures CleanRace(races[..n][j].1) {
          assert races[..n][j] == races[j];
        }
      }
      CleanDateCount(date, races[..n]);
      CleanRaceCount(date, races[n].0, races[n].1);
    }
  }

  /** When every race is a dict whose entries are all dicts, there is one row per entry. */
  lemma {:induction false} CleanHistoryCount(history: History)
    requires forall i :: 0 <= i < |history| ==> CleanDate(history[i].1)
    ensures |Dataset(history)| == EntryTotal(history)
  {
    if history != [] {
      var n := |history| - 1;
      assert forall i :: 0 <= i < n ==> history[..n][i] == history[i];
      CleanHistoryCount(history[..n]);
      CleanDateCount(history[n].0, history[n].1);
    }
  }

  /** An entry that is not a dict ends its race: the rows are those of the dicts before it. */
  lemma StopsAtNonDict(date: string, raceId: string, fields: Fields, es: seq<EntryData>, k: nat)
    requires k < |es| && es[k].EntryNotObj? && forall i :: 0 <= i < k ==> es[i].EntryObj?
    ensures RaceRows(date, raceId, RaceObj(fields, EntryList(es))) == EntryRows(ContextOf(date, raceId, fields), es[..k])
  {
    assert Clean(es) == k;
  }
}
