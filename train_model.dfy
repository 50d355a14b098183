/**
 * train_model.py: `load_history_as_dataframe` flattens the history {date: {venue: {"races":
 * [{"race_no", "boats": [...]}]}}} into one row per truthy boat, and `train_and_save_model`
 * skips training below 100 rows and otherwise labels each row by whether it is boat 1. A race
 * without "race_no" raises `KeyError` at its first truthy boat, which ends the whole load: the
 * `Loaded` result makes that error explicit. The file I/O and the classifier are not modelled.
 */
module TrainModel {
  import opened Common

  /** A JSON value as the row keeps it; `Container(n)` is a list or dict of n items. */
  datatype Value = Null | Bool(b: bool) | Num(x: real) | Str(s: string) | Container(size: nat)

  /** Python truthiness. */
  predicate Truthy(v: Value) {
    match v
    case Null => false
    case Bool(b) => b
    case Num(x) => x != 0.0
    case Str(s) => s != ""
    case Container(n) => n > 0
  }

  type Fields = map<string, Value>

  /** `.get(key)`: `None` for a missing key. */
  function Get(f: Fields, key: string): (v: Value)
    ensures key in f ==> v == f[key]
    ensures key !in f ==> v == Null
  {
    if key in f then f[key] else Null
  }

  /**
   * One element of a race's "boats" list: `None` or a dict; an empty dict is falsy (line 28).
   * Other falsy values (0, "", []) behave like `NullBoat`; a truthy non-dict is not represented.
   */
  datatype Boat = NullBoat | BoatObj(fields: Fields)

  predicate TruthyBoat(b: Boat) { b.BoatObj? && b.fields != map[] }

  /** A race: its "race_no" when present, and its "boats" (`[]` when missing, line 27). */
  datatype Race = Race(raceNo: Option<Value>, boats: seq<Boat>)

  /** A venue's "races" (`[]` when missing, line 26). */
  type Venue = seq<Race>
  type History = seq<(string, seq<(string, Venue)>)>

  /** Lines 30-37: one row. */
  datatype Row = Row(date: string, venue: string, raceNo: Value, boatNumber: Value, startTiming: Value, racerClass: int)

  /** The rows read so far, or the `KeyError` of line 33. */
  datatype Loaded = Ok(rows: seq<Row>) | MissingRaceNo

  /** Line 35: `boat.get("start_timing") or 0.2`. */
  function StartTiming(f: Fields): (v: Value)
    ensures Truthy(v)
    ensures Truthy(Get(f, "start_timing")) ==> v == Get(f, "start_timing")
    ensures !Truthy(Get(f, "start_timing")) ==> v == Num(0.2)
  {
    var t := Get(f, "start_timing");
    if Truthy(t) then t else Num(0.2)
  }

  /** Line 36: class A1 is 1, anything else (a missing class included) 0. */
  function RacerClass(f: Fields): (c: int)
    ensures c == 0 || c == 1
    ensures c == 1 <==> Get(f, "racer_class") == Str("A1")
  {
    if Get(f, "racer_class") == Str("A1") then 1 else 0
  }

  /** Lines 30-37 for one truthy boat of a race whose number is known. */
  function RowOf(date: string, venue: string, raceNo: Value, f: Fields): (r: Row)
    ensures r.date == date && r.venue == venue && r.raceNo == raceNo
    ensures r.boatNumber == Get(f, "boat_number")
  {
    Row(date, venue, raceNo, Get(f, "boat_number"), StartTiming(f), RacerClass(f))
  }

  /** Lines 28-29: the truthy boats, in order. */
  function TruthyBoats(boats: seq<Boat>): (r: seq<Fields>)
    ensures |r| <= |boats|
  {
    if boats == [] then []
    else
      var b := boats[|boats| - 1];
      TruthyBoats(boats[..|boats| - 1]) + (if TruthyBoat(b) then [b.fields] else [])
  }

  /** Lines 27-37 for one race: a row per truthy boat, or the error if one needs a missing number. */
  function RaceRows(date: string, venue: string, race: Race): Loaded {
    var tb := TruthyBoats(race.boats);
    if tb == [] then Ok([])
    else if race.raceNo.None? then MissingRaceNo
    else Ok(seq(|tb|, i requires 0 <= i < |tb| => RowOf(date, venue, race.raceNo.value, tb[i])))
  }

  /** Rows of a sequence of parts, in order; the first error is the result. */
  function Gather<T>(xs: seq<T>, f: T -> Loaded): Loaded {
    if xs == [] then Ok([])
    else
      var front := Gather(xs[..|xs| - 1], f);
      var last := f(xs[|xs| - 1]);
      if front.Ok? && last.Ok? then Ok(front.rows + last.rows) else MissingRaceNo
  }

  /** Line 26: the races of a venue. */
  function VenueRows(date: string, venue: string, races: Venue): Loaded {
    Gather(races, (race: Race) => RaceRows(date, venue, race))
  }

  /** Line 25: the venues of a date. */
  function DateRows(date: string, venues: seq<(string, Venue)>): Loaded {
    Gather(venues, (v: (string, Venue)) => VenueRows(date, v.0, v.1))
  }

  /** Lines 23-37. */
  function Load(history: History): Loaded {
    Gather(history, (d: (string, seq<(string, Venue)>)) => DateRows(d.0, d.1))
  }

  // ---------------------------------------------------------------------------------------------
  // The loops

  /** The boat loop of lines 27-37: rows appended until a truthy boat meets a missing number. */
  method LoadRace(date: string, venue: string, race: Race) returns (res: Loaded)
    ensures res == RaceRows(date, venue, race)
  {
    var boats := race.boats;
    var rows: seq<Row> := [];
    for k := 0 to |boats|
      invariant TruthyBoats(boats[..k]) != [] ==> race.raceNo.Some?
      invariant race.raceNo.Some? ==>
                  rows == seq(|TruthyBoats(boats[..k])|, i requires 0 <= i < |TruthyBoats(boats[..k])| =>
                            RowOf(date, venue, race.raceNo.value, TruthyBoats(boats[..k])[i]))
      invariant race.raceNo.None? ==> rows == []
    {
      var boat := boats[k];
      assert boats[..k + 1][..k] == boats[..k];
      if !(boat.BoatObj? && boat.fields != map[]) {
        continue;
      }
      if race.raceNo.None? {
        TruthyPrefix(boats, k + 1);
        return MissingRaceNo;
      }
      rows := rows + [RowOf(date, venue, race.raceNo.value, boat.fields)];
    }
    assert boats[..|boats|] == boats;
    return Ok(rows);
  }

  /** Truthy boats in a prefix remain truthy boats of the whole list. */
  lemma {:induction false} TruthyPrefix(boats: seq<Boat>, k: nat)
    requires k <= |boats|
    ensures TruthyBoats(boats[..k]) != [] ==> TruthyBoats(boats) != []
    decreases |boats| - k
  {
    if k < |boats| {
      var b1 := boats[..k + 1];
      assert b1[..k] == boats[..k];
      TruthyPrefix(boats, k + 1);
    } else {
      assert boats[..k] == boats;
    }
  }

  /** A loop over parts that stops at the first error: one step of it. */
  lemma GatherSnoc<T>(xs: seq<T>, x: T, f: T -> Loaded)
    ensures Gather(xs + [x], f) == if Gather(xs, f).Ok? && f(x).Ok? then Ok(Gather(xs, f).rows + f(x).rows) else MissingRaceNo
  {
    assert (xs + [x])[..|xs|] == xs;
  }

  /** An error in a prefix is the error of the whole. */
  lemma {:induction false} GatherFailPrefix<T>(xs: seq<T>, k: nat, f: T -> Loaded)
    requires k <= |xs| && Gather(xs[..k], f) == MissingRaceNo
    ensures Gather(xs, f) == MissingRaceNo
    decreases |xs| - k
  {
    if k < |xs| {
      GatherSnoc(xs[..k], xs[k], f);
      assert xs[..k + 1] == xs[..k] + [xs[k]];
      GatherFailPrefix(xs, k + 1, f);
    } else {
      assert xs[..k] == xs;
    }
  }

  /** The race loop of line 26. */
  method LoadVenue(date: string, venue: string, races: Venue) returns (res: Loaded)
    ensures res == VenueRows(date, venue, races)
  {
    ghost var f := (race: Race) => RaceRows(date, venue, race);
    var rows: seq<Row> := [];
    for k := 0 to |races|
      invariant Gather(races[..k], f) == Ok(rows)
    {
      var r := LoadRace(date, venue, races[k]);
      GatherSnoc(races[..k], races[k], f);
      assert races[..k + 1] == races[..k] + [races[k]];
      if r.MissingRaceNo? {
        GatherFailPrefix(races, k + 1, f);
        return MissingRaceNo;
      }
      rows := rows + r.rows;
    }
    assert races[..|races|] == races;
    return Ok(rows);
  }

  /** The venue loop of line 25. */
  method LoadDate(date: string, venues: seq<(string, Venue)>) returns (res: Loaded)
    ensures res == DateRows(date, venues)
  {
    ghost var f := (v: (string, Venue)) => VenueRows(date, v.0, v.1);
    var rows: seq<Row> := [];
    for k := 0 to |venues|
      invariant Gather(venues[..k], f) == Ok(rows)
    {
      var r := LoadVenue(date, venues[k].0, venues[k].1);
      GatherSnoc(venues[..k], venues[k], f);
      assert venues[..k + 1] == venues[..k] + [venues[k]];
      if r.MissingRaceNo? {
        GatherFailPrefix(venues, k + 1, f);
        return MissingRaceNo;
      }
      rows := rows + r.rows;
    }
    assert venues[..|venues|] == venues;
    return Ok(rows);
  }

  /** `load_history_as_dataframe` after reading the file: the date loop of line 24. */
  method LoadHistory(history: History) returns (res: Loaded)
    ensures res == Load(history)
  {
    ghost var f := (d: (string, seq<(string, Venue)>)) => DateRows(d.0, d.1);
    var rows: seq<Row> := [];
    for k := 0 to |history|
      invariant Gather(history[..k], f) == Ok(rows)
    {
      var r := LoadDate(history[k].0, history[k].1);
      GatherSnoc(history[..k], history[k], f);
      assert history[..k + 1] == history[..k] + [history[k]];
      if r.MissingRaceNo? {
        GatherFailPrefix(history, k + 1, f);
        return MissingRaceNo;
      }
      rows := rows + r.rows;
    }
    assert history[..|history|] == history;
    return Ok(rows);
  }

  // ---------------------------------------------------------------------------------------------
  // Training decision (lines 46-53)

  /** Line 46: the threshold below which training is skipped. */
  const MinRows := 100

  /** Python's `v == 1` on a JSON value: the number 1 (integer or float) and `True` (`True == 1`). */
  predicate EqualsOne(v: Value) {
    v == Num(1.0) || v == Bool(true)
  }

  /** Line 53: the label of a row is 1 iff its boat number equals 1. */
  function Label(r: Row): (y: int)
    ensures y == 0 || y == 1
    ensures y == 1 <==> (r.boatNumber == Num(1.0) || r.boatNumber == Bool(true))
  {
    if EqualsOne(r.boatNumber) then 1 else 0
  }

  /** Lines 46-53: `None` when skipped, otherwise the label of every row. */
  function Labels(rows: seq<Row>): (y: Option<seq<int>>)
    ensures y.None? <==> |rows| < MinRows
    ensures y.Some? ==> |y.value| == |rows| && forall i :: 0 <= i < |rows| ==> y.value[i] == Label(rows[i])
  {
    if |rows| < MinRows then None else Some(seq(|rows|, i requires 0 <= i < |rows| => Label(rows[i])))
  }

  // ---------------------------------------------------------------------------------------------
  // Properties of the flattening

  /** A race fails exactly when it has a truthy boat and no number. */
  predicate Broken(race: Race) {
    TruthyBoats(race.boats) != [] && race.raceNo.None?
  }

  /** The number of truthy boats of a race; the parts' counts summed. */
  function SumOf<T>(xs: seq<T>, g: T -> nat): nat {
    if xs == [] then 0 else SumOf(xs[..|xs| - 1], g) + g(xs[|xs| - 1])
  }

  /** The gathered rows are the parts' rows; the gather fails iff some part fails. */
  lemma {:induction false} GatherFacts<T>(xs: seq<T>, f: T -> Loaded, g: T -> nat, P: Row -> bool)
    requires forall x :: x in xs && f(x).Ok? ==> |f(x).rows| == g(x) && forall r :: r in f(x).rows ==> P(r)
    ensures Gather(xs, f).MissingRaceNo? <==> exists x :: x in xs && f(x).MissingRaceNo?
    ensures Gather(xs, f).Ok? ==> |Gather(xs, f).rows| == SumOf(xs, g) && forall r :: r in Gather(xs, f).rows ==> P(r)
  {
    if xs != [] {
      var front, last := xs[..|xs| - 1], xs[|xs| - 1];
      assert xs == front + [last];
      assert forall x :: x in front ==> x in xs;
      GatherFacts(front, f, g, P);
      if Gather(xs, f).Ok? {
        forall r | r in Gather(xs, f).rows ensures P(r) {
          assert r in Gather(front, f).rows || r in f(last).rows;
        }
      }
      if !Gather(front, f).Ok? {
        var x :| x in front && f(x).MissingRaceNo?;
        assert x in xs;
      }
    }
  }

  /** The truthy boats of a race: exactly those of its boats that are truthy, in order. */
  lemma {:induction false} TruthyBoatsMember(boats: seq<Boat>, f: Fields)
    ensures f in TruthyBoats(boats) <==> BoatObj(f) in boats && f != map[]
  {
    if boats != [] {
      var front, last := boats[..|boats| - 1], boats[|boats| - 1];
      assert boats == front + [last];
      TruthyBoatsMember(front, f);
    }
  }

  /** The number of truthy boats of a race. */
  function RaceBoats(race: Race): nat { |TruthyBoats(race.boats)| }

  /** What every row of a venue satisfies: its date, its venue, a truthy start timing, a 0/1 class. */
  predicate RowShape(date: string, venue: string, r: Row) {
    r.date == date && r.venue == venue && Truthy(r.startTiming) && (r.racerClass == 0 || r.racerClass == 1)
  }

  /** One race: its rows carry the date and venue, and there is one per truthy boat. */
  lemma RaceFacts(date: string, venue: string, race: Race)
    ensures RaceRows(date, venue, race).MissingRaceNo? <==> Broken(race)
    ensures RaceRows(date, venue, race).Ok? ==> |RaceRows(date, venue, race).rows| == RaceBoats(race)
    ensures RaceRows(date, venue, race).Ok? ==> forall r :: r in RaceRows(date, venue, race).rows ==> RowShape(date, venue, r)
  {
    var res := RaceRows(date, venue, race);
    if res.Ok? {
      forall r | r in res.rows ensures RowShape(date, venue, r) {
        var i :| 0 <= i < |res.rows| && res.rows[i] == r;
      }
    }
  }

  /**
   * Lines 26-37 for one venue: the load fails iff some race is broken; otherwise there is one row
   * per truthy boat, each with the date and venue, a truthy start timing and a 0/1 class.
   */
  lemma VenueFacts(date: string, venue: string, races: Venue)
    ensures VenueRows(date, venue, races).MissingRaceNo? <==> exists race :: race in races && Broken(race)
    ensures VenueRows(date, venue, races).Ok? ==>
              |VenueRows(date, venue, races).rows| == SumOf(races, RaceBoats)
              && forall r :: r in VenueRows(date, venue, races).rows ==> RowShape(date, venue, r)
  {
    ghost var f := (race: Race) => RaceRows(date, venue, race);
    forall race | race in races
      ensures (f(race).MissingRaceNo? <==> Broken(race))
      ensures f(race).Ok? ==> |f(race).rows| == RaceBoats(race) && forall r :: r in f(race).rows ==> RowShape(date, venue, r)
    {
      RaceFacts(date, venue, race);
    }
    GatherFacts(races, f, RaceBoats, (r: Row) => RowShape(date, venue, r));
  }

  /** The truthy boats of a venue, of a date. */
  function VenueBoats(v: (string, Venue)): nat { SumOf(v.1, RaceBoats) }
  function DateBoats(d: (string, seq<(string, Venue)>)): nat { SumOf(d.1, VenueBoats) }

  /** A venue or a date that holds a broken race. */
  predicate BrokenVenue(v: (string, Venue)) { exists race :: race in v.1 && Broken(race) }
  predicate BrokenDate(d: (string, seq<(string, Venue)>)) { exists v :: v in d.1 && BrokenVenue(v) }

  /** Line 25 for one date: the venues' rows, failing iff some venue holds a broken race. */
  lemma DateFacts(date: string, venues: seq<(string, Venue)>)
    ensures DateRows(date, venues).MissingRaceNo? <==> exists v :: v in venues && BrokenVenue(v)
    ensures DateRows(date, venues).Ok? ==>
              |DateRows(date, venues).rows| == SumOf(venues, VenueBoats)
              && forall r :: r in DateRows(date, venues).rows ==> r.date == date
  {
    ghost var f := (v: (string, Venue)) => VenueRows(date, v.0, v.1);
    forall v | v in venues
      ensures (f(v).MissingRaceNo? <==> BrokenVenue(v))
      ensures f(v).Ok? ==> |f(v).rows| == VenueBoats(v) && forall r :: r in f(v).rows ==> r.date == date
    {
      VenueFacts(date, v.0, v.1);
    }
    GatherFacts(venues, f, VenueBoats, (r: Row) => r.date == date);
  }

  /**
   * Lines 23-37: the load fails iff some race of some venue of some date has a truthy boat and
   * no number; otherwise there is exactly one row per truthy boat of the history.
   */
  lemma LoadFacts(history: History)
    ensures Load(history).MissingRaceNo? <==> exists d :: d in history && BrokenDate(d)
    ensures Load(history).Ok? ==> |Load(history).rows| == SumOf(history, DateBoats)
  {
    ghost var f := (d: (string, seq<(string, Venue)>)) => DateRows(d.0, d.1);
    forall d | d in history
      ensures (f(d).MissingRaceNo? <==> BrokenDate(d))
      ensures f(d).Ok? ==> |f(d).rows| == DateBoats(d)
    {
      DateFacts(d.0, d.1);
    }
    GatherFacts(history, f, DateBoats, (r: Row) => true);
  }

  /** A race with no truthy boat never fails, whatever its number. */
  lemma NoBoatsNoError(date: string, venue: string, race: Race)
    requires forall b :: b in race.boats ==> !TruthyBoat(b)
    ensures RaceRows(date, venue, race) == Ok([])
  {
    if TruthyBoats(race.boats) != [] {
      var f := TruthyBoats(race.boats)[0];
      TruthyBoatsMember(race.boats, f);
      assert TruthyBoat(BoatObj(f));
    }
  }
}
