/**
 * merge_data.py: newly scraped race records are merged into the accumulated history. A record is
 * identified by (race date, stadium number, race number); an incoming record whose key the
 * history already holds is discarded, so the existing record wins. The remaining incoming records
 * are appended and the whole list is sorted stably by race date. The rest of a record is an
 * opaque payload P; the JSON files are not modelled.
 */
module MergeData {
  import opened Sorting

  datatype RaceRecord<P> = RaceRecord(raceDate: int, stadium: int, raceNumber: int, payload: P)

  type RaceKey = (int, int, int)

  function KeyOf<P>(r: RaceRecord<P>): RaceKey {
    (r.raceDate, r.stadium, r.raceNumber)
  }

  function DateOf<P>(r: RaceRecord<P>): real { r.raceDate as real }

  /** Line 21: the set of keys of the history. */
  function Keys<P(==)>(records: seq<RaceRecord<P>>): set<RaceKey> {
    set r | r in records :: KeyOf(r)
  }

  /**
   * Line 22: the incoming records, in their order, whose key is not among `existing`. Each record
   * is kept as often as it occurs in the batch when its key is new, and dropped otherwise.
   */
  function Added<P(==,!new)>(existing: set<RaceKey>, incoming: seq<RaceRecord<P>>): (r: seq<RaceRecord<P>>)
    ensures forall x :: multiset(r)[x] == if KeyOf(x) in existing then 0 else multiset(incoming)[x]
    ensures forall x :: x in r <==> x in incoming && KeyOf(x) !in existing
  {
    if incoming == [] then []
    else
      var last := incoming[|incoming| - 1];
      var front := incoming[..|incoming| - 1];
      assert incoming == front + [last];
      var r := Added(existing, front);
      if KeyOf(last) in existing then r else r + [last]
  }

  /**
   * Lines 21-25: the history keeps every record it had, gains exactly the added records, and is
   * sorted by race date with records of the same date in their order before the sort.
   */
  function Merge<P(==,!new)>(history: seq<RaceRecord<P>>, incoming: seq<RaceRecord<P>>): (r: seq<RaceRecord<P>>)
    ensures multiset(r) == multiset(history) + multiset(Added(Keys(history), incoming))
    ensures |r| == |history| + |Added(Keys(history), incoming)|
    ensures Sorted(r, DateOf, false)
    ensures forall v :: WithKey(r, DateOf, v) == WithKey(history + Added(Keys(history), incoming), DateOf, v)
  {
    var combined := history + Added(Keys(history), incoming);
    SortBy(combined, DateOf, false)
  }

  /** `merge_data` after loading: build the key set, filter the batch, extend, sort in place. */
  method MergeInto<P(==,!new)>(histData: seq<RaceRecord<P>>, newData: seq<RaceRecord<P>>)
    returns (merged: seq<RaceRecord<P>>, added: seq<RaceRecord<P>>)
    ensures added == Added(Keys(histData), newData)
    ensures merged == Merge(histData, newData)
  {
    var existing := Keys(histData);
    added := Added(existing, newData);
    merged := histData + added;
    merged := SortBy(merged, DateOf, false);
  }

  /** After a merge, the key of every incoming record is present. */
  lemma MergedKeys<P(!new)>(history: seq<RaceRecord<P>>, incoming: seq<RaceRecord<P>>)
    ensures forall x :: x in incoming ==> KeyOf(x) in Keys(Merge(history, incoming))
  {
    var m := Merge(history, incoming);
    var added := Added(Keys(history), incoming);
    forall x | x in incoming ensures KeyOf(x) in Keys(m) {
      if KeyOf(x) in Keys(history) {
        var y :| y in history && KeyOf(y) == KeyOf(x);
        assert multiset(m)[y] >= multiset(history)[y] > 0;
        assert y in m;
      } else {
        assert x in added;
        assert multiset(m)[x] >= multiset(added)[x] > 0;
        assert x in m;
      }
    }
  }

  /** A batch whose keys are all known adds nothing. */
  lemma NothingNew<P(!new)>(existing: set<RaceKey>, incoming: seq<RaceRecord<P>>)
    requires forall x :: x in incoming ==> KeyOf(x) in existing
    ensures Added(existing, incoming) == []
  {
  }

  /** Merging the same batch a second time changes nothing. */
  lemma MergeIdempotent<P(!new)>(history: seq<RaceRecord<P>>, incoming: seq<RaceRecord<P>>)
    ensures Merge(Merge(history, incoming), incoming) == Merge(history, incoming)
  {
    var m := Merge(history, incoming);
    MergedKeys(history, incoming);
    NothingNew(Keys(m), incoming);
    assert m + [] == m;
    SortSorted(m, DateOf, false);
  }

  /** Two new records with the same key in one batch are both added: the batch is not deduplicated. */
  lemma NoBatchDedup<P(!new)>(history: seq<RaceRecord<P>>, x: RaceRecord<P>, y: RaceRecord<P>)
    requires KeyOf(x) == KeyOf(y) && KeyOf(x) !in Keys(history)
    ensures Added(Keys(history), [x, y]) == [x, y]
    ensures |Merge(history, [x, y])| == |history| + 2
  {
    assert [x, y][..1] == [x];
    assert [x][..0] == [];
  }
}
