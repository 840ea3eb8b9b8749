/** The point-in-time store of macro observations (macro_store.py): the last observed value at a
    date, and the forward-filled series over a date grid. */
module MacroStore {
  import opened Wrappers
  import opened Sequences
  import Text

  /** One observation; dates are day numbers and a null value is `None`. */
  datatype Observation = Observation(date: int, value: Option<real>)

  predicate ByDate(a: Observation, b: Observation) {
    a.date <= b.date
  }

  ghost predicate Chronological(s: seq<Observation>) {
    forall i, j :: 0 <= i < j < |s| ==> s[i].date < s[j].date
  }

  /** No two observations share a date. */
  predicate DistinctDates(s: seq<Observation>) {
    forall i, j :: 0 <= i < j < |s| ==> s[i].date != s[j].date
  }

  // ----- Point query

  predicate ObservedBy(o: Observation, cutoff: int) {
    o.date <= cutoff && o.value.Some?
  }

  /** `get` on a loaded series: the last non-null observation by the cutoff. */
  function LastObserved(s: seq<Observation>, cutoff: int): Option<real> {
    var eligible := Filter(o => ObservedBy(o, cutoff), s);
    if eligible == [] then None else eligible[|eligible| - 1].value
  }

  // ----- Reindexing and forward fill

  function DateOf(o: Observation): int { o.date }

  predicate IntLeq(a: int, b: int) { a <= b }

  function UpTo(s: seq<Observation>, end: int): seq<Observation> {
    Filter((o: Observation) => o.date <= end, s)
  }

  /** `index.union(dates)`, sorted. */
  function Union(s: seq<Observation>, dates: seq<int>): seq<int> {
    SortedUnique(IntLeq, Map(DateOf, s) + dates)
  }

  /** The value a reindex finds at a date: the observation of that date, null if there is none. */
  function ValueAt(s: seq<Observation>, date: int): Option<real> {
    if s == [] then None
    else if s[0].date == date then s[0].value
    else ValueAt(s[1..], date)
  }

  /** The least date of a non-null observation. */
  function FirstObserved(s: seq<Observation>): Option<int> {
    var observed := Filter((o: Observation) => o.value.Some?, s);
    if observed == [] then None else Some(Least(observed))
  }

  function Least(s: seq<Observation>): int
    requires s != []
  {
    if |s| == 1 then s[0].date else if s[0].date <= Least(s[1..]) then s[0].date else Least(s[1..])
  }

  lemma {:induction false} LeastMeans(s: seq<Observation>)
    requires s != []
    ensures forall o :: o in s ==> Least(s) <= o.date
    ensures exists o :: o in s && o.date == Least(s)
  {
    if |s| == 1 {
      assert s[0] in s;
    } else {
      LeastMeans(s[1..]);
      assert s == [s[0]] + s[1..] && s[0] in s;
      var o :| o in s[1..] && o.date == Least(s[1..]);
      assert o in s;
    }
  }

  // ----- Facts about the point query

  lemma LastObservedSnoc(s: seq<Observation>, o: Observation, cutoff: int)
    ensures LastObserved(s + [o], cutoff) == if ObservedBy(o, cutoff) then o.value else LastObserved(s, cutoff)
  {
    FilterAppend(o' => ObservedBy(o', cutoff), s, [o]);
  }

  /** A point query depends only on what was observed by its cutoff. */
  lemma LastObservedUpTo(s: seq<Observation>, end: int, cutoff: int)
    requires cutoff <= end
    ensures LastObserved(UpTo(s, end), cutoff) == LastObserved(s, cutoff)
  {
    FilterCompose(o => ObservedBy(o, cutoff), (o: Observation) => o.date <= end, o => ObservedBy(o, cutoff), s);
  }

  lemma {:induction false} ValueAtAbsent(s: seq<Observation>, date: int)
    requires forall i :: 0 <= i < |s| ==> s[i].date != date
    ensures ValueAt(s, date) == None
  {
    if s != [] { ValueAtAbsent(s[1..], date); }
  }

  lemma {:induction false} ValueAtSnoc(s: seq<Observation>, o: Observation, date: int)
    requires forall i :: 0 <= i < |s| ==> s[i].date != o.date
    ensures ValueAt(s + [o], date) == if o.date == date then o.value else ValueAt(s, date)
  {
    if s == [] {
      assert ([o])[1..] == [];
    } else {
      assert (s + [o])[1..] == s[1..] + [o];
      ValueAtSnoc(s[1..], o, date);
    }
  }

  /** Moving from one date to a later one with no observation in between, the last observed value
      changes only to a non-null observation of the later date. */
  lemma {:induction false} LastObservedMoves(s: seq<Observation>, from: int, to: int)
    requires Chronological(s) && from < to
    requires forall i :: 0 <= i < |s| ==> s[i].date <= from || s[i].date >= to
    ensures LastObserved(s, to) == if ValueAt(s, to).Some? then ValueAt(s, to) else LastObserved(s, from)
  {
    hide LastObserved, ValueAt;
    if s != [] {
      var front, last := s[..|s| - 1], s[|s| - 1];
      assert s == front + [last];
      LastObservedMoves(front, from, to);
      LastObservedSnoc(front, last, from);
      LastObservedSnoc(front, last, to);
      ValueAtSnoc(front, last, to);
      if last.date == to {
        ValueAtAbsent(front, to);
      } else if last.date < to && last.value.Some? {
        ValueAtAbsent(front, to);
      }
    } else {
      NothingObserved(from, to);
    }
  }

  lemma NothingObserved(from: int, to: int)
    ensures LastObserved([], from) == LastObserved([], to) == ValueAt([], to) == None
  {
  }

  /** Before the first observation there is nothing to see. */
  lemma BeforeFirst(s: seq<Observation>, date: int)
    requires FirstObserved(s).None? || date < FirstObserved(s).value
    ensures LastObserved(s, date) == None
  {
    var observed := Filter((o: Observation) => o.value.Some?, s);
    FilterElements((o: Observation) => o.value.Some?, s);
    FilterElements(o => ObservedBy(o, date), s);
    if observed != [] { LeastMeans(observed); }
    var eligible := Filter(o => ObservedBy(o, date), s);
    forall i | 0 <= i < |s| ensures !ObservedBy(s[i], date) {
      if s[i].value.Some? { assert s[i] in observed; }
    }
    FilterNone(o => ObservedBy(o, date), s);
  }

  // ----- The filled series

  /** The forward fill along a sorted index that contains every observation date. */
  method ForwardFill(s: seq<Observation>, union: seq<int>) returns (aligned: map<int, Option<real>>)
    requires Chronological(s)
    requires forall j, k :: 0 <= j < k < |union| ==> union[j] < union[k]
    requires forall k :: 0 <= k < |s| ==> s[k].date in union
    ensures forall d :: d in union ==> d in aligned && aligned[d] == LastObserved(s, d)
  {
    hide LastObserved, ValueAt;
    aligned := map[];
    var last: Option<real> := None;
    for i := 0 to |union|
      invariant forall k :: 0 <= k < i ==> union[k] in aligned && aligned[union[k]] == LastObserved(s, union[k])
      invariant last == if i == 0 then None else LastObserved(s, union[i - 1])
    {
      var value := ValueAt(s, union[i]);
      AlignedStep(s, union, i);
      if value.Some? { last := value; }
      aligned := aligned[union[i] := last];
    }
  }

  /** The forward fill over the union index, then the reindex to the grid and the mask. */
  method FilledSeries(s: seq<Observation>, dates: seq<int>, end: int) returns (result: seq<Option<real>>)
    requires Chronological(s) && forall i :: 0 <= i < |dates| ==> dates[i] <= end
    ensures |result| == |dates|
    ensures forall i :: 0 <= i < |dates| ==> result[i] == LastObserved(s, dates[i])
  {
    hide Union, UpTo, LastObserved, FirstObserved;
    var known := UpTo(s, end);
    UpToChronological(s, end);
    UnionMeans(known, dates);
    var aligned := ForwardFill(known, Union(known, dates));
    var first := FirstObserved(known);
    result := [];
    for i := 0 to |dates|
      invariant |result| == i
      invariant forall k :: 0 <= k < i ==> result[k] == LastObserved(s, dates[k])
    {
      assert dates[i] in dates;
      LastObservedUpTo(s, end, dates[i]);
      var visible := known == [] || (first.Some? && dates[i] >= first.value);
      if !visible { BeforeFirst(known, dates[i]); }
      result := result + [if visible then aligned[dates[i]] else None];
    }
  }

  /** Without fill the reindex answers only at the observation dates themselves. */
  method UnfilledSeries(s: seq<Observation>, dates: seq<int>, end: int) returns (result: seq<Option<real>>)
    requires Chronological(s) && forall i :: 0 <= i < |dates| ==> dates[i] <= end
    ensures |result| == |dates|
    ensures forall i :: 0 <= i < |dates| ==> result[i] == ValueAt(s, dates[i])
  {
    hide UpTo, ValueAt, FirstObserved;
    var known := UpTo(s, end);
    var first := FirstObserved(known);
    result := [];
    for i := 0 to |dates|
      invariant |result| == i
      invariant forall k :: 0 <= k < i ==> result[k] == ValueAt(s, dates[k])
    {
      ValueAtUpTo(s, end, dates[i]);
      var visible := known == [] || (first.Some? && dates[i] >= first.value);
      if !visible { UnobservedBeforeFirst(known, dates[i]); }
      result := result + [if visible then ValueAt(known, dates[i]) else None];
    }
  }

  lemma {:induction false} ValueAtUpTo(s: seq<Observation>, end: int, date: int)
    requires date <= end
    ensures ValueAt(UpTo(s, end), date) == ValueAt(s, date)
  {
    if s != [] { ValueAtUpTo(s[1..], end, date); }
  }

  lemma {:induction false} ValueAtFound(s: seq<Observation>, date: int)
    ensures ValueAt(s, date).Some? ==> Observation(date, ValueAt(s, date)) in s
  {
    if s != [] && s[0].date != date { ValueAtFound(s[1..], date); }
  }

  lemma UnobservedBeforeFirst(s: seq<Observation>, date: int)
    requires FirstObserved(s).None? || date < FirstObserved(s).value
    ensures ValueAt(s, date) == None
  {
    ValueAtFound(s, date);
    var observed := Filter((o: Observation) => o.value.Some?, s);
    FilterElements((o: Observation) => o.value.Some?, s);
    if observed != [] { LeastMeans(observed); }
    hide ValueAt;
    assert ValueAt(s, date).Some? ==> Observation(date, ValueAt(s, date)) in observed;
  }

  lemma UpToChronological(s: seq<Observation>, end: int)
    requires Chronological(s)
    ensures Chronological(UpTo(s, end)) && forall o :: o in UpTo(s, end) ==> o in s && o.date <= end
  {
    FilterElements((o: Observation) => o.date <= end, s);
    FilterStrictly(s, end);
  }

  lemma {:induction false} FilterStrictly(s: seq<Observation>, end: int)
    requires Chronological(s)
    ensures Chronological(UpTo(s, end))
  {
    if s != [] {
      FilterStrictly(s[1..], end);
      FilterElements((o: Observation) => o.date <= end, s[1..]);
      var rest := UpTo(s[1..], end);
      forall j | 0 <= j < |rest| ensures s[0].date < rest[j].date {
        assert rest[j] in s[1..];
      }
    }
  }

  lemma UnionMeans(s: seq<Observation>, dates: seq<int>)
    ensures forall i, j :: 0 <= i < j < |Union(s, dates)| ==> Union(s, dates)[i] < Union(s, dates)[j]
    ensures forall d :: d in dates ==> d in Union(s, dates)
    ensures forall i :: 0 <= i < |s| ==> s[i].date in Union(s, dates)
  {
    SortedUniqueIncreasing(IntLeq, Map(DateOf, s) + dates);
    forall i | 0 <= i < |s| ensures s[i].date in Union(s, dates) {
      assert (Map(DateOf, s) + dates)[i] == s[i].date;
    }
  }

  /** One step of the forward fill along a sorted index that contains every observation date. */
  lemma AlignedStep(s: seq<Observation>, union: seq<int>, i: nat)
    requires Chronological(s) && i < |union|
    requires forall j, k :: 0 <= j < k < |union| ==> union[j] < union[k]
    requires forall k :: 0 <= k < |s| ==> s[k].date in union
    ensures LastObserved(s, union[i])
         == if ValueAt(s, union[i]).Some? then ValueAt(s, union[i]) else if i == 0 then None
             else LastObserved(s, union[i - 1])
  {
    hide LastObserved, ValueAt;
    var from := if i == 0 then union[0] - 1 else union[i - 1];
    forall k | 0 <= k < |s| ensures s[k].date <= from || s[k].date >= union[i] {
      var j :| 0 <= j < |union| && union[j] == s[k].date;
    }
    LastObservedMoves(s, from, union[i]);
    if i == 0 { NoneBefore(s, union, from); }
  }

  lemma NoneBefore(s: seq<Observation>, union: seq<int>, date: int)
    requires union != [] && date < union[0]
    requires forall j, k :: 0 <= j < k < |union| ==> union[j] < union[k]
    requires forall k :: 0 <= k < |s| ==> s[k].date in union
    ensures LastObserved(s, date) == None
  {
    forall k | 0 <= k < |s| ensures !ObservedBy(s[k], date) {
      var j :| 0 <= j < |union| && union[j] == s[k].date;
    }
    FilterNone(o => ObservedBy(o, date), s);
  }

  // ----- No look-ahead

  /** Two series that agree on what was observed by a date answer every point query up to it alike. */
  lemma LaterObservationsInvisible(s: seq<Observation>, t: seq<Observation>, date: int, cutoff: int)
    requires UpTo(s, date) == UpTo(t, date) && cutoff <= date
    ensures LastObserved(s, cutoff) == LastObserved(t, cutoff)
  {
    LastObservedUpTo(s, date, cutoff);
    LastObservedUpTo(t, date, cutoff);
  }

  // ----- The store

  datatype RawObservation = RawObservation(date: Option<int>, value: Option<real>)

  datatype File = BrokenFile | WithoutRequiredColumns | Parquet(rows: seq<RawObservation>)

  /** Why a read raises: a column is missing, or a reindex meets a repeated date. */
  datatype StoreError = MissingRequiredColumns | RepeatedDates

  function Dated(rows: seq<RawObservation>): seq<Observation> {
    if rows == [] then []
    else (if rows[0].date.Some? then [Observation(rows[0].date.value, rows[0].value)] else []) + Dated(rows[1..])
  }

  /** Undated rows dropped, the rest sorted by date. */
  function SeriesOf(rows: seq<RawObservation>): seq<Observation> {
    SortBy(ByDate, Dated(rows))
  }

  lemma SeriesOfIsSorted(rows: seq<RawObservation>)
    ensures Sorted(ByDate, SeriesOf(rows))
  {
    SortBySorted(ByDate, Dated(rows));
  }

  function LoadedFrom(files: map<string, File>, id: string): Result<Option<seq<Observation>>, StoreError> {
    var key := Text.Upper(id);
    if key !in files || files[key].BrokenFile? then Ok(None)
    else if files[key].WithoutRequiredColumns? then Err(MissingRequiredColumns)
    else Ok(Some(SeriesOf(files[key].rows)))
  }

  /** Rows observed later, added anywhere in a file, change no point query up to the date. */
  lemma AddedRowsInvisible(before: seq<RawObservation>, late: seq<RawObservation>, after: seq<RawObservation>,
                           date: int, cutoff: int)
    requires cutoff <= date && forall i :: 0 <= i < |late| ==> late[i].date.None? || late[i].date.value > date
    ensures LastObserved(SeriesOf(before + late + after), cutoff) == LastObserved(SeriesOf(before + after), cutoff)
  {
    var known := (o: Observation) => o.date <= date;
    DatedAppend(before + late, after);
    DatedAppend(before, late);
    DatedAppend(before, after);
    DatedLate(late, date);
    FilterAppend(known, Dated(before), Dated(late));
    FilterAppend(known, Dated(before) + Dated(late), Dated(after));
    FilterAppend(known, Dated(before), Dated(after));
    FilterNone(known, Dated(late));
    assert Filter(known, Dated(before)) + [] == Filter(known, Dated(before));
    FilterSortCommute(ByDate, known, Dated(before + late + after));
    FilterSortCommute(ByDate, known, Dated(before + after));
    LaterObservationsInvisible(SeriesOf(before + late + after), SeriesOf(before + after), date, cutoff);
  }

  lemma {:induction false} DatedAppend(a: seq<RawObservation>, b: seq<RawObservation>)
    ensures Dated(a + b) == Dated(a) + Dated(b)
  {
    if a == [] {
      assert a + b == b;
    } else {
      assert (a + b)[1..] == a[1..] + b;
      DatedAppend(a[1..], b);
    }
  }

  lemma {:induction false} DatedLate(rows: seq<RawObservation>, date: int)
    requires forall i :: 0 <= i < |rows| ==> rows[i].date.None? || rows[i].date.value > date
    ensures forall i :: 0 <= i < |Dated(rows)| ==> Dated(rows)[i].date > date
  {
    if rows != [] { DatedLate(rows[1..], date); }
  }

  class Store {
    const files: map<string, File>
    var cache: map<string, seq<Observation>>

    ghost predicate Valid()
      reads this
    {
      forall key :: key in cache ==> key in files && files[key].Parquet? && cache[key] == SeriesOf(files[key].rows)
    }

    constructor (files: map<string, File>)
      ensures Valid() && this.files == files && cache == map[]
    {
      this.files := files;
      cache := map[];
    }

    /** `_load`: whether or not the series was cached makes no difference to the answer. */
    method Load(id: string) returns (r: Result<Option<seq<Observation>>, StoreError>)
      requires Valid()
      modifies this`cache
      ensures Valid() && r == LoadedFrom(files, id)
      ensures cache == if r.Ok? && r.value.Some? then old(cache)[Text.Upper(id) := r.value.value] else old(cache)
    {
      var key := Text.Upper(id);
      if key in cache {
        assert cache == cache[key := cache[key]];
        return Ok(Some(cache[key]));
      }
      if key !in files || files[key].BrokenFile? { return Ok(None); }
      if files[key].WithoutRequiredColumns? { return Err(MissingRequiredColumns); }
      var series := SeriesOf(files[key].rows);
      cache := cache[key := series];
      return Ok(Some(series));
    }

    method ClearCache()
      modifies this`cache
      ensures Valid() && cache == map[]
    {
      cache := map[];
    }

    method Get(id: string, asOf: int) returns (r: Result<Option<real>, StoreError>)
      requires Valid()
      modifies this`cache
      ensures Valid()
      ensures match LoadedFrom(files, id)
              case Err(e) => r == Err(e)
              case Ok(None) => r == Ok(None)
              case Ok(Some(s)) => r == Ok(LastObserved(s, asOf))
    {
      hide LastObserved, SeriesOf;
      var loaded :- Load(id);
      if loaded.None? { return Ok(None); }
      return Ok(LastObserved(loaded.value, asOf));
    }

    /** `get_series` over a date grid that ends by `end`: with fill, every grid date gets what `get`
        answers there; a series that repeats a date by `end` cannot be reindexed. */
    method GetSeries(id: string, dates: seq<int>, end: int, fill: bool)
      returns (r: Result<seq<Option<real>>, StoreError>)
      requires Valid() && forall i :: 0 <= i < |dates| ==> dates[i] <= end
      modifies this`cache
      ensures Valid()
      ensures match LoadedFrom(files, id)
              case Err(e) => r == Err(e)
              case Ok(None) => r == Ok([])
              case Ok(Some(s)) =>
                if !DistinctDates(UpTo(s, end)) then r == Err(RepeatedDates)
                else r.Ok? && |r.value| == |dates| && forall i :: 0 <= i < |dates| ==>
                       r.value[i] == if fill then LastObserved(s, dates[i]) else ValueAt(s, dates[i])
    {
      hide LastObserved, ValueAt, SeriesOf, DistinctDates;
      var loaded :- Load(id);
      if loaded.None? { return Ok([]); }
      var known := UpTo(loaded.value, end);
      if !DistinctDates(known) { return Err(RepeatedDates); }
      LoadedIsSorted(files, id);
      KnownIsChronological(loaded.value, end);
      forall i | 0 <= i < |dates|
        ensures LastObserved(known, dates[i]) == LastObserved(loaded.value, dates[i])
                && ValueAt(known, dates[i]) == ValueAt(loaded.value, dates[i])
      {
        LastObservedUpTo(loaded.value, end, dates[i]);
        ValueAtUpTo(loaded.value, end, dates[i]);
      }
      var result: seq<Option<real>>;
      if fill { result := FilledSeries(known, dates, end); } else { result := UnfilledSeries(known, dates, end); }
      return Ok(result);
    }
  }

  lemma LoadedIsSorted(files: map<string, File>, id: string)
    ensures LoadedFrom(files, id).Ok? && LoadedFrom(files, id).value.Some? ==>
              Sorted(ByDate, LoadedFrom(files, id).value.value)
  {
    var key := Text.Upper(id);
    if key in files && files[key].Parquet? { SeriesOfIsSorted(files[key].rows); }
  }

  lemma KnownIsChronological(s: seq<Observation>, end: int)
    requires Sorted(ByDate, s) && DistinctDates(UpTo(s, end))
    ensures Chronological(UpTo(s, end))
  {
    FilterSorted(ByDate, (o: Observation) => o.date <= end, s);
    var known := UpTo(s, end);
    forall i, j | 0 <= i < j < |known| ensures known[i].date < known[j].date {
      assert ByDate(known[i], known[j]);
    }
  }
}
