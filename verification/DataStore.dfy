/** The point-in-time store of fundamental filings (datastore.py): point, bulk and trailing-sum
    queries, their specifications, and the guarantee that no query looks ahead. */
module DataStore {
  import opened Wrappers
  import opened Sequences
  import opened Grid
  import Text

  /** One filed value.  Dates are day numbers; a missing period or value is `None`. */
  datatype Filing = Filing(filed: int, periodStart: Option<int>, periodEnd: Option<int>, tag: string, form: string,
                           value: Option<real>)

  /** A loaded table: the rows with a usable filing date. */
  datatype Table = Table(hasPeriodStart: bool, rows: seq<Filing>)

  const ANNUAL_FORMS := {"10-K"}
  const ALL_FORMS := {"10-K", "10-Q"}
  const REVENUE_TAGS := ["RevenueFromContractWithCustomerExcludingAssessedTax", "SalesRevenueNet", "Revenues"]
  const EQUITY_TAGS := ["StockholdersEquity", "StockholdersEquityIncludingPortionAttributableToNoncontrollingInterest"]
  const DEBT_TAGS := ["LongTermDebt", "LongTermDebtNoncurrent"]

  // ----- Point query

  predicate ByFiled(a: Filing, b: Filing) {
    a.filed <= b.filed
  }

  predicate Matches(r: Filing, tag: string, forms: set<string>) {
    r.tag == tag && r.form in forms
  }

  predicate IsEligible(r: Filing, tag: string, cutoff: int, forms: set<string>) {
    Matches(r, tag, forms) && r.filed <= cutoff
  }

  function Eligible(rows: seq<Filing>, tag: string, cutoff: int, forms: set<string>): seq<Filing> {
    Filter(r => IsEligible(r, tag, cutoff, forms), rows)
  }

  function LastValue(rows: seq<Filing>): Option<real> {
    if rows == [] then None else rows[|rows| - 1].value
  }

  /** `get` on a loaded table. */
  function PointValue(t: Table, tag: string, cutoff: int, forms: set<string>): Option<real> {
    LastValue(SortBy(ByFiled, Eligible(t.rows, tag, cutoff, forms)))
  }

  /** A point query answers with the value of the latest eligible filing: of the greatest filing date
      and, within it, latest in the table; a null value there is not skipped. */
  lemma PointIsLatest(t: Table, tag: string, cutoff: int, forms: set<string>)
    ensures var eligible := Eligible(t.rows, tag, cutoff, forms);
            if eligible == [] then PointValue(t, tag, cutoff, forms) == None
            else exists r :: IsLatest(ByFiled, eligible, r) && PointValue(t, tag, cutoff, forms) == r.value
    ensures forall r :: r in Eligible(t.rows, tag, cutoff, forms) <==> r in t.rows && IsEligible(r, tag, cutoff, forms)
  {
    FilterElements(r => IsEligible(r, tag, cutoff, forms), t.rows);
    var eligible := Eligible(t.rows, tag, cutoff, forms);
    if eligible != [] { LastOfSortIsLatest(ByFiled, eligible); }
  }

  // ----- Bulk query

  /** What the bulk query keeps for all its dates. */
  function Subset(t: Table, tag: string, forms: set<string>): seq<Filing> {
    SortBy(ByFiled, Filter(r => Matches(r, tag, forms), t.rows))
  }

  /** `values[filed_dates <= d][-1]` */
  function SeriesValue(subset: seq<Filing>, date: int): Option<real> {
    LastValue(Filter((r: Filing) => r.filed <= date, subset))
  }

  /** Bulk equals pointwise: masking the sorted table at a date answers the point query at that date. */
  lemma BulkIsPointwise(t: Table, tag: string, forms: set<string>, date: int)
    ensures SeriesValue(Subset(t, tag, forms), date) == PointValue(t, tag, date, forms)
  {
    var matching := Filter(r => Matches(r, tag, forms), t.rows);
    FilterSortCommute(ByFiled, (r: Filing) => r.filed <= date, matching);
    FilterCompose((r: Filing) => r.filed <= date, r => Matches(r, tag, forms), r => IsEligible(r, tag, date, forms),
                  t.rows);
  }

  // ----- Trailing twelve months

  predicate SingleQuarter(r: Filing) {
    r.periodStart.Some? && r.periodEnd.Some? && 60 <= r.periodEnd.value - r.periodStart.value <= 120
  }

  /** The eligible quarterly rows; cumulative rows go when the table tells spans. */
  function Quarterly(t: Table, tag: string, cutoff: int): seq<Filing> {
    var rows := Eligible(t.rows, tag, cutoff, {"10-Q"});
    if t.hasPeriodStart && rows != [] then Filter(SingleQuarter, rows) else rows
  }

  /** Only single quarters of the tag from quarterly reports filed by the cutoff; all of them. */
  lemma QuarterlyMeans(t: Table, tag: string, cutoff: int)
    ensures forall r :: r in Quarterly(t, tag, cutoff) <==>
              r in t.rows && r.tag == tag && r.form == "10-Q" && r.filed <= cutoff
                  && (t.hasPeriodStart ==> SingleQuarter(r))
  {
    var rows := Eligible(t.rows, tag, cutoff, {"10-Q"});
    FilterElements(r => IsEligible(r, tag, cutoff, {"10-Q"}), t.rows);
    FilterElements(SingleQuarter, rows);
    assert forall r :: r in rows <==> r in t.rows && IsEligible(r, tag, cutoff, {"10-Q"});
    hide SingleQuarter;
  }

  function EndOf(r: Filing): Option<int> { r.periodEnd }

  /** Quarter ends in order, a missing one last. */
  predicate EndLeq(a: Option<int>, b: Option<int>) {
    b.None? || (a.Some? && a.value <= b.value)
  }

  predicate ByEnd(a: Filing, b: Filing) {
    EndLeq(a.periodEnd, b.periodEnd)
  }

  /** `drop_duplicates(subset=['period_end'], keep='last')` */
  function KeepLast(rows: seq<Filing>): seq<Filing> {
    if rows == [] then []
    else if rows[0].periodEnd in Map(EndOf, rows[1..]) then KeepLast(rows[1..])
    else [rows[0]] + KeepLast(rows[1..])
  }

  function Tail<T>(s: seq<T>, n: nat): seq<T> {
    if |s| <= n then s else s[|s| - n..]
  }

  /** One row for each quarter end, by quarter end. */
  function Quarters(rows: seq<Filing>): seq<Filing> {
    SortBy(ByEnd, KeepLast(SortBy(ByFiled, rows)))
  }

  function AllValues(rows: seq<Filing>): Option<seq<real>> {
    if forall i :: 0 <= i < |rows| ==> rows[i].value.Some?
    then Some(Map((r: Filing) => r.value.GetOr(0.0), rows)) else None
  }

  function SumValues(rows: seq<Filing>): Option<real> {
    match AllValues(rows)
    case Some(values) => Some(Sum(values))
    case None => None
  }

  /** `get_ttm` on a loaded table. */
  function TrailingValue(t: Table, tag: string, cutoff: int): Option<real> {
    var four := Tail(Quarters(Quarterly(t, tag, cutoff)), 4);
    if |four| == 4 then SumValues(four) else PointValue(t, tag, cutoff, ANNUAL_FORMS)
  }

  // ----- The specification of the trailing sum

  /** The rows of one quarter end. */
  function OfEnd(rows: seq<Filing>, end: Option<int>): seq<Filing> {
    Filter((r: Filing) => r.periodEnd == end, rows)
  }

  /** The latest filed row of a quarter end. */
  function LatestOf(rows: seq<Filing>, end: Option<int>): Option<Filing> {
    var filed := SortBy(ByFiled, OfEnd(rows, end));
    if filed == [] then None else Some(filed[|filed| - 1])
  }

  /** The distinct quarter ends, in order. */
  function Ends(rows: seq<Filing>): seq<Option<int>> {
    SortedUnique(EndLeq, Map(EndOf, rows))
  }

  /** The sum, over the four greatest eligible quarter ends, of the latest filed value; the latest
      annual value exactly when there are fewer than four. */
  function TrailingSpec(t: Table, tag: string, cutoff: int): Option<real> {
    var rows := Quarterly(t, tag, cutoff);
    var ends := Ends(rows);
    if |ends| < 4 then PointValue(t, tag, cutoff, ANNUAL_FORMS)
    else
      var latest := Map(e => LatestOf(rows, e), ends[|ends| - 4..]);
      if forall i :: 0 <= i < 4 ==> latest[i].Some? && latest[i].value.value.Some?
      then Some(Sum(Map((f: Option<Filing>) => if f.Some? then f.value.value.GetOr(0.0) else 0.0, latest)))
      else None
  }

  function LastOf(rows: seq<Filing>): Option<Filing> {
    if rows == [] then None else Some(rows[|rows| - 1])
  }

  ghost predicate DistinctEnds(rows: seq<Filing>) {
    forall i, j :: 0 <= i < j < |rows| ==> rows[i].periodEnd != rows[j].periodEnd
  }

  predicate HasEnd(rows: seq<Filing>, end: Option<int>) {
    end in Map(EndOf, rows)
  }

  lemma HasEndCons(rows: seq<Filing>)
    requires rows != []
    ensures forall e :: HasEnd(rows, e) <==> e == rows[0].periodEnd || HasEnd(rows[1..], e)
  {
    assert Map(EndOf, rows) == [rows[0].periodEnd] + Map(EndOf, rows[1..]);
  }

  lemma HasEndAt(rows: seq<Filing>, i: nat)
    requires i < |rows|
    ensures HasEnd(rows, rows[i].periodEnd)
  {
    assert Map(EndOf, rows)[i] == rows[i].periodEnd;
  }

  lemma OfEndCons(rows: seq<Filing>, e: Option<int>)
    requires rows != []
    ensures OfEnd(rows, e) == (if rows[0].periodEnd == e then [rows[0]] else []) + OfEnd(rows[1..], e)
  {
  }

  lemma {:induction false} OfEndEmpty(rows: seq<Filing>, e: Option<int>)
    ensures OfEnd(rows, e) == [] <==> !HasEnd(rows, e)
  {
    hide HasEnd;
    if rows != [] {
      HasEndCons(rows);
      OfEndCons(rows, e);
      OfEndEmpty(rows[1..], e);
    } else {
      NoEnds(e);
    }
  }

  lemma NoEnds(e: Option<int>)
    ensures !HasEnd([], e)
  {
  }

  /** Deduplication keeps every quarter end, once. */
  lemma {:induction false} KeepLastEnds(rows: seq<Filing>)
    ensures forall e :: HasEnd(KeepLast(rows), e) <==> HasEnd(rows, e)
    ensures DistinctEnds(KeepLast(rows))
  {
    if rows != [] {
      var x, kept := rows[0], KeepLast(rows[1..]);
      KeepLastEnds(rows[1..]);
      HasEndCons(rows);
      if !HasEnd(rows[1..], x.periodEnd) {
        HasEndCons([x] + kept);
        forall j | 0 <= j < |kept| ensures x.periodEnd != kept[j].periodEnd { HasEndAt(kept, j); }
      }
      hide HasEnd;
    }
  }

  /** What it keeps of a quarter end is the last row of that end. */
  lemma {:induction false} KeptIsLast(rows: seq<Filing>, i: nat)
    requires i < |KeepLast(rows)|
    ensures LastOf(OfEnd(rows, KeepLast(rows)[i].periodEnd)) == Some(KeepLast(rows)[i])
  {
    var x, rest := rows[0], rows[1..];
    var r := KeepLast(rows)[i];
    OfEndCons(rows, r.periodEnd);
    OfEndEmpty(rest, r.periodEnd);
    if HasEnd(rest, x.periodEnd) {
      KeptIsLast(rest, i);
    } else if i > 0 {
      KeptIsLast(rest, i - 1);
    }
    hide OfEnd;
  }

  lemma EndLeqTotal()
    ensures TotalOrder(EndLeq) && TotalPreorder(ByEnd) && TotalPreorder(ByFiled)
  {
  }

  /** The quarters are exactly the distinct quarter ends in order, each with its latest filed row. */
  lemma QuartersMean(rows: seq<Filing>)
    ensures Map(EndOf, Quarters(rows)) == Ends(rows)
    ensures forall i :: 0 <= i < |Quarters(rows)| ==>
              LatestOf(rows, Quarters(rows)[i].periodEnd) == Some(Quarters(rows)[i])
  {
    hide KeepLast, OfEnd, HasEnd, SortBy;
    EndLeqTotal();
    var filed := SortBy(ByFiled, rows);
    var kept := KeepLast(filed);
    var quarters := SortBy(ByEnd, kept);
    SortByElements(ByEnd, kept);
    forall i | 0 <= i < |quarters| ensures LatestOf(rows, quarters[i].periodEnd) == Some(quarters[i]) {
      assert quarters[i] in kept;
      var k :| 0 <= k < |kept| && kept[k] == quarters[i];
      KeptIsLast(filed, k);
      LatestIsLast(rows, quarters[i].periodEnd);
    }
    QuarterEnds(rows);
  }

  lemma LatestIsLast(rows: seq<Filing>, e: Option<int>)
    ensures LastOf(OfEnd(SortBy(ByFiled, rows), e)) == LatestOf(rows, e)
  {
    FilterSortCommute(ByFiled, (r: Filing) => r.periodEnd == e, rows);
  }

  lemma SortKeepsEnds(leq: (Filing, Filing) -> bool, rows: seq<Filing>)
    ensures forall e :: HasEnd(SortBy(leq, rows), e) <==> HasEnd(rows, e)
  {
    SortByElements(leq, rows);
    var sorted := SortBy(leq, rows);
    forall e ensures HasEnd(sorted, e) <==> HasEnd(rows, e) {
      if HasEnd(rows, e) {
        var i :| 0 <= i < |rows| && Map(EndOf, rows)[i] == e;
        assert rows[i] in sorted;
        var j :| 0 <= j < |sorted| && sorted[j] == rows[i];
        HasEndAt(sorted, j);
      }
      if HasEnd(sorted, e) {
        var i :| 0 <= i < |sorted| && Map(EndOf, sorted)[i] == e;
        assert sorted[i] in rows;
        var j :| 0 <= j < |rows| && rows[j] == sorted[i];
        HasEndAt(rows, j);
      }
    }
  }

  lemma QuarterEnds(rows: seq<Filing>)
    ensures Map(EndOf, Quarters(rows)) == Ends(rows)
  {
    hide KeepLast, SortBy, HasEnd;
    EndLeqTotal();
    var filed := SortBy(ByFiled, rows);
    var kept := KeepLast(filed);
    var quarters := SortBy(ByEnd, kept);
    SortKeepsEnds(ByFiled, rows);
    KeepLastEnds(filed);
    SortKeepsEnds(ByEnd, kept);
    SortBySorted(ByEnd, kept);
    SortByDistinct(ByEnd, EndOf, kept);
    SortedUniqueIncreasing(EndLeq, Map(EndOf, rows));
    var ends := Map(EndOf, quarters);
    assert Increasing(EndLeq, ends) by {
      forall i, j | 0 <= i < j < |ends| ensures EndLeq(ends[i], ends[j]) && ends[i] != ends[j] {
        assert ByEnd(quarters[i], quarters[j]) && EndOf(quarters[i]) != EndOf(quarters[j]);
      }
    }
    forall e ensures e in ends <==> e in Ends(rows) {
      HasEndMeans(quarters, e);
      HasEndMeans(rows, e);
    }
    IncreasingUnique(EndLeq, ends, Ends(rows));
  }

  lemma HasEndMeans(rows: seq<Filing>, e: Option<int>)
    ensures HasEnd(rows, e) <==> e in Map(EndOf, rows)
  {
  }

  /** The pipeline of sort, deduplicate, sort and tail refines the specification. */
  lemma TrailingIsSpec(t: Table, tag: string, cutoff: int)
    ensures TrailingValue(t, tag, cutoff) == TrailingSpec(t, tag, cutoff)
  {
    hide Quarterly, PointValue, Quarters, LatestOf, Ends;
    var rows := Quarterly(t, tag, cutoff);
    var quarters, ends := Quarters(rows), Ends(rows);
    QuartersMean(rows);
    if |ends| >= 4 {
      var four, last := Tail(quarters, 4), ends[|ends| - 4..];
      var latest := Map(e => LatestOf(rows, e), last);
      forall i | 0 <= i < 4 ensures latest[i] == Some(four[i]) {
        assert four[i] == quarters[|quarters| - 4 + i];
        assert last[i] == Map(EndOf, quarters)[|quarters| - 4 + i];
      }
      assert Map((f: Option<Filing>) => if f.Some? then f.value.value.GetOr(0.0) else 0.0, latest)
          == Map((r: Filing) => r.value.GetOr(0.0), four);
    }
  }

  // ----- Derived ratios

  /** `get_with_fallback`: the first tag with a value. */
  function FirstValue(t: Table, tags: seq<string>, cutoff: int): (Option<real>, Option<string>) {
    if tags == [] then (None, None)
    else
      var v := PointValue(t, tags[0], cutoff, ALL_FORMS);
      if v.Some? then (v, Some(tags[0])) else FirstValue(t, tags[1..], cutoff)
  }

  function FirstTrailing(t: Table, tags: seq<string>, cutoff: int): Option<real> {
    if tags == [] then None
    else
      var v := TrailingValue(t, tags[0], cutoff);
      if v.Some? then v else FirstTrailing(t, tags[1..], cutoff)
  }

  function Quotient(a: Option<real>, b: Option<real>): Option<real> {
    if a.None? || b.None? || b.value == 0.0 then None else Some(a.value / b.value)
  }

  function Clip(x: real): (r: real)
    ensures -0.5 <= r <= 0.5 && (-0.5 <= x <= 0.5 ==> r == x)
  {
    Max(-0.5, Min(0.5, x))
  }

  function Roe(t: Table, cutoff: int): Option<real> {
    Quotient(TrailingValue(t, "NetIncomeLoss", cutoff), FirstValue(t, EQUITY_TAGS, cutoff).0)
  }

  function GrossMargin(t: Table, cutoff: int): Option<real> {
    Quotient(TrailingValue(t, "GrossProfit", cutoff), FirstTrailing(t, REVENUE_TAGS, cutoff))
  }

  function AccrualsRatio(t: Table, cutoff: int): Option<real> {
    var income := TrailingValue(t, "NetIncomeLoss", cutoff);
    var flow := TrailingValue(t, "NetCashProvidedByUsedInOperatingActivities", cutoff);
    var assets := PointValue(t, "Assets", cutoff, ALL_FORMS);
    if income.None? || flow.None? || assets.None? || assets.value <= 0.0 then None
    else Some(Clip((income.value - flow.value) / assets.value))
  }

  function DebtEquity(t: Table, cutoff: int): Option<real> {
    Quotient(FirstValue(t, DEBT_TAGS, cutoff).0, FirstValue(t, EQUITY_TAGS, cutoff).0)
  }

  // ----- No look-ahead

  /** The rows filed by a date, in table order. */
  function Known(rows: seq<Filing>, date: int): seq<Filing> {
    Filter((r: Filing) => r.filed <= date, rows)
  }

  ghost predicate SameKnown(s: Table, t: Table, date: int) {
    s.hasPeriodStart == t.hasPeriodStart && Known(s.rows, date) == Known(t.rows, date)
  }

  /** Rows filed later, inserted anywhere, change nothing that is known. */
  lemma LateRowsUnknown(before: seq<Filing>, late: seq<Filing>, after: seq<Filing>, date: int)
    requires forall r :: r in late ==> r.filed > date
    ensures Known(before + late + after, date) == Known(before + after, date)
  {
    var keep := (r: Filing) => r.filed <= date;
    FilterAppend(keep, before, late);
    FilterAppend(keep, before + late, after);
    FilterAppend(keep, before, after);
    FilterNone(keep, late);
    assert Filter(keep, before) + [] == Filter(keep, before);
  }

  lemma KnownEarlier(rows: seq<Filing>, date: int, cutoff: int)
    requires cutoff <= date
    ensures Known(Known(rows, date), cutoff) == Known(rows, cutoff)
  {
    FilterCompose((r: Filing) => r.filed <= cutoff, (r: Filing) => r.filed <= date, (r: Filing) => r.filed <= cutoff,
                  rows);
  }

  lemma EligibleIsKnown(rows: seq<Filing>, tag: string, cutoff: int, forms: set<string>)
    ensures Eligible(rows, tag, cutoff, forms) == Filter(r => Matches(r, tag, forms), Known(rows, cutoff))
  {
    FilterCompose(r => Matches(r, tag, forms), (r: Filing) => r.filed <= cutoff, r => IsEligible(r, tag, cutoff, forms),
                  rows);
  }

  lemma SameEligible(s: Table, t: Table, date: int, tag: string, cutoff: int, forms: set<string>)
    requires SameKnown(s, t, date) && cutoff <= date
    ensures Eligible(s.rows, tag, cutoff, forms) == Eligible(t.rows, tag, cutoff, forms)
  {
    hide Known, Eligible;
    KnownEarlier(s.rows, date, cutoff);
    KnownEarlier(t.rows, date, cutoff);
    EligibleIsKnown(s.rows, tag, cutoff, forms);
    EligibleIsKnown(t.rows, tag, cutoff, forms);
  }

  lemma SamePoint(s: Table, t: Table, date: int, tag: string, cutoff: int, forms: set<string>)
    requires SameKnown(s, t, date) && cutoff <= date
    ensures PointValue(s, tag, cutoff, forms) == PointValue(t, tag, cutoff, forms)
  {
    hide Eligible;
    SameEligible(s, t, date, tag, cutoff, forms);
  }

  lemma SameTrailing(s: Table, t: Table, date: int, tag: string, cutoff: int)
    requires SameKnown(s, t, date) && cutoff <= date
    ensures TrailingValue(s, tag, cutoff) == TrailingValue(t, tag, cutoff)
  {
    hide Eligible, PointValue, Quarters, Known;
    SameEligible(s, t, date, tag, cutoff, {"10-Q"});
    SamePoint(s, t, date, tag, cutoff, ANNUAL_FORMS);
  }

  lemma {:induction false} SameFallbacks(s: Table, t: Table, date: int, tags: seq<string>, cutoff: int)
    requires SameKnown(s, t, date) && cutoff <= date
    ensures FirstValue(s, tags, cutoff) == FirstValue(t, tags, cutoff)
    ensures FirstTrailing(s, tags, cutoff) == FirstTrailing(t, tags, cutoff)
  {
    hide PointValue, TrailingValue, SameKnown;
    if tags != [] {
      SamePoint(s, t, date, tags[0], cutoff, ALL_FORMS);
      SameTrailing(s, t, date, tags[0], cutoff);
      SameFallbacks(s, t, date, tags[1..], cutoff);
    }
  }

  /** No query looks ahead: two tables that agree on what was filed by a date answer every point,
      trailing and ratio query up to that date alike. */
  lemma NoLookAhead(s: Table, t: Table, date: int, cutoff: int)
    requires SameKnown(s, t, date) && cutoff <= date
    ensures forall tag, forms :: PointValue(s, tag, cutoff, forms) == PointValue(t, tag, cutoff, forms)
    ensures forall tag :: TrailingValue(s, tag, cutoff) == TrailingValue(t, tag, cutoff)
    ensures Roe(s, cutoff) == Roe(t, cutoff) && GrossMargin(s, cutoff) == GrossMargin(t, cutoff)
    ensures AccrualsRatio(s, cutoff) == AccrualsRatio(t, cutoff) && DebtEquity(s, cutoff) == DebtEquity(t, cutoff)
  {
    hide PointValue, TrailingValue, SameKnown, FirstValue, FirstTrailing, Quotient, Clip;
    forall tag, forms ensures PointValue(s, tag, cutoff, forms) == PointValue(t, tag, cutoff, forms) {
      SamePoint(s, t, date, tag, cutoff, forms);
    }
    forall tag ensures TrailingValue(s, tag, cutoff) == TrailingValue(t, tag, cutoff) {
      SameTrailing(s, t, date, tag, cutoff);
    }
    SameFallbacks(s, t, date, EQUITY_TAGS, cutoff);
    SameFallbacks(s, t, date, DEBT_TAGS, cutoff);
    SameFallbacks(s, t, date, REVENUE_TAGS, cutoff);
  }

  // ----- The store

  datatype RawFiling = RawFiling(filed: Option<int>, periodStart: Option<int>, periodEnd: Option<int>, tag: string,
                                 form: string, value: Option<real>)

  datatype File = BrokenFile | WithoutRequiredColumns | Parquet(hasPeriodStart: bool, rows: seq<RawFiling>)

  datatype StoreError = MissingRequiredColumns

  /** Rows without a usable filing date are dropped. */
  function Cleaned(rows: seq<RawFiling>): seq<Filing> {
    if rows == [] then []
    else
      var r := rows[0];
      (if r.filed.Some? then [Filing(r.filed.value, r.periodStart, r.periodEnd, r.tag, r.form, r.value)] else [])
          + Cleaned(rows[1..])
  }

  function LoadedFrom(files: map<string, File>, ticker: string): Result<Option<Table>, StoreError> {
    var key := Text.Upper(ticker);
    if key !in files || files[key].BrokenFile? then Ok(None)
    else if files[key].WithoutRequiredColumns? then Err(MissingRequiredColumns)
    else Ok(Some(Table(files[key].hasPeriodStart, Cleaned(files[key].rows))))
  }

  /** The answer to a query, `nothing` for a ticker without a table. */
  function Answer<A>(files: map<string, File>, ticker: string, nothing: A, query: Table -> A): Result<A, StoreError> {
    match LoadedFrom(files, ticker)
    case Err(_) => Err(MissingRequiredColumns)
    case Ok(None) => Ok(nothing)
    case Ok(Some(t)) => Ok(query(t))
  }

  class Store {
    const files: map<string, File>
    var cache: map<string, Table>

    /** The cache holds what loading the file again would give. */
    ghost predicate Valid()
      reads this
    {
      forall key :: key in cache ==>
        && key in files && files[key].Parquet?
        && cache[key] == Table(files[key].hasPeriodStart, Cleaned(files[key].rows))
    }

    constructor (files: map<string, File>)
      ensures Valid() && this.files == files && cache == map[]
    {
      this.files := files;
      cache := map[];
    }

    /** `_load`: whether or not the table was cached makes no difference to the answer. */
    method Load(ticker: string) returns (r: Result<Option<Table>, StoreError>)
      requires Valid()
      modifies this`cache
      ensures Valid() && r == LoadedFrom(files, ticker)
      ensures cache == if r.Ok? && r.value.Some? then old(cache)[Text.Upper(ticker) := r.value.value] else old(cache)
    {
      var key := Text.Upper(ticker);
      if key in cache {
        assert cache == cache[key := cache[key]];
        return Ok(Some(cache[key]));
      }
      if key !in files || files[key].BrokenFile? { return Ok(None); }
      if files[key].WithoutRequiredColumns? { return Err(MissingRequiredColumns); }
      var table := Table(files[key].hasPeriodStart, Cleaned(files[key].rows));
      cache := cache[key := table];
      return Ok(Some(table));
    }

    method ClearCache()
      modifies this`cache
      ensures Valid() && cache == map[]
    {
      cache := map[];
    }

    method Get(ticker: string, tag: string, asOf: int, forms: set<string>, annualOnly: bool)
      returns (r: Result<Option<real>, StoreError>)
      requires Valid()
      modifies this`cache
      ensures Valid()
      ensures r == Answer(files, ticker, None, t => PointValue(t, tag, asOf, if annualOnly then ANNUAL_FORMS
                                                               else forms))
    {
      var loaded :- Load(ticker);
      if loaded.None? { return Ok(None); }
      return Ok(PointValue(loaded.value, tag, asOf, if annualOnly then ANNUAL_FORMS else forms));
    }

    /** `get_series` on a date grid: the loop over the dates answers what `get` answers at each date.
        A ticker without a table has an empty series. */
    method GetSeries(ticker: string, tag: string, dates: seq<int>, forms: set<string>, annualOnly: bool)
      returns (r: Result<seq<Option<real>>, StoreError>)
      requires Valid()
      modifies this`cache
      ensures Valid()
      ensures r.Err? <==> LoadedFrom(files, ticker).Err?
      ensures r.Ok? && LoadedFrom(files, ticker).value.None? ==> r.value == []
      ensures r.Ok? && LoadedFrom(files, ticker).value.Some? ==>
                |r.value| == |dates| && forall i :: 0 <= i < |dates| ==>
                  Ok(r.value[i]) == Answer(files, ticker, None, t =>
                    PointValue(t, tag, dates[i], if annualOnly then ANNUAL_FORMS else forms))
    {
      hide Subset, SeriesValue, PointValue, Cleaned;
      var chosen := if annualOnly then ANNUAL_FORMS else forms;
      var loaded :- Load(ticker);
      if loaded.None? { return Ok([]); }
      var subset := Subset(loaded.value, tag, chosen);
      var result: seq<Option<real>> := [];
      for i := 0 to |dates|
        invariant Valid() && |result| == i
        invariant forall k :: 0 <= k < i ==> result[k] == PointValue(loaded.value, tag, dates[k], chosen)
      {
        BulkIsPointwise(loaded.value, tag, chosen, dates[i]);
        result := result + [SeriesValue(subset, dates[i])];
      }
      return Ok(result);
    }

    /** `get_ttm`; its answer is the one the specification asks for. */
    method GetTtm(ticker: string, tag: string, asOf: int) returns (r: Result<Option<real>, StoreError>)
      requires Valid()
      modifies this`cache
      ensures Valid() && r == Answer(files, ticker, None, t => TrailingValue(t, tag, asOf))
      ensures r == Answer(files, ticker, None, t => TrailingSpec(t, tag, asOf))
    {
      hide TrailingSpec, Quarterly, Quarters, PointValue, Cleaned;
      var loaded :- Load(ticker);
      if loaded.None? { return Ok(None); }
      TrailingIsSpec(loaded.value, tag, asOf);
      var four := Tail(Quarters(Quarterly(loaded.value, tag, asOf)), 4);
      if |four| == 4 { return Ok(SumValues(four)); }
      return Ok(PointValue(loaded.value, tag, asOf, ANNUAL_FORMS));
    }

    method GetWithFallback(ticker: string, tags: seq<string>, asOf: int)
      returns (r: Result<(Option<real>, Option<string>), StoreError>)
      requires Valid()
      modifies this`cache
      ensures Valid()
      ensures r == if tags == [] then Ok((None, None))
                   else Answer(files, ticker, (None, None), t => FirstValue(t, tags, asOf))
    {
      hide PointValue, Cleaned, LoadedFrom;
      for i := 0 to |tags|
        invariant Valid()
        invariant i > 0 ==> LoadedFrom(files, ticker).Ok?
        invariant i > 0 && LoadedFrom(files, ticker).value.Some? ==>
                    var t := LoadedFrom(files, ticker).value.value;
                    FirstValue(t, tags, asOf) == FirstValue(t, tags[i..], asOf)
      {
        var value := Get(ticker, tags[i], asOf, ALL_FORMS, false);
        if value.Err? { return Err(MissingRequiredColumns); }
        if value.value.Some? { return Ok((value.value, Some(tags[i]))); }
        assert tags[i..][1..] == tags[i + 1..];
      }
      return Ok((None, None));
    }

    method GetRevenueTtm(ticker: string, asOf: int) returns (r: Result<Option<real>, StoreError>)
      requires Valid()
      modifies this`cache
      ensures Valid() && r == Answer(files, ticker, None, t => FirstTrailing(t, REVENUE_TAGS, asOf))
    {
      hide TrailingValue, TrailingSpec, Cleaned, LoadedFrom;
      for i := 0 to |REVENUE_TAGS|
        invariant Valid()
        invariant i > 0 ==> LoadedFrom(files, ticker).Ok?
        invariant i > 0 && LoadedFrom(files, ticker).value.Some? ==>
                    var t := LoadedFrom(files, ticker).value.value;
                    FirstTrailing(t, REVENUE_TAGS, asOf) == FirstTrailing(t, REVENUE_TAGS[i..], asOf)
      {
        var value := GetTtm(ticker, REVENUE_TAGS[i], asOf);
        if value.Err? { return Err(MissingRequiredColumns); }
        if value.value.Some? { return value; }
        assert REVENUE_TAGS[i..][1..] == REVENUE_TAGS[i + 1..];
      }
      return Ok(None);
    }

    method GetRoe(ticker: string, asOf: int) returns (r: Result<Option<real>, StoreError>)
      requires Valid()
      modifies this`cache
      ensures Valid() && r == Answer(files, ticker, None, t => Roe(t, asOf))
    {
      hide TrailingValue, TrailingSpec, FirstValue, LoadedFrom;
      var income := GetTtm(ticker, "NetIncomeLoss", asOf);
      var equity := GetWithFallback(ticker, EQUITY_TAGS, asOf);
      if income.Err? || equity.Err? { return Err(MissingRequiredColumns); }
      if income.value.None? || equity.value.0.None? || equity.value.0.value == 0.0 { return Ok(None); }
      return Ok(Some(income.value.value / equity.value.0.value));
    }

    method GetGrossMargin(ticker: string, asOf: int) returns (r: Result<Option<real>, StoreError>)
      requires Valid()
      modifies this`cache
      ensures Valid() && r == Answer(files, ticker, None, t => GrossMargin(t, asOf))
    {
      hide TrailingValue, TrailingSpec, FirstTrailing, LoadedFrom;
      var profit := GetTtm(ticker, "GrossProfit", asOf);
      var revenue := GetRevenueTtm(ticker, asOf);
      if profit.Err? || revenue.Err? { return Err(MissingRequiredColumns); }
      if profit.value.None? || revenue.value.None? || revenue.value.value == 0.0 { return Ok(None); }
      return Ok(Some(profit.value.value / revenue.value.value));
    }

    method GetAccrualsRatio(ticker: string, asOf: int) returns (r: Result<Option<real>, StoreError>)
      requires Valid()
      modifies this`cache
      ensures Valid() && r == Answer(files, ticker, None, t => AccrualsRatio(t, asOf))
    {
      hide TrailingValue, TrailingSpec, PointValue, LoadedFrom;
      var income := GetTtm(ticker, "NetIncomeLoss", asOf);
      var flow := GetTtm(ticker, "NetCashProvidedByUsedInOperatingActivities", asOf);
      var assets := Get(ticker, "Assets", asOf, ALL_FORMS, false);
      if income.Err? || flow.Err? || assets.Err? { return Err(MissingRequiredColumns); }
      if income.value.None? || flow.value.None? { return Ok(None); }
      if assets.value.None? || assets.value.value <= 0.0 { return Ok(None); }
      return Ok(Some(Clip((income.value.value - flow.value.value) / assets.value.value)));
    }

    method GetDebtEquityRatio(ticker: string, asOf: int) returns (r: Result<Option<real>, StoreError>)
      requires Valid()
      modifies this`cache
      ensures Valid() && r == Answer(files, ticker, None, t => DebtEquity(t, asOf))
    {
      hide FirstValue, LoadedFrom;
      var debt := GetWithFallback(ticker, DEBT_TAGS, asOf);
      var equity := GetWithFallback(ticker, EQUITY_TAGS, asOf);
      if debt.Err? || equity.Err? { return Err(MissingRequiredColumns); }
      if debt.value.0.None? || equity.value.0.None? || equity.value.0.value == 0.0 { return Ok(None); }
      return Ok(Some(debt.value.0.value / equity.value.0.value));
    }
  }
}
