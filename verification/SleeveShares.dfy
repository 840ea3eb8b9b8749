/** Causal sleeve attribution of a quantity: checking a position's contributions and scaling a
    contribution list to an order (authority/lane_exact_plan.py). */
module SleeveShares {
  import opened Wrappers
  import opened Sequences
  import opened Grid
  import Text

  /** `_TOLERANCE` */
  const TOLERANCE := 0.00000001

  /** One sleeve's contribution.  `basis` is the field it is scaled by: `quantity` on a position,
      `target_weight` on an approved target row. */
  datatype Share = Share(sleeveId: string, decisionId: string, decisionHash: string, basis: real)

  /** A contribution scaled to an order: `order_fraction` and `order_quantity`. */
  datatype Slice = Slice(share: Share, fraction: real, quantity: real)

  datatype ShareError =
    | NoContributions
    | DuplicateSleeve
    | NonPositiveQuantity
    | SumMismatch
    | NegativeBasis
    | NonPositiveBasis

  predicate BySleeve(a: Share, b: Share) {
    Text.Leq(a.sleeveId, b.sleeveId)
  }

  predicate SliceBySleeve(a: Slice, b: Slice) {
    BySleeve(a.share, b.share)
  }

  function BasisOf(s: Share): real {
    s.basis
  }

  function SleeveOf(s: Share): string {
    s.sleeveId
  }

  function QuantityOf(s: Slice): real {
    s.quantity
  }

  function TotalBasis(s: seq<Share>): real {
    Sum(Map(BasisOf, s))
  }

  function TotalQuantity(s: seq<Slice>): real {
    Sum(Map(QuantityOf, s))
  }

  predicate DistinctSleeves(s: seq<Share>) {
    forall i, j :: 0 <= i < j < |s| ==> SleeveOf(s[i]) != SleeveOf(s[j])
  }

  lemma BySleeveIsPreorder()
    ensures TotalPreorder(BySleeve) && TotalPreorder(SliceBySleeve)
  {
    Text.LeqTotalOrder();
  }

  // ----- Sums do not depend on the order of the rows

  lemma {:induction false} SumInsert<T>(leq: (T, T) -> bool, f: T -> real, x: T, s: seq<T>)
    ensures Sum(Map(f, InsertSorted(leq, x, s))) == f(x) + Sum(Map(f, s))
  {
    if s == [] || leq(x, s[0]) {
      assert Map(f, [x] + s)[1..] == Map(f, s);
    } else {
      SumInsert(leq, f, x, s[1..]);
      var r := InsertSorted(leq, x, s[1..]);
      assert Map(f, [s[0]] + r)[1..] == Map(f, r);
      assert Map(f, s)[1..] == Map(f, s[1..]);
    }
  }

  lemma {:induction false} SumSort<T>(leq: (T, T) -> bool, f: T -> real, s: seq<T>)
    ensures Sum(Map(f, SortBy(leq, s))) == Sum(Map(f, s))
  {
    if s != [] {
      SumSort(leq, f, s[1..]);
      SumInsert(leq, f, s[0], SortBy(leq, s[1..]));
      assert Map(f, s)[1..] == Map(f, s[1..]);
    }
  }

  // ----- _position_contributions

  predicate CausalShares(s: seq<Share>, quantity: real) {
    && s != []
    && DistinctSleeves(s)
    && (forall i :: 0 <= i < |s| ==> s[i].basis > 0.0)
    && Abs(TotalBasis(s) - quantity) <= TOLERANCE
  }

  /** `_position_contributions`: accepts exactly the causal contribution lists and returns them
      sorted by sleeve. */
  method PositionContributions(value: seq<Share>, positionQuantity: real) returns (r: Result<seq<Share>, ShareError>)
    ensures r.Ok? <==> CausalShares(value, positionQuantity)
    ensures r.Ok? ==> r.value == SortBy(BySleeve, value)
  {
    if value == [] { return Err(NoContributions); }
    var seen: set<string> := {};
    var total := 0.0;
    for i := 0 to |value|
      invariant seen == set k | 0 <= k < i :: SleeveOf(value[k])
      invariant forall j, k :: 0 <= j < k < i ==> SleeveOf(value[j]) != SleeveOf(value[k])
      invariant forall k :: 0 <= k < i ==> value[k].basis > 0.0
      invariant total == Sum(Map(BasisOf, value)[..i])
    {
      if value[i].sleeveId in seen {
        var k :| 0 <= k < i && SleeveOf(value[k]) == SleeveOf(value[i]);
        return Err(DuplicateSleeve);
      }
      seen := seen + {value[i].sleeveId};
      if value[i].basis <= 0.0 { return Err(NonPositiveQuantity); }
      SumSnoc(Map(BasisOf, value), i);
      total := total + value[i].basis;
    }
    assert Map(BasisOf, value)[..|value|] == Map(BasisOf, value);
    if Abs(total - positionQuantity) > TOLERANCE { return Err(SumMismatch); }
    return Ok(SortBy(BySleeve, value));
  }

  /** A normalised contribution list is accepted again, for the same quantity, and comes back
      unchanged: `_position_contributions` is idempotent. */
  lemma PositionContributionsIdempotent(value: seq<Share>, quantity: real)
    requires CausalShares(value, quantity)
    ensures CausalShares(SortBy(BySleeve, value), quantity)
    ensures SortBy(BySleeve, SortBy(BySleeve, value)) == SortBy(BySleeve, value)
  {
    BySleeveIsPreorder();
    SortBySorted(BySleeve, value);
    SortByFixedPoint(BySleeve, SortBy(BySleeve, value));
    SumSort(BySleeve, BasisOf, value);
    SortByDistinct(BySleeve, SleeveOf, value);
    SortByElements(BySleeve, value);
    var t := SortBy(BySleeve, value);
    forall i | 0 <= i < |t| ensures t[i].basis > 0.0 { assert t[i] in value; }
  }

  // ----- _scaled_contributions

  /** The share of `quantity` a contribution is owed: exactly pro rata to its basis. */
  function ProRata(s: Share, total: real, quantity: real): Slice
    requires total > 0.0
  {
    Slice(s, s.basis / total, quantity * (s.basis / total))
  }

  /** The pro-rata slices in source order. */
  function Parts(source: seq<Share>, quantity: real): (r: seq<Slice>)
    requires TotalBasis(source) > 0.0
    ensures |r| == |source|
    ensures forall i :: 0 <= i < |source| ==> r[i] == ProRata(source[i], TotalBasis(source), quantity)
  {
    seq(|source|, i requires 0 <= i < |source| => ProRata(source[i], TotalBasis(source), quantity))
  }

  function Scaled(source: seq<Share>, quantity: real): seq<Slice>
    requires TotalBasis(source) > 0.0
  {
    SortBy(SliceBySleeve, Parts(source, quantity))
  }

  lemma {:induction false} PartsSum(source: seq<Share>, quantity: real, k: nat)
    requires TotalBasis(source) > 0.0 && k <= |source|
    ensures Sum(Map(QuantityOf, Parts(source, quantity))[..k])
         == quantity * (Sum(Map(BasisOf, source)[..k]) / TotalBasis(source))
  {
    var quantities, bases := Map(QuantityOf, Parts(source, quantity)), Map(BasisOf, source);
    if k > 0 {
      PartsSum(source, quantity, k - 1);
      SumSnoc(quantities, k - 1);
      SumSnoc(bases, k - 1);
      ShareOfSum(quantity, Sum(bases[..k - 1]), bases[k - 1], TotalBasis(source));
    } else {
      assert quantities[..0] == [] && bases[..0] == [];
    }
  }

  lemma ShareOfSum(q: real, x: real, y: real, t: real)
    requires t > 0.0
    ensures q * ((x + y) / t) == q * (x / t) + q * (y / t)
  {
    QuotientSplit(x, y, t);
  }

  lemma PartsSumAll(source: seq<Share>, quantity: real)
    requires TotalBasis(source) > 0.0
    ensures TotalQuantity(Parts(source, quantity)) == quantity
  {
    var quantities, bases := Map(QuantityOf, Parts(source, quantity)), Map(BasisOf, source);
    PartsSum(source, quantity, |source|);
    assert quantities[..|source|] == quantities && bases[..|source|] == bases;
    WholeFraction(quantity, TotalBasis(source));
  }

  lemma WholeFraction(q: real, t: real)
    requires t > 0.0
    ensures q * (t / t) == q
  {
  }

  /** The remainder left for the last slice is that slice's own pro-rata part. */
  lemma RemainderIsProRata(source: seq<Share>, quantity: real)
    requires TotalBasis(source) > 0.0 && source != []
    ensures var n := |source| - 1;
            quantity - Sum(Map(QuantityOf, Parts(source, quantity))[..n]) == Parts(source, quantity)[n].quantity
  {
    PartsSumAll(source, quantity);
    var quantities := Map(QuantityOf, Parts(source, quantity));
    SumSnoc(quantities, |source| - 1);
    assert quantities[..|source| - 1 + 1] == quantities;
  }

  predicate NonnegativeBases(source: seq<Share>) {
    forall i :: 0 <= i < |source| ==> source[i].basis >= 0.0
  }

  /** `_scaled_contributions`: every slice but the last in source order takes its fraction of the
      order and the last takes what remains. */
  method ScaledContributions(source: seq<Share>, quantity: real) returns (r: Result<seq<Slice>, ShareError>)
    ensures r.Ok? <==> NonnegativeBases(source) && TotalBasis(source) > 0.0
    ensures r.Ok? ==> r.value == Scaled(source, quantity)
  {
    for i := 0 to |source|
      invariant forall k :: 0 <= k < i ==> source[k].basis >= 0.0
    {
      if source[i].basis < 0.0 { return Err(NegativeBasis); }
    }
    var total := TotalBasis(source);
    if total <= 0.0 { return Err(NonPositiveBasis); }
    ghost var parts := Parts(source, quantity);
    var result: seq<Slice> := [];
    var allotted := 0.0;
    for index := 0 to |source|
      invariant result == parts[..index]
      invariant allotted == Sum(Map(QuantityOf, parts)[..index])
    {
      var fraction := source[index].basis / total;
      var last := index == |source| - 1;
      if last { RemainderIsProRata(source, quantity); }
      var orderQuantity := if last then quantity - allotted else quantity * fraction;
      assert parts[index] == Slice(source[index], fraction, orderQuantity);
      SumSnoc(Map(QuantityOf, parts), index);
      allotted := allotted + orderQuantity;
      result := result + [Slice(source[index], fraction, orderQuantity)];
    }
    assert parts[..|source|] == parts;
    return Ok(SortBy(SliceBySleeve, result));
  }

  /** Attribution is conserved: the slices add up to the order exactly, none is negative, each is
      its sleeve's pro-rata part, and every contribution gets one. */
  lemma ScaledConserves(source: seq<Share>, quantity: real)
    requires TotalBasis(source) > 0.0 && quantity >= 0.0 && NonnegativeBases(source)
    ensures TotalQuantity(Scaled(source, quantity)) == quantity
    ensures |Scaled(source, quantity)| == |source|
    ensures forall x :: x in Scaled(source, quantity) ==>
              x.quantity >= 0.0 && x.share in source
              && x.quantity * TotalBasis(source) == quantity * x.share.basis
    ensures forall s :: s in source ==> exists x :: x in Scaled(source, quantity) && x.share == s
  {
    var parts := Parts(source, quantity);
    PartsSumAll(source, quantity);
    SumSort(SliceBySleeve, QuantityOf, parts);
    SortByElements(SliceBySleeve, parts);
    forall x | x in Scaled(source, quantity)
      ensures x.quantity >= 0.0 && x.share in source
      ensures x.quantity * TotalBasis(source) == quantity * x.share.basis
    {
      SliceIsProRata(source, quantity, x);
    }
    forall s | s in source ensures exists x :: x in Scaled(source, quantity) && x.share == s {
      var i :| 0 <= i < |source| && source[i] == s;
      assert parts[i] in parts && parts[i].share == s;
    }
  }

  lemma SliceIsProRata(source: seq<Share>, quantity: real, x: Slice)
    requires TotalBasis(source) > 0.0 && quantity >= 0.0
    requires forall i :: 0 <= i < |source| ==> source[i].basis >= 0.0
    requires x in Parts(source, quantity)
    ensures x.quantity >= 0.0 && x.share in source
    ensures x.quantity * TotalBasis(source) == quantity * x.share.basis
  {
    var parts := Parts(source, quantity);
    var i :| 0 <= i < |parts| && parts[i] == x;
    PartOf(quantity, source[i].basis, TotalBasis(source));
  }

  lemma PartOf(q: real, b: real, t: real)
    requires t > 0.0 && q >= 0.0 && b >= 0.0
    ensures q * (b / t) >= 0.0 && q * (b / t) * t == q * b
  {
    var f := b / t;
    Quotient(b, t);
    Reassociate(q, f, t);
  }

  lemma Reassociate(x: real, y: real, z: real)
    ensures x * y * z == x * (y * z)
  {
  }

  lemma {:induction false} PositiveTotal(source: seq<Share>)
    requires source != [] && forall i :: 0 <= i < |source| ==> source[i].basis > 0.0
    ensures TotalBasis(source) > 0.0
  {
    assert Map(BasisOf, source)[1..] == Map(BasisOf, source[1..]);
    assert TotalBasis(source) == source[0].basis + TotalBasis(source[1..]);
    if |source| > 1 { PositiveTotal(source[1..]); }
  }
}
