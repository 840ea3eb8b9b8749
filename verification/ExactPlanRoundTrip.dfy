/** Normalisation in plan v3 is a fixed point on its own output, so a built plan re-parses to
    itself: exactly when the constraint values the builder coerces were numbers to begin with. */
module ExactPlanRoundTrip {
  import opened Wrappers
  import opened Sequences
  import opened Grid
  import opened Json
  import opened ExactOrders
  import opened ExactPlan
  import SleeveShares
  import Text

  // ----- Contributions

  lemma ByCleanSleeveIsPreorder()
    ensures TotalPreorder(ByCleanSleeve)
  {
    Text.LeqTotalOrder();
  }

  lemma {:induction false} DividedSum(xs: seq<real>, ys: seq<real>, total: real)
    requires total > 0.0 && |xs| == |ys| && forall i :: 0 <= i < |xs| ==> ys[i] == xs[i] / total
    ensures Sum(ys) == Sum(xs) / total
  {
    if xs != [] {
      DividedSum(xs[1..], ys[1..], total);
      QuotientSplit(xs[0], Sum(xs[1..]), total);
    }
  }

  lemma {:induction false} PositiveSum(xs: seq<real>)
    requires xs != [] && forall i :: 0 <= i < |xs| ==> xs[i] > 0.0
    ensures Sum(xs) > 0.0
  {
    if |xs| > 1 { PositiveSum(xs[1..]); }
  }

  lemma QuotientFacts(b: real, t: real)
    requires b > 0.0 && t > 0.0
    ensures b / t > 0.0 && b / t / 1.0 == b / t && t / t == 1.0
  {
    QuotientBelow(0.0, b, 1.0);
    var q := b / t;
    Quotient(b, t);
    if q <= 0.0 { NotPositive(q, t); assert false; }
  }

  lemma NotPositive(q: real, t: real)
    requires q <= 0.0 && t > 0.0
    ensures q * t <= 0.0
  {
  }

  /** A clean item is a clean item again, with the same name, and its basis is its fraction. */
  lemma CleanItemFixed(py: Python, c: Contribution, total: real, allowed: seq<string>)
    requires ValidItem(py, c, allowed) && total > 0.0 && forall i :: 0 <= i < |allowed| ==> Text.SafeSleeve(allowed[i])
    ensures var x := CleanItem(py, c, total);
            && ValidItem(py, x, allowed)
            && NameAt(py, x) == NameAt(py, c)
            && BasisAt(py, x) == BasisAt(py, c) / total
            && CleanItem(py, x, 1.0) == x
  {
    var name := SleeveName(py, c);
    Text.CanonicalCase(ToText(py, Or(Or(Get(c.sleeveId), Get(c.sleeve)), Str(""))));
    var i :| 0 <= i < |allowed| && allowed[i] == name;
    assert name != "";
    QuotientFacts(BasisAt(py, c), total);
    var x := CleanItem(py, c, total);
    assert ToText(py, Or(Or(Get(x.sleeveId), Get(x.sleeve)), Str(""))) == name;
  }

  lemma CleanItemsFixed(py: Python, rows: seq<Contribution>, allowed: seq<string>)
    requires ValidItems(py, rows, allowed) && forall i :: 0 <= i < |allowed| ==> Text.SafeSleeve(allowed[i])
    ensures ValidItems(py, CleanItems(py, rows), allowed)
    ensures BasisTotal(py, CleanItems(py, rows)) == 1.0
    ensures forall x :: x in CleanItems(py, rows) ==> CleanItem(py, x, 1.0) == x
  {
    hide ValidItem, NameAt, BasisAt, CleanItem;
    var total, clean := BasisTotal(py, rows), CleanItems(py, rows);
    var bases, fractions := Map(c => BasisAt(py, c), rows), Map(c => BasisAt(py, c), clean);
    forall i | 0 <= i < |rows| ensures bases[i] > 0.0 { PositiveBasis(py, rows[i], allowed); }
    PositiveSum(bases);
    forall i | 0 <= i < |rows|
      ensures ValidItem(py, clean[i], allowed) && NameAt(py, clean[i]) == NameAt(py, rows[i])
      ensures fractions[i] == bases[i] / total && CleanItem(py, clean[i], 1.0) == clean[i]
    {
      CleanItemFixed(py, rows[i], total, allowed);
    }
    DividedSum(bases, fractions, total);
    WholeIsOne(total);
  }

  lemma WholeIsOne(t: real)
    requires t > 0.0
    ensures t / t == 1.0
  {
  }

  lemma PositiveBasis(py: Python, c: Contribution, allowed: seq<string>)
    requires ValidItem(py, c, allowed)
    ensures BasisAt(py, c) > 0.0
  {
  }

  /** `_normalize_sleeve_contributions` is idempotent. */
  lemma ContributionsFixed(py: Python, raw: seq<Contribution>, eligible: seq<string>)
    requires ContributionsAccepted(py, raw, eligible)
    ensures var out := NormalizedContributions(py, raw, eligible);
            && ContributionsAccepted(py, out, eligible)
            && NormalizedContributions(py, out, eligible) == out
  {
    var allowed := Allowed(eligible);
    var rows := Supplied(raw, allowed);
    var clean := CleanItems(py, rows);
    var out := NormalizedContributions(py, raw, eligible);
    assert out == SortBy(ByCleanSleeve, clean);
    hide Allowed, NormalizedContributions, ValidItem, NameAt, BasisAt, CleanItem, ByCleanSleeve;
    CleanItemsFixed(py, rows, allowed);
    ByCleanSleeveIsPreorder();
    SortByElements(ByCleanSleeve, clean);
    SortBySorted(ByCleanSleeve, clean);
    SortByDistinct(ByCleanSleeve, (c: Contribution) => NameAt(py, c), clean);
    SleeveShares.SumSort(ByCleanSleeve, c => BasisAt(py, c), clean);
    forall i | 0 <= i < |out| ensures ValidItem(py, out[i], allowed) && CleanItem(py, out[i], 1.0) == out[i] {
      assert out[i] in clean;
    }
    assert ValidItems(py, out, allowed);
    assert Supplied(out, allowed) == out;
    assert BasisTotal(py, out) == 1.0;
    assert CleanItems(py, out) == out;
    SortByFixedPoint(ByCleanSleeve, out);
    NormalizedIsSorted(py, out, eligible);
  }

  lemma NormalizedIsSorted(py: Python, raw: seq<Contribution>, eligible: seq<string>)
    ensures NormalizedContributions(py, raw, eligible)
         == SortBy(ByCleanSleeve, CleanItems(py, Supplied(raw, Allowed(eligible))))
  {
  }

  // ----- Orders

  lemma PriceFixed(py: Python, f: Field)
    requires CoercePrice(py, f).Some?
    ensures CoercePrice(py, Price(py, f)) == Some(Price(py, f))
    ensures Price(py, Price(py, f)) == Price(py, f)
  {
  }

  predicate IdsOnly(a: OrderRow, b: OrderRow) {
    b == a.(orderId := b.orderId, clientOrderId := b.clientOrderId)
  }

  /** The texts of a canonical row are read back from it, whatever ids it carries. */
  lemma CanonicalTexts(py: Python, raw: OrderRow, required: Side, eligible: seq<string>, row: OrderRow)
    requires Text.SafeSymbol(SymbolText(py, raw)) && RowSideText(py, raw, required) == SideText(required)
    requires TypeText(py, raw) in {"market", "limit"} && TimeText(py, raw) in TIMES_IN_FORCE
    requires Finite(py, QuantityValue(raw)).Some?
    requires IdsOnly(Canonical(py, raw, required, eligible), row)
    ensures SymbolText(py, row) == SymbolText(py, raw)
    ensures RowSideText(py, row, required) == RowSideText(py, raw, required)
    ensures TypeText(py, row) == TypeText(py, raw) && TimeText(py, row) == TimeText(py, raw)
    ensures Extended(row) == Extended(raw)
    ensures Finite(py, QuantityValue(row)) == Finite(py, QuantityValue(raw))
    ensures QuantityOf(py, row) == QuantityOf(py, raw)
  {
    hide NormalizedContributions, Cost, EnforcementPrice, CoercePrice, UpperText, LowerText, Or;
    var c := Canonical(py, raw, required, eligible);
    assert c.symbol == Some(Str(SymbolText(py, raw))) && c.side == Some(Str(RowSideText(py, raw, required)));
    assert c.orderType == Some(Str(TypeText(py, raw))) && c.timeInForce == Some(Str(TimeText(py, raw)));
    assert SymbolText(py, raw) != "" && TypeText(py, raw) != "" && TimeText(py, raw) != "";
    UpperReadBack(py, Or(Or(Get(raw.symbol), Get(raw.ticker)), Str("")), Get(row.ticker), Str(""));
    UpperReadBack(py, Or(Get(raw.side), Str(SideText(required))), Str(SideText(required)), Null);
    LowerReadBack(py, Or(Get(raw.orderType), Str("market")), Str("market"), Null);
    LowerReadBack(py, Or(Or(Get(raw.timeInForce), Get(raw.tif)), Str("day")), Get(row.tif), Str("day"));
  }

  /** The coerced form of a canonical row is the row itself, up to contributions and ids. */
  lemma CanonicalCoerced(py: Python, raw: OrderRow, required: Side, eligible: seq<string>, row: OrderRow)
    requires OrderAccepts(py, raw, required, eligible)
    requires IdsOnly(Canonical(py, raw, required, eligible), row)
    ensures PricesCoerce(py, row)
    ensures Coerced(py, row, required, QuantityOf(py, row)) == Canonical(py, raw, required, eligible)
  {
    CanonicalTexts(py, raw, required, eligible, row);
    PriceFixed(py, raw.price);
    PriceFixed(py, raw.expectedPrice);
    PriceFixed(py, raw.limitPrice);
    PriceFixed(py, raw.capPrice);
    PriceFixed(py, raw.stopPrice);
    hide SymbolText, RowSideText, TypeText, TimeText, NormalizedContributions, Cost, EnforcementPrice, SleeveLabel,
         ContributionsAccepted, SeedNumbersAccept, CoercePrice;
    assert row.notional.Some? && row.notional.value.Num?;
    NonnegativeNotional(py, raw, required, eligible);
    NumIsFixed(py, row.notional.value.n);
  }

  lemma NonnegativeNotional(py: Python, raw: OrderRow, required: Side, eligible: seq<string>)
    requires OrderAccepts(py, raw, required, eligible)
    ensures Canonical(py, raw, required, eligible).notional.Some?
    ensures Canonical(py, raw, required, eligible).notional.value.Num?
    ensures Canonical(py, raw, required, eligible).notional.value.n > 0.0
  {
    hide NormalizedContributions, Cost, EnforcementPrice, ContributionsAccepted, SeedNumbersAccept;
  }

  lemma NumIsFixed(py: Python, n: real)
    requires n >= 0.0
    ensures CoercePrice(py, Some(Num(n))) == Some(Some(Num(n))) && Price(py, Some(Num(n))) == Some(Num(n))
  {
  }

  lemma CanonicalNumbersAccepted(py: Python, raw: OrderRow, required: Side, eligible: seq<string>, row: OrderRow)
    requires OrderAccepts(py, raw, required, eligible)
    requires IdsOnly(Canonical(py, raw, required, eligible), row)
    requires TypeText(py, row) == TypeText(py, raw) && QuantityOf(py, row) == QuantityOf(py, raw)
    requires Coerced(py, row, required, QuantityOf(py, row)) == Canonical(py, raw, required, eligible)
    ensures SeedNumbersAccept(py, row, required) && OrderNumbersAccept(py, row, required)
  {
    CanonicalNumbers(py, raw, required, eligible);
    hide SymbolText, RowSideText, TypeText, TimeText, QuantityOf, Canonical, Cost, EnforcementPrice, CapAgrees,
         ContributionsAccepted, PricesCoerce, Coerced, NotionalAgrees;
  }

  /** One order row: its normal form is accepted again, and normalises to itself. */
  lemma OrderFixed(py: Python, raw: OrderRow, required: Side, eligible: seq<string>, row: OrderRow)
    requires OrderAccepts(py, raw, required, eligible)
    requires IdsOnly(Canonical(py, raw, required, eligible), row)
    ensures OrderAccepts(py, row, required, eligible)
    ensures Canonical(py, row, required, eligible) == Canonical(py, raw, required, eligible)
    ensures SymbolText(py, row) == SymbolText(py, raw)
  {
    CanonicalTexts(py, raw, required, eligible, row);
    CanonicalCoerced(py, raw, required, eligible, row);
    ContributionsFixed(py, raw.contributions, eligible);
    CanonicalNumbers(py, raw, required, eligible);
    CanonicalNumbersAccepted(py, raw, required, eligible, row);
    hide SymbolText, RowSideText, TypeText, TimeText, NormalizedContributions, Cost, EnforcementPrice,
         ContributionsAccepted, CoercePrice, PricesCoerce, Coerced, CapAgrees, NotionalAgrees, NumOr,
         SeedNumbersAccept, OrderNumbersAccept;
  }

  /** Setting contributions, sleeve label and the computed notional changes none of the numbers the
      checks read. */
  lemma CanonicalNumbers(py: Python, raw: OrderRow, required: Side, eligible: seq<string>)
    requires OrderAccepts(py, raw, required, eligible)
    ensures var c, t, q := Canonical(py, raw, required, eligible), TypeText(py, raw), QuantityOf(py, raw);
            && EnforcementPrice(c, t) == EnforcementPrice(Coerced(py, raw, required, q), t)
            && c.notional == Some(Num(Cost(q, EnforcementPrice(c, t))))
            && (t == "limit" ==> CapAgrees(c))
            && NotionalAgrees(c, t, q)
            && c.stopPrice == Coerced(py, raw, required, q).stopPrice
            && c.limitPrice == Coerced(py, raw, required, q).limitPrice
            && c.contributions == NormalizedContributions(py, raw.contributions, eligible)
            && c.sleeve == Some(Str(SleeveLabel(eligible)))
            && c.brokerOwned == {}
  {
    hide SymbolText, RowSideText, TimeText, NormalizedContributions, Cost, ContributionsAccepted, CoercePrice,
         SleeveLabel;
  }

  // ----- Order lists

  lemma NormalizedIsIdsOnly(py: Python, h: OrderDigests, raw: OrderRow, required: Side, seed: string, index: nat,
                            eligible: seq<string>)
    ensures IdsOnly(Canonical(py, raw, required, eligible),
                    NormalizedOrder(py, h, raw, required, seed, index, eligible))
  {
    hide Canonical;
  }

  lemma NormalizedOrderFixed(py: Python, h: OrderDigests, raw: OrderRow, required: Side, seed: string, index: nat,
                             eligible: seq<string>, again: string)
    requires OrderAccepts(py, raw, required, eligible)
    ensures var row := NormalizedOrder(py, h, raw, required, seed, index, eligible);
            && OrderAccepts(py, row, required, eligible)
            && Canonical(py, row, required, eligible) == Canonical(py, raw, required, eligible)
            && SymbolText(py, row) == SymbolText(py, raw)
            && NormalizedOrder(py, h, row, required, again, index, eligible)
               == NormalizedOrder(py, h, raw, required, again, index, eligible)
  {
    NormalizedIsIdsOnly(py, h, raw, required, seed, index, eligible);
    OrderFixed(py, raw, required, eligible, NormalizedOrder(py, h, raw, required, seed, index, eligible));
    hide Canonical, OrderAccepts, SymbolText;
  }

  /** A normalised order list is accepted, has the seed rows of the raw list, and normalises under
      any seed to what the raw list normalises to. */
  lemma OrdersFixed(py: Python, h: OrderDigests, rows: seq<OrderRow>, required: Side, seed: string,
                    eligible: seq<string>, again: string)
    requires OrdersAccepted(py, rows, required, eligible)
    ensures var out := NormalizedOrders(py, h, rows, required, seed, eligible);
            && OrdersAccepted(py, out, required, eligible)
            && SeedsAccepted(py, out, required, eligible)
            && SeedRows(py, out, required, eligible) == SeedRows(py, rows, required, eligible)
            && NormalizedOrders(py, h, out, required, again, eligible)
               == NormalizedOrders(py, h, rows, required, again, eligible)
  {
    var out := NormalizedOrders(py, h, rows, required, seed, eligible);
    hide OrderAccepts, SeedAccepts, Canonical, SymbolText, NormalizedOrder;
    forall i | 0 <= i < |rows|
      ensures OrderAccepts(py, out[i], required, eligible) && SeedAccepts(py, out[i], required, eligible)
      ensures SymbolText(py, out[i]) == SymbolText(py, rows[i])
      ensures Canonical(py, out[i], required, eligible) == Canonical(py, rows[i], required, eligible)
      ensures NormalizedOrders(py, h, out, required, again, eligible)[i]
           == NormalizedOrders(py, h, rows, required, again, eligible)[i]
    {
      NormalizedOrderAt(py, h, rows, required, seed, eligible, 1, i);
      NormalizedOrderAt(py, h, rows, required, again, eligible, 1, i);
      NormalizedOrderAt(py, h, out, required, again, eligible, 1, i);
      NormalizedOrderFixed(py, h, rows[i], required, seed, i + 1, eligible, again);
      AcceptsIsSeed(py, out[i], required, eligible);
    }
  }

  lemma AcceptsIsSeed(py: Python, raw: OrderRow, required: Side, eligible: seq<string>)
    requires OrderAccepts(py, raw, required, eligible)
    ensures SeedAccepts(py, raw, required, eligible)
  {
  }

  // ----- Positions

  lemma ByHeldSymbolIsPreorder()
    ensures TotalPreorder(ByHeldSymbol)
  {
    Text.LeqTotalOrder();
  }

  lemma CleanPositionFixed(py: Python, row: PositionRow)
    requires Text.SafeSymbol(PositionSymbol(py, row)) && PositionQuantity(py, row).Some?
    ensures var c := CleanPosition(py, row);
            && PositionSymbol(py, c) == PositionSymbol(py, row) == HeldSymbol(c)
            && PositionQuantity(py, c).Some? && CleanPosition(py, c) == c
  {
    UpperReadBack(py, Or(Or(Get(row.symbol), Get(row.ticker)), Str("")), Get(row.ticker), Str(""));
    hide UpperText;
  }

  /** `_position_rows` is idempotent. */
  lemma PositionsFixed(py: Python, rows: seq<PositionRow>)
    requires PositionsAccepted(py, rows)
    ensures PositionsAccepted(py, NormalizedPositions(py, rows))
    ensures NormalizedPositions(py, NormalizedPositions(py, rows)) == NormalizedPositions(py, rows)
  {
    hide PositionSymbol, PositionQuantity, CleanPosition, ByHeldSymbol, HeldSymbol;
    var clean, out := CleanPositions(py, rows), NormalizedPositions(py, rows);
    NormalizedPositionsIs(py, rows);
    NormalizedPositionsIs(py, out);
    hide NormalizedPositions;
    CleanPositionsFixed(py, rows);
    ByHeldSymbolIsPreorder();
    SortByElements(ByHeldSymbol, clean);
    SortBySorted(ByHeldSymbol, clean);
    SortByDistinct(ByHeldSymbol, (r: PositionRow) => PositionSymbol(py, r), clean);
    SortByFixedPoint(ByHeldSymbol, out);
    forall i | 0 <= i < |out| ensures CleanRow(py, out[i]) { assert out[i] in clean; }
    assert CleanPositions(py, out) == out;
  }

  predicate CleanRow(py: Python, r: PositionRow) {
    Text.SafeSymbol(PositionSymbol(py, r)) && PositionQuantity(py, r).Some? && CleanPosition(py, r) == r
  }

  lemma CleanPositionsFixed(py: Python, rows: seq<PositionRow>)
    requires PositionsAccepted(py, rows)
    ensures var clean := CleanPositions(py, rows);
            && (forall r :: r in clean ==> CleanRow(py, r))
            && (forall i, j :: 0 <= i < j < |clean| ==> PositionSymbol(py, clean[i]) != PositionSymbol(py, clean[j]))
  {
    hide PositionSymbol, PositionQuantity, CleanPosition;
    var clean := CleanPositions(py, rows);
    forall i | 0 <= i < |rows|
      ensures PositionSymbol(py, clean[i]) == PositionSymbol(py, rows[i]) && CleanRow(py, clean[i])
    {
      CleanPositionFixed(py, rows[i]);
    }
  }

  lemma NormalizedPositionsIs(py: Python, rows: seq<PositionRow>)
    ensures NormalizedPositions(py, rows) == SortBy(ByHeldSymbol, CleanPositions(py, rows))
  {
  }

  // ----- Authorization, constraints, header

  lemma AuthorizationFixed(py: Python, a: Authorization, seed: string, again: string)
    requires AuthorizationAccepts(py, a)
    ensures var out := NormalizedAuthorization(py, a, seed);
            AuthorizationAccepts(py, out) && NormalizedAuthorization(py, out, again) == out
  {
    var out := NormalizedAuthorization(py, a, seed);
    UpperReadBack(py, Or(Get(a.status), Str("")), Str(""), Null);
    var at := Text.Strip(ToText(py, Or(Get(a.authorizedAt), Str(""))));
    Text.StripIsStripped(ToText(py, Or(Get(a.authorizedAt), Str(""))));
    assert ToText(py, Or(Get(out.authorizedAt), Str(""))) == at;
    hide UpperText, Text.Strip;
  }

  /** The coerced constraint values are numbers already. */
  predicate NumericConstraints(c: Constraints, hasOrders: bool) {
    && (c.attributionBps.Some? ==> c.attributionBps.value.Num?)
    && (hasOrders && c.maxAdverseBps.Some? ==> c.maxAdverseBps.value.Num? && c.maxAdverseBps.value.n >= 0.0)
  }

  /** The builder's own allowance when it is asked to rebuild a serialised plan. */
  predicate LegacyOnRebuild(c: Constraints, hasOrders: bool) {
    hasOrders && c.maxAdverseBps.None?
  }

  /** Constraint values are numeric exactly when coercing them changes nothing and, unless the adverse
      authority is missing for good, it can be read. */
  lemma CoercionIsIdentityIff(py: Python, c: Constraints, hasOrders: bool, allowLegacy: bool)
    requires AttributionAccepts(py, c) && AdverseAccepts(py, c, hasOrders, allowLegacy)
    ensures NumericConstraints(c, hasOrders) <==>
              && CoercedConstraints(py, c, hasOrders) == c
              && AdverseAccepts(py, c, hasOrders, LegacyOnRebuild(c, hasOrders))
  {
  }

  /** The header fields of a canonical form, beside those it carries over. */
  ghost predicate HeaderOf(n: Inputs, inputs: Inputs) {
    && n == inputs.(asOf := n.asOf, createdAt := n.createdAt, nav := n.nav, starting := n.starting,
                    startingCash := n.startingCash, accountIdHash := n.accountIdHash, sells := n.sells, buys := n.buys,
                    expected := n.expected, expectedCash := n.expectedCash, constraints := n.constraints,
                    authorization := n.authorization, strategyId := n.strategyId, accountScope := "PAPER")
    && n.asOf == Text.Strip(inputs.asOf) && n.createdAt == Text.Strip(inputs.createdAt)
    && n.accountIdHash == Text.Lower(Text.Strip(inputs.accountIdHash))
    && n.strategyId == Text.Lower(Text.Strip(inputs.strategyId))
    && n.constraints.regimeOwner == inputs.constraints.regimeOwner
  }

  lemma HeaderOfAccepted(py: Python, n: Inputs, inputs: Inputs, governance: Option<Governance>)
    requires HeaderAccepts(py, inputs, governance) && HeaderOf(n, inputs)
    ensures HeaderAccepts(py, n, None)
  {
    hide Eligible, EligibleSleeves, Text.Strip, IsSha256, SleeveLabel, Text.Upper, Text.Lower, Or, ToText, Distinct;
    Text.StripIsStripped(inputs.asOf);
    Text.StripIsStripped(inputs.createdAt);
    Text.CanonicalCase(inputs.accountIdHash);
    Text.CanonicalCase(inputs.strategyId);
    PaperIsPaper();
  }

  lemma HeaderFixed(py: Python, h: Digests, inputs: Inputs, governance: Option<Governance>)
    requires HeaderAccepts(py, inputs, governance)
    requires CoercedConstraints(py, inputs.constraints, inputs.sells + inputs.buys != []).regimeOwner
             == inputs.constraints.regimeOwner
    ensures HeaderAccepts(py, Normal(py, h, inputs), None)
  {
    hide Eligible, SeedOf, Text.Strip, NormalizedOrders, NormalizedPositions, NormalizedAuthorization,
         CoercedConstraints, Text.Lower, HeaderAccepts;
    HeaderOfAccepted(py, Normal(py, h, inputs), inputs, governance);
  }

  lemma PaperIsPaper()
    ensures Text.Upper(Text.Strip("PAPER")) == "PAPER"
  {
    assert !Text.IsSpace("PAPER"[0]) && !Text.IsSpace("PAPER"[4]);
    assert Text.Strip("PAPER") == "PAPER";
  }

  // ----- The plan

  lemma SameOrdersPresent(py: Python, h: Digests, inputs: Inputs)
    ensures |Normal(py, h, inputs).sells| == |inputs.sells| && |Normal(py, h, inputs).buys| == |inputs.buys|
    ensures Normal(py, h, inputs).sells + Normal(py, h, inputs).buys != [] <==> inputs.sells + inputs.buys != []
  {
    var n := Normal(py, h, inputs);
    hide SeedOf;
    assert |n.sells + n.buys| == |inputs.sells + inputs.buys|;
  }

  lemma NumbersFixed(py: Python, v: Value)
    requires Finite(py, v).Some?
    ensures Finite(py, Num(Number(py, v))) == Finite(py, v) && Number(py, Num(Number(py, v))) == Number(py, v)
  {
  }

  /** Everything but the constraints of the seed document survives normalisation. */
  lemma SeedFixed(py: Python, h: Digests, inputs: Inputs, governance: Option<Governance>, allowLegacy: bool)
    requires BuildAccepts(py, h, inputs, governance, allowLegacy)
    ensures SeedOf(py, Normal(py, h, inputs))
         == SeedOf(py, inputs).(constraints := Normal(py, h, inputs).constraints)
  {
    var eligible, seed := Eligible(py, inputs.allocations), h.seed(SeedOf(py, inputs));
    Text.StripIsStripped(inputs.asOf);
    Text.CanonicalCase(inputs.accountIdHash);
    Text.CanonicalCase(inputs.strategyId);
    hide HeaderAccepts, AuthorizationAccepts, BodyAccepts, Eligible, Text.Strip, Text.Lower, NormalizedOrders,
         NormalizedPositions, SeedRows, NormalizedAuthorization, CoercedConstraints, PositionsAccepted,
         OrdersAccepted, SeedsAccepted, Finite;
    NumbersFixed(py, inputs.nav);
    NumbersFixed(py, inputs.startingCash);
    NumbersFixed(py, inputs.expectedCash);
    PositionsFixed(py, inputs.starting);
    PositionsFixed(py, inputs.expected);
    OrdersFixed(py, h.order, inputs.sells, SELL, seed, eligible, seed);
    OrdersFixed(py, h.order, inputs.buys, BUY, seed, eligible, seed);
  }

  lemma CoercionOfBuilt(py: Python, h: Digests, inputs: Inputs, governance: Option<Governance>, allowLegacy: bool)
    requires BuildAccepts(py, h, inputs, governance, allowLegacy)
    ensures AttributionAccepts(py, inputs.constraints)
    ensures AdverseAccepts(py, inputs.constraints, inputs.sells + inputs.buys != [], allowLegacy)
    ensures Normal(py, h, inputs).constraints == CoercedConstraints(py, inputs.constraints,
                                                                    inputs.sells + inputs.buys != [])
    ensures Normal(py, h, inputs).regime == inputs.regime
  {
    SameOrdersPresent(py, h, inputs);
    hide SeedOf, HeaderAccepts, RowsAccept, AuthorizationAccepts, MechanicalAccepts, LimitsAccept,
         ProtectiveStyleAccepts, NormalizedOrders, NormalizedPositions, NormalizedAuthorization, AttributionAccepts;
  }

  /** A normal body normalises to itself. */
  lemma NormalFixed(py: Python, h: Digests, inputs: Inputs, governance: Option<Governance>, allowLegacy: bool)
    requires BuildAccepts(py, h, inputs, governance, allowLegacy)
    requires Normal(py, h, inputs).constraints == inputs.constraints
    ensures Normal(py, h, Normal(py, h, inputs)) == Normal(py, h, inputs)
    ensures SeedOf(py, Normal(py, h, inputs)) == SeedOf(py, inputs)
  {
    var n, eligible, seed := Normal(py, h, inputs), Eligible(py, inputs.allocations), h.seed(SeedOf(py, inputs));
    SeedFixed(py, h, inputs, governance, allowLegacy);
    Text.StripIsStripped(inputs.asOf);
    Text.StripIsStripped(inputs.createdAt);
    Text.CanonicalCase(inputs.accountIdHash);
    Text.CanonicalCase(inputs.strategyId);
    AuthorizationFixed(py, inputs.authorization, seed, seed);
    SameOrdersPresent(py, h, inputs);
    CoercionOfBuilt(py, h, inputs, governance, allowLegacy);
    hide HeaderAccepts, AuthorizationAccepts, BodyAccepts, Eligible, Text.Strip, Text.Lower, NormalizedOrders,
         NormalizedPositions, SeedRows, SeedOf, NormalizedAuthorization, CoercedConstraints, PositionsAccepted,
         OrdersAccepted, SeedsAccepted, Finite;
    NumbersFixed(py, inputs.nav);
    NumbersFixed(py, inputs.startingCash);
    NumbersFixed(py, inputs.expectedCash);
    PositionsFixed(py, inputs.starting);
    PositionsFixed(py, inputs.expected);
    OrdersFixed(py, h.order, inputs.sells, SELL, seed, eligible, seed);
    OrdersFixed(py, h.order, inputs.buys, BUY, seed, eligible, seed);
  }

  lemma RowsFixed(py: Python, h: Digests, inputs: Inputs)
    requires RowsAccept(py, inputs)
    ensures RowsAccept(py, Normal(py, h, inputs))
  {
    var n, eligible, seed := Normal(py, h, inputs), Eligible(py, inputs.allocations), h.seed(SeedOf(py, inputs));
    hide Eligible, NormalizedOrders, NormalizedPositions, SeedOf, NormalizedAuthorization, CoercedConstraints,
         PositionsAccepted, OrdersAccepted, SeedsAccepted, Finite;
    PositionsFixed(py, inputs.starting);
    PositionsFixed(py, inputs.expected);
    OrdersFixed(py, h.order, inputs.sells, SELL, seed, eligible, seed);
    OrdersFixed(py, h.order, inputs.buys, BUY, seed, eligible, seed);
    assert n.allocations == inputs.allocations;
  }

  lemma InputNumbersFixed(py: Python, h: Digests, inputs: Inputs)
    requires NumbersAccept(py, inputs)
    ensures NumbersAccept(py, Normal(py, h, inputs))
  {
    hide NormalizedOrders, NormalizedPositions, SeedOf, NormalizedAuthorization, CoercedConstraints, Eligible;
    NumbersFixed(py, inputs.nav);
    NumbersFixed(py, inputs.startingCash);
    NumbersFixed(py, inputs.expectedCash);
  }

  /** Everything the builder checks, it accepts again on a normal body. */
  lemma NormalAccepted(py: Python, h: Digests, inputs: Inputs, governance: Option<Governance>, allowLegacy: bool,
                       again: bool)
    requires BuildAccepts(py, h, inputs, governance, allowLegacy)
    requires Normal(py, h, inputs).constraints == inputs.constraints
    requires AdverseAccepts(py, inputs.constraints, inputs.sells + inputs.buys != [], again)
    ensures BuildAccepts(py, h, Normal(py, h, inputs), None, again)
  {
    hide HeaderAccepts, NumbersAccept, RowsAccept, AuthorizationAccepts, BodyAccepts, SeedOf, NormalizedAuthorization,
         CoercedConstraints;
    var seed := h.seed(SeedOf(py, inputs));
    NormalFixed(py, h, inputs, governance, allowLegacy);
    CoercionOfBuilt(py, h, inputs, governance, allowLegacy);
    HeaderFixed(py, h, inputs, governance);
    AuthorizationFixed(py, inputs.authorization, seed, seed);
    RowsFixed(py, h, inputs);
    InputNumbersFixed(py, h, inputs);
    NormalAuthorizationIs(py, h, inputs);
    SameOrdersPresent(py, h, inputs);
    BodyAcceptedAgain(py, inputs.constraints, Normal(py, h, inputs), allowLegacy, again);
    hide Normal;
  }

  /** The allowance for legacy plans matters only where the adverse authority cannot be read. */
  lemma BodyAcceptedAgain(py: Python, c: Constraints, body: Inputs, allowLegacy: bool, again: bool)
    requires BodyAccepts(py, c, body, allowLegacy) && AdverseAccepts(py, c, body.sells + body.buys != [], again)
    ensures BodyAccepts(py, c, body, again)
  {
    hide MechanicalAccepts, LimitsAccept, AttributionAccepts, Protective, AdverseBps;
  }

  lemma NormalAuthorizationIs(py: Python, h: Digests, inputs: Inputs)
    ensures Normal(py, h, inputs).authorization
         == NormalizedAuthorization(py, inputs.authorization, h.seed(SeedOf(py, inputs)))
  {
    hide NormalizedOrders, NormalizedPositions, SeedOf, NormalizedAuthorization, CoercedConstraints, Eligible;
  }

  // ----- Serialised ids

  lemma IdsOfNormalized(py: Python, h: OrderDigests, rows: seq<OrderRow>, required: Side, seed: string,
                        eligible: seq<string>, i: nat)
    requires h.WellFormed() && i < |rows|
    ensures var row := NormalizedOrders(py, h, rows, required, seed, eligible)[i];
            var identity := Identity(seed, required, i + 1, Canonical(py, rows[i], required, eligible));
            && OrderIdText(py, row) == h.orderId(identity) && OrderIdText(py, row) != ""
            && ClientIdText(py, row) == h.clientId(identity) && ClientIdText(py, row) != ""
  {
    hide Canonical;
    NormalizedOrderAt(py, h, rows, required, seed, eligible, 1, i);
  }

  lemma SideOfNormalized(py: Python, h: OrderDigests, raw: OrderRow, required: Side, seed: string, index: nat,
                         eligible: seq<string>)
    requires RowSideText(py, raw, required) == SideText(required)
    ensures var row := NormalizedOrder(py, h, raw, required, seed, index, eligible);
            UpperText(py, Or(Get(row.side), Str(""))) == SideText(required)
  {
    UpperReadBack(py, Or(Get(raw.side), Str(SideText(required))), Str(""), Null);
    hide UpperText, NormalizedContributions, Cost, EnforcementPrice, SymbolText, TypeText, TimeText;
  }

  lemma AcceptsSide(py: Python, raw: OrderRow, required: Side, eligible: seq<string>)
    requires OrderAccepts(py, raw, required, eligible)
    ensures RowSideText(py, raw, required) == SideText(required)
  {
  }

  lemma SidesOfNormalized(py: Python, h: OrderDigests, rows: seq<OrderRow>, required: Side, seed: string,
                          eligible: seq<string>)
    requires OrdersAccepted(py, rows, required, eligible)
    ensures SidesSupplied(py, NormalizedOrders(py, h, rows, required, seed, eligible), required)
  {
    hide NormalizedOrder, UpperText, SymbolText, OrderAccepts, RowSideText, NormalizedOrders;
    forall i | 0 <= i < |rows|
      ensures UpperText(py, Or(Get(NormalizedOrders(py, h, rows, required, seed, eligible)[i].side), Str("")))
              == SideText(required)
    {
      AcceptsSide(py, rows[i], required, eligible);
      NormalizedOrderAt(py, h, rows, required, seed, eligible, 1, i);
      SideOfNormalized(py, h, rows[i], required, seed, i + 1, eligible);
    }
  }

  /** The identity behind the i-th serialised order, sells before buys. */
  function IdentityAt(py: Python, sells: seq<OrderRow>, buys: seq<OrderRow>, seed: string, eligible: seq<string>,
                      i: nat): Identity
    requires i < |sells| + |buys|
  {
    if i < |sells| then Identity(seed, SELL, i + 1, Canonical(py, sells[i], SELL, eligible))
    else Identity(seed, BUY, i - |sells| + 1, Canonical(py, buys[i - |sells|], BUY, eligible))
  }

  function Identities(py: Python, sells: seq<OrderRow>, buys: seq<OrderRow>, seed: string,
                      eligible: seq<string>): set<Identity> {
    set i: nat | i < |sells| + |buys| :: IdentityAt(py, sells, buys, seed, eligible, i)
  }

  /** Among the documents of this plan no hash collides: neither two order identities nor the plan
      seed with the seed of the normalised inputs. */
  ghost predicate NoCollisions(py: Python, h: Digests, inputs: Inputs) {
    && h.order.WellFormed()
    && h.order.CollisionFree(Identities(py, inputs.sells, inputs.buys, h.seed(SeedOf(py, inputs)),
                                        Eligible(py, inputs.allocations)))
    && (h.seed(SeedOf(py, Normal(py, h, inputs))) == h.seed(SeedOf(py, inputs)) ==>
        SeedOf(py, Normal(py, h, inputs)) == SeedOf(py, inputs))
  }

  /** The ids of a built plan are present, nonempty and pairwise different. */
  lemma IdsOfBuilt(py: Python, h: OrderDigests, sells: seq<OrderRow>, buys: seq<OrderRow>, seed: string,
                   eligible: seq<string>)
    requires h.WellFormed() && h.CollisionFree(Identities(py, sells, buys, seed, eligible))
    requires OrdersAccepted(py, sells, SELL, eligible) && OrdersAccepted(py, buys, BUY, eligible)
    ensures IdsSupplied(py, NormalizedOrders(py, h, sells, SELL, seed, eligible),
                        NormalizedOrders(py, h, buys, BUY, seed, eligible))
  {
    hide OrdersAccepted, SidesSupplied, Canonical, NormalizedOrders, OrderIdText, ClientIdText;
    var all := NormalizedOrders(py, h, sells, SELL, seed, eligible)
        + NormalizedOrders(py, h, buys, BUY, seed, eligible);
    SidesOfNormalized(py, h, sells, SELL, seed, eligible);
    SidesOfNormalized(py, h, buys, BUY, seed, eligible);
    forall i | 0 <= i < |all|
      ensures OrderIdText(py, all[i]) == h.orderId(IdentityAt(py, sells, buys, seed, eligible, i))
              && OrderIdText(py, all[i]) != ""
      ensures ClientIdText(py, all[i]) == h.clientId(IdentityAt(py, sells, buys, seed, eligible, i))
              && ClientIdText(py, all[i]) != ""
    {
      if i < |sells| { IdsOfNormalized(py, h, sells, SELL, seed, eligible, i); }
      else { IdsOfNormalized(py, h, buys, BUY, seed, eligible, i - |sells|); }
    }
    forall i, j | 0 <= i < j < |all|
      ensures OrderIdText(py, all[i]) != OrderIdText(py, all[j]) && ClientIdText(py, all[i]) != ClientIdText(py, all[j])
    {
      assert IdentityAt(py, sells, buys, seed, eligible, i) != IdentityAt(py, sells, buys, seed, eligible, j);
      assert IdentityAt(py, sells, buys, seed, eligible, i) in Identities(py, sells, buys, seed, eligible);
      assert IdentityAt(py, sells, buys, seed, eligible, j) in Identities(py, sells, buys, seed, eligible);
    }
  }

  // ----- The round trip

  lemma SameSeedSamePlanId(asOf: string, a: string, b: string)
    requires PlanIdFor(asOf, a) == PlanIdFor(asOf, b)
    ensures a == b
  {
    var prefix := "plan:" + (if |asOf| <= 10 then asOf else asOf[..10]) + ":";
    assert PlanIdFor(asOf, a) == prefix + a && PlanIdFor(asOf, b) == prefix + b;
    assert (prefix + a)[|prefix|..] == a && (prefix + b)[|prefix|..] == b;
  }

  /** With numeric constraint values a built plan re-parses to itself. */
  lemma NumericRoundTrip(py: Python, h: Digests, inputs: Inputs, governance: Option<Governance>, allowLegacy: bool)
    requires NoCollisions(py, h, inputs) && BuildAccepts(py, h, inputs, governance, allowLegacy)
    requires NumericConstraints(inputs.constraints, inputs.sells + inputs.buys != [])
    ensures FromDict(py, h, PlanFor(py, h, inputs)) == Ok(PlanFor(py, h, inputs))
  {
    hide BuildAccepts, SeedOf, Normal, IdsSupplied, AttributionAccepts, AdverseAccepts, CoercedConstraints, PlanFor,
         NumericConstraints;
    var plan, n := PlanFor(py, h, inputs), Normal(py, h, inputs);
    var hasOrders := inputs.sells + inputs.buys != [];
    CoercionOfBuilt(py, h, inputs, governance, allowLegacy);
    CoercionIsIdentityIff(py, inputs.constraints, hasOrders, allowLegacy);
    NormalFixed(py, h, inputs, governance, allowLegacy);
    NormalAccepted(py, h, inputs, governance, allowLegacy, LegacyOnRebuild(inputs.constraints, hasOrders));
    SameOrdersPresent(py, h, inputs);
    IdsOfBuiltPlan(py, h, inputs, governance, allowLegacy);
    PlanOfNormal(py, h, inputs, n);
  }

  lemma PlanOfNormal(py: Python, h: Digests, a: Inputs, b: Inputs)
    requires Normal(py, h, a) == Normal(py, h, b) && SeedOf(py, a) == SeedOf(py, b)
    ensures PlanFor(py, h, a) == PlanFor(py, h, b) && PlanFor(py, h, a).body == Normal(py, h, a)
  {
    hide Normal, SeedOf, PlanIdFor, Number;
  }

  lemma IdsOfBuiltPlan(py: Python, h: Digests, inputs: Inputs, governance: Option<Governance>, allowLegacy: bool)
    requires NoCollisions(py, h, inputs) && BuildAccepts(py, h, inputs, governance, allowLegacy)
    ensures IdsSupplied(py, Normal(py, h, inputs).sells, Normal(py, h, inputs).buys)
  {
    hide HeaderAccepts, NumbersAccept, AuthorizationAccepts, BodyAccepts, SeedOf, NormalizedAuthorization,
         OrdersAccepted, CoercedConstraints, IdsSupplied, NormalizedOrders, NormalizedPositions, Eligible,
             SeedsAccepted, PositionsAccepted;
    IdsOfBuilt(py, h.order, inputs.sells, inputs.buys, h.seed(SeedOf(py, inputs)), Eligible(py, inputs.allocations));
  }

  /** With a constraint value that had to be coerced the rebuilt plan gets another seed, so its plan
      id no longer matches and the plan is refused. */
  lemma CoercedIsRefused(py: Python, h: Digests, inputs: Inputs, governance: Option<Governance>, allowLegacy: bool)
    requires NoCollisions(py, h, inputs) && BuildAccepts(py, h, inputs, governance, allowLegacy)
    requires Normal(py, h, inputs).constraints != inputs.constraints
    ensures FromDict(py, h, PlanFor(py, h, inputs)).Err?
  {
    hide BuildAccepts, SeedOf, Normal, IdsSupplied, PlanFor, PlanIdFor;
    var plan, n := PlanFor(py, h, inputs), Normal(py, h, inputs);
    SeedsDiffer(py, h, inputs, governance, allowLegacy);
    PlanIdOf(py, h, inputs);
    PlanIdOf(py, h, n);
    if PlanFor(py, h, n).planId == plan.planId {
      SameSeedSamePlanId(Text.Strip(inputs.asOf), h.seed(SeedOf(py, n)), h.seed(SeedOf(py, inputs)));
    }
  }

  lemma SeedsDiffer(py: Python, h: Digests, inputs: Inputs, governance: Option<Governance>, allowLegacy: bool)
    requires NoCollisions(py, h, inputs) && BuildAccepts(py, h, inputs, governance, allowLegacy)
    requires Normal(py, h, inputs).constraints != inputs.constraints
    ensures h.seed(SeedOf(py, Normal(py, h, inputs))) != h.seed(SeedOf(py, inputs))
  {
    hide BuildAccepts, Normal;
    SeedFixed(py, h, inputs, governance, allowLegacy);
    ConstraintsOfSeed(py, inputs);
    hide SeedOf;
  }

  lemma ConstraintsOfSeed(py: Python, inputs: Inputs)
    ensures SeedOf(py, inputs).constraints == inputs.constraints
  {
  }

  lemma PlanIdOf(py: Python, h: Digests, inputs: Inputs)
    ensures PlanFor(py, h, inputs).planId == PlanIdFor(Text.Strip(inputs.asOf), h.seed(SeedOf(py, inputs)))
    ensures PlanFor(py, h, inputs).body == Normal(py, h, inputs)
    ensures Text.Strip(Normal(py, h, inputs).asOf) == Text.Strip(inputs.asOf)
  {
    Text.StripIsStripped(inputs.asOf);
    hide SeedOf, Text.Strip, PlanIdFor, NormalizedOrders, NormalizedPositions, NormalizedAuthorization,
         CoercedConstraints, Eligible, Number;
  }

  /** A legacy plan whose adverse authority is present but cannot be read is refused: it is not
      missing, so the rebuild makes no allowance for it. */
  lemma UnreadableIsRefused(py: Python, h: Digests, inputs: Inputs, governance: Option<Governance>, allowLegacy: bool)
    requires BuildAccepts(py, h, inputs, governance, allowLegacy)
    requires Normal(py, h, inputs).constraints == inputs.constraints
    requires var hasOrders := inputs.sells + inputs.buys != [];
             !AdverseAccepts(py, inputs.constraints, hasOrders, LegacyOnRebuild(inputs.constraints, hasOrders))
    ensures FromDict(py, h, PlanFor(py, h, inputs)).Err?
  {
    hide SeedOf, Normal, IdsSupplied, PlanFor, PlanIdFor, HeaderAccepts, NumbersAccept, RowsAccept,
         AuthorizationAccepts, MechanicalAccepts, LimitsAccept, AttributionAccepts, AdverseAccepts,
         ProtectiveStyleAccepts;
    var n := Normal(py, h, inputs);
    SameOrdersPresent(py, h, inputs);
    PlanIdOf(py, h, inputs);
    assert !BodyAccepts(py, n.constraints, Normal(py, h, n),
                        LegacyOnRebuild(n.constraints, n.sells + n.buys != [])) by {
      SameOrdersPresent(py, h, n);
    }
  }

  /** The round trip of plan v3, exactly, legacy plans included: re-parsing the dictionary of a built
      plan rebuilds the identical plan if and only if the constraint values the builder coerces are
      numbers where they are present, the adverse authority (looked at when there are orders) a
      nonnegative one. */
  lemma RoundTripIff(py: Python, h: Digests, inputs: Inputs, governance: Option<Governance>, allowLegacy: bool)
    requires NoCollisions(py, h, inputs)
    requires Build(py, h, inputs, governance, allowLegacy).Ok?
    ensures var plan := Build(py, h, inputs, governance, allowLegacy).value;
            FromDict(py, h, plan) == Ok(plan) <==>
            NumericConstraints(inputs.constraints, inputs.sells + inputs.buys != [])
    ensures var plan := Build(py, h, inputs, governance, allowLegacy).value;
            FromDict(py, h, plan).Ok? ==> FromDict(py, h, plan) == Ok(plan)
  {
    hide BuildAccepts, NumericConstraints, FromDict, PlanFor, Normal, AttributionAccepts, AdverseAccepts,
         CoercedConstraints;
    CoercionOfBuilt(py, h, inputs, governance, allowLegacy);
    CoercionIsIdentityIff(py, inputs.constraints, inputs.sells + inputs.buys != [], allowLegacy);
    if NumericConstraints(inputs.constraints, inputs.sells + inputs.buys != []) {
      NumericRoundTrip(py, h, inputs, governance, allowLegacy);
    } else if Normal(py, h, inputs).constraints != inputs.constraints {
      CoercedIsRefused(py, h, inputs, governance, allowLegacy);
    } else {
      UnreadableIsRefused(py, h, inputs, governance, allowLegacy);
    }
  }
}
