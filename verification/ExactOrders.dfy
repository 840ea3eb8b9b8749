/** Order, contribution and position normalisation of plan v3 (authority/exact_plan.py). */
module ExactOrders {
  import opened Wrappers
  import opened Sequences
  import opened Grid
  import opened Json
  import Text

  datatype ContractError =
    | InvalidEligibleSet | CausalContributionsRequired | ContributionNotAnObject | ContributionSleeveInvalid
    | ContributionNotPositive | BrokerOwnedFields | InvalidSymbol | WrongSide | DuplicateOrder | InvalidQuantity
    | InvalidOrderType | InvalidTimeInForce | InvalidExtendedHours | InvalidPrice | StopPriceForbidden
    | LimitPriceMismatch | CapMismatch | NotionalMismatch | InvalidPosition

  // ----- Sleeve contributions

  datatype Contribution =
    | Contribution(sleeveId: Field, sleeve: Field, fraction: Field, targetWeight: Field, extra: map<string, Value>)
    | NotAnObject

  function SleeveName(py: Python, c: Contribution): string
    requires c.Contribution?
  {
    LowerText(py, Or(Or(Get(c.sleeveId), Get(c.sleeve)), Str("")))
  }

  /** `item.get("allocation_fraction", item.get("target_weight"))` as a number. */
  function BasisOf(py: Python, c: Contribution): Option<real>
    requires c.Contribution?
  {
    Finite(py, c.fraction.GetOr(Get(c.targetWeight)))
  }

  function LowerStripped(s: string): string {
    Text.Lower(Text.Strip(s))
  }

  function Allowed(eligible: seq<string>): seq<string> {
    SortedUnique(Text.Leq, Map(LowerStripped, eligible))
  }

  predicate ValidEligible(eligible: seq<string>) {
    Allowed(eligible) != [] && forall i :: 0 <= i < |Allowed(eligible)| ==> Text.SafeSleeve(Allowed(eligible)[i])
  }

  predicate ValidItem(py: Python, c: Contribution, allowed: seq<string>) {
    && c.Contribution?
    && SleeveName(py, c) in allowed
    && BasisOf(py, c).Some?
    && BasisOf(py, c).value > 0.0
  }

  /** A named sleeve and its basis: what a valid contribution row comes down to. */
  function NameAt(py: Python, c: Contribution): string {
    if c.Contribution? then SleeveName(py, c) else ""
  }

  function BasisAt(py: Python, c: Contribution): real {
    if c.Contribution? && BasisOf(py, c).Some? then BasisOf(py, c).value else 0.0
  }

  function BasisTotal(py: Python, rows: seq<Contribution>): real {
    Sum(Map(c => BasisAt(py, c), rows))
  }

  predicate ValidItems(py: Python, rows: seq<Contribution>, allowed: seq<string>) {
    && rows != []
    && (forall i :: 0 <= i < |rows| ==> ValidItem(py, rows[i], allowed))
    && (forall i, j :: 0 <= i < j < |rows| ==> NameAt(py, rows[i]) != NameAt(py, rows[j]))
  }

  function CleanItem(py: Python, c: Contribution, total: real): Contribution {
    if c.Contribution? && total > 0.0 then
      c.(sleeve := None, sleeveId := Some(Str(SleeveName(py, c))), fraction := Some(Num(BasisAt(py, c) / total)))
    else c
  }

  predicate ByCleanSleeve(a: Contribution, b: Contribution) {
    var x := if a.Contribution? && Get(a.sleeveId).Str? then Get(a.sleeveId).s else "";
    var y := if b.Contribution? && Get(b.sleeveId).Str? then Get(b.sleeveId).s else "";
    Text.Leq(x, y)
  }

  function CleanItems(py: Python, rows: seq<Contribution>): (r: seq<Contribution>)
    ensures |r| == |rows|
    ensures forall i :: 0 <= i < |rows| ==> r[i] == CleanItem(py, rows[i], BasisTotal(py, rows))
  {
    seq(|rows|, i requires 0 <= i < |rows| => CleanItem(py, rows[i], BasisTotal(py, rows)))
  }

  /** The rows the checks run on: a single eligible sleeve owns an order that names none. */
  function Supplied(raw: seq<Contribution>, allowed: seq<string>): seq<Contribution> {
    if raw == [] && |allowed| == 1
    then [Contribution(Some(Str(allowed[0])), None, Some(Num(1.0)), None, map[])]
    else raw
  }

  predicate ContributionsAccepted(py: Python, raw: seq<Contribution>, eligible: seq<string>) {
    && ValidEligible(eligible)
    && ValidItems(py, Supplied(raw, Allowed(eligible)), Allowed(eligible))
  }

  function NormalizedContributions(py: Python, raw: seq<Contribution>, eligible: seq<string>): seq<Contribution> {
    SortBy(ByCleanSleeve, CleanItems(py, Supplied(raw, Allowed(eligible))))
  }

  /** Why an item is refused. */
  function ItemError(py: Python, c: Contribution, allowed: seq<string>): ContractError {
    if c.NotAnObject? then ContributionNotAnObject
    else if SleeveName(py, c) !in allowed then ContributionSleeveInvalid
    else ContributionNotPositive
  }

  /** `_normalize_sleeve_contributions`, with its loop over the supplied items. */
  method NormalizeContributions(py: Python, raw: seq<Contribution>, eligible: seq<string>)
    returns (r: Result<seq<Contribution>, ContractError>)
    ensures r.Ok? <==> ContributionsAccepted(py, raw, eligible)
    ensures r.Ok? ==> r.value == NormalizedContributions(py, raw, eligible)
  {
    hide ValidEligible, Allowed, SortBy, ValidItem, NameAt, BasisAt, ItemError, CleanItems;
    if !ValidEligible(eligible) { return Err(InvalidEligibleSet); }
    var allowed := Allowed(eligible);
    if raw == [] && |allowed| != 1 { return Err(CausalContributionsRequired); }
    var supplied := Supplied(raw, allowed);
    assert supplied != [];
    hide Supplied;
    var seen: set<string> := {};
    var total := 0.0;
    ghost var bases := Map(c => BasisAt(py, c), supplied);
    for i := 0 to |supplied|
      invariant seen == set k | 0 <= k < i :: NameAt(py, supplied[k])
      invariant forall k :: 0 <= k < i ==> ValidItem(py, supplied[k], allowed)
      invariant forall j, k :: 0 <= j < k < i ==> NameAt(py, supplied[j]) != NameAt(py, supplied[k])
      invariant total == Sum(bases[..i])
    {
      if !ValidItem(py, supplied[i], allowed) { return Err(ItemError(py, supplied[i], allowed)); }
      if NameAt(py, supplied[i]) in seen { return Err(ContributionSleeveInvalid); }
      seen := seen + {NameAt(py, supplied[i])};
      SumSnoc(bases, i);
      total := total + BasisAt(py, supplied[i]);
    }
    assert bases[..|supplied|] == bases;
    assert total == BasisTotal(py, supplied);
    return Ok(SortBy(ByCleanSleeve, CleanItems(py, supplied)));
  }

  // ----- Orders

  datatype OrderRow = OrderRow(
    symbol: Field, ticker: Field, side: Field, quantity: Field, qty: Field, shares: Field,
    orderType: Field, timeInForce: Field, tif: Field, extendedHours: Field,
    price: Field, expectedPrice: Field, limitPrice: Field, capPrice: Field, stopPrice: Field, notional: Field,
    contributions: seq<Contribution>, sleeve: Field, orderId: Field, clientOrderId: Field,
    brokerOwned: set<string>, extra: map<string, Value>)

  datatype Side = SELL | BUY

  function SideText(side: Side): string {
    if side == SELL then "SELL" else "BUY"
  }

  function SymbolText(py: Python, row: OrderRow): string {
    UpperText(py, Or(Or(Get(row.symbol), Get(row.ticker)), Str("")))
  }

  function RowSideText(py: Python, row: OrderRow, required: Side): string {
    UpperText(py, Or(Get(row.side), Str(SideText(required))))
  }

  function TypeText(py: Python, row: OrderRow): string {
    LowerText(py, Or(Get(row.orderType), Str("market")))
  }

  function TimeText(py: Python, row: OrderRow): string {
    LowerText(py, Or(Or(Get(row.timeInForce), Get(row.tif)), Str("day")))
  }

  /** `raw.get("quantity", raw.get("qty", raw.get("shares")))` */
  function QuantityValue(row: OrderRow): Value {
    row.quantity.GetOr(row.qty.GetOr(Get(row.shares)))
  }

  function Extended(row: OrderRow): Value {
    row.extendedHours.GetOr(Bool(false))
  }

  /** A price key: absent and null stay as they are, anything else must be a number of at least 0. */
  function CoercePrice(py: Python, f: Field): Option<Field> {
    match f
    case None => Some(None)
    case Some(Null) => Some(Some(Null))
    case Some(v) =>
      match Finite(py, v)
      case Some(x) => Some(Some(Num(x)))
      case None => None
  }

  function Price(py: Python, f: Field): Field {
    CoercePrice(py, f).GetOr(f)
  }

  predicate PricesCoerce(py: Python, row: OrderRow) {
    && CoercePrice(py, row.price).Some? && CoercePrice(py, row.expectedPrice).Some?
    && CoercePrice(py, row.limitPrice).Some? && CoercePrice(py, row.capPrice).Some?
    && CoercePrice(py, row.stopPrice).Some? && CoercePrice(py, row.notional).Some?
  }

  /** `float(x or default)` on a coerced price. */
  function NumOr(f: Field, default: real): real {
    if f.Some? && f.value.Num? && f.value.n != 0.0 then f.value.n else default
  }

  /** The price the notional is checked against. */
  function EnforcementPrice(row: OrderRow, orderType: string): real {
    if orderType == "limit" then NumOr(row.limitPrice, 0.0)
    else NumOr(row.capPrice, NumOr(row.expectedPrice, NumOr(row.price, 0.0)))
  }

  predicate CapAgrees(row: OrderRow) {
    row.capPrice.Some? && row.capPrice.value.Num? ==>
      Abs(row.capPrice.value.n - NumOr(row.limitPrice, 0.0)) <= 0.000000001
  }

  function SleeveLabel(eligible: seq<string>): string {
    if |eligible| == 1 then eligible[0] else "caerus_paper_portfolio"
  }

  /** The row with aliases and ids dropped and its prices coerced. */
  function Coerced(py: Python, raw: OrderRow, required: Side, quantity: real): OrderRow {
    raw.(ticker := None, qty := None, shares := None, tif := None, orderId := None, clientOrderId := None,
         symbol := Some(Str(SymbolText(py, raw))),
         side := Some(Str(RowSideText(py, raw, required))),
         quantity := Some(Num(quantity)),
         orderType := Some(Str(TypeText(py, raw))),
         timeInForce := Some(Str(TimeText(py, raw))),
         extendedHours := Some(Extended(raw)),
         price := Price(py, raw.price),
         expectedPrice := Price(py, raw.expectedPrice),
         limitPrice := Price(py, raw.limitPrice),
         capPrice := Price(py, raw.capPrice),
         stopPrice := Price(py, raw.stopPrice),
         notional := Price(py, raw.notional))
  }

  predicate NotionalAgrees(row: OrderRow, orderType: string, quantity: real) {
    var price := EnforcementPrice(row, orderType);
    price > 0.0 && Abs(NumOr(row.notional, Cost(quantity, price)) - Cost(quantity, price)) <= 0.01
  }

  function Cost(quantity: real, price: real): real {
    quantity * price
  }

  function QuantityOf(py: Python, raw: OrderRow): real {
    Finite(py, QuantityValue(raw)).GetOr(0.0)
  }

  /** The checks of `_order_seed_rows` on the coerced row. */
  predicate SeedNumbersAccept(py: Python, raw: OrderRow, required: Side) {
    var row := Coerced(py, raw, required, QuantityOf(py, raw));
    && (TypeText(py, raw) == "limit" ==> CapAgrees(row))
    && NotionalAgrees(row, TypeText(py, raw), QuantityOf(py, raw))
  }

  /** Everything `_order_seed_rows` checks on one row. */
  predicate SeedAccepts(py: Python, raw: OrderRow, required: Side, eligible: seq<string>) {
    && raw.brokerOwned == {}
    && Extended(raw).Bool?
    && Finite(py, QuantityValue(raw)).Some?
    && (Extended(raw).b ==> TypeText(py, raw) == "limit" && TimeText(py, raw) == "day")
    && PricesCoerce(py, raw)
    && ContributionsAccepted(py, raw.contributions, eligible)
    && SeedNumbersAccept(py, raw, required)
  }

  /** The canonical row: what `_order_seed_rows` returns, and what `_normalize_orders` hashes. */
  function Canonical(py: Python, raw: OrderRow, required: Side, eligible: seq<string>): OrderRow {
    var row := Coerced(py, raw, required, QuantityOf(py, raw));
    row.(contributions := NormalizedContributions(py, raw.contributions, eligible),
         sleeve := Some(Str(SleeveLabel(eligible))),
         notional := Some(Num(Cost(QuantityOf(py, raw), EnforcementPrice(row, TypeText(py, raw))))))
  }

  const TIMES_IN_FORCE := {"day", "gtc", "opg", "cls", "ioc", "fok"}

  /** The further checks of `_normalize_orders` on the coerced row. */
  predicate OrderNumbersAccept(py: Python, raw: OrderRow, required: Side) {
    var row := Coerced(py, raw, required, QuantityOf(py, raw));
    && Get(row.stopPrice) == Null
    && (TypeText(py, raw) == "market" ==> Get(row.limitPrice) == Null)
    && (TypeText(py, raw) == "limit" ==> Truthy(Get(row.limitPrice)))
    && Cost(QuantityOf(py, raw), EnforcementPrice(row, TypeText(py, raw))) > 0.0
  }

  /** Everything `_normalize_orders` checks on one row, apart from duplicates. */
  predicate OrderAccepts(py: Python, raw: OrderRow, required: Side, eligible: seq<string>) {
    && SeedAccepts(py, raw, required, eligible)
    && Text.SafeSymbol(SymbolText(py, raw))
    && RowSideText(py, raw, required) == SideText(required)
    && QuantityOf(py, raw) > 0.0
    && TypeText(py, raw) in {"market", "limit"}
    && TimeText(py, raw) in TIMES_IN_FORCE
    && OrderNumbersAccept(py, raw, required)
  }

  /** What an order's identity hashes. */
  datatype Identity = Identity(planSeed: string, side: Side, index: nat, order: OrderRow)

  datatype OrderDigests = OrderDigests(orderId: Identity -> string, clientId: Identity -> string) {
    /** No two of these identities share an id. */
    predicate CollisionFree(documents: set<Identity>) {
      forall a, b :: a in documents && b in documents && (orderId(a) == orderId(b) || clientId(a) == clientId(b)) ==>
          a == b
    }

    /** An id is a nonempty text without outer spaces. */
    ghost predicate WellFormed() {
      && (forall a :: orderId(a) != "" && Text.Strip(orderId(a)) == orderId(a))
      && (forall a :: clientId(a) != "" && Text.Strip(clientId(a)) == clientId(a))
    }
  }

  function WithIds(h: OrderDigests, planSeed: string, side: Side, index: nat, row: OrderRow): OrderRow {
    var identity := Identity(planSeed, side, index, row);
    row.(orderId := Some(Str(h.orderId(identity))), clientOrderId := Some(Str(h.clientId(identity))))
  }

  predicate OrdersAccepted(py: Python, rows: seq<OrderRow>, required: Side, eligible: seq<string>) {
    hide OrderAccepts, SymbolText;
    && (forall i :: 0 <= i < |rows| ==> OrderAccepts(py, rows[i], required, eligible))
    && (forall i, j :: 0 <= i < j < |rows| ==> SymbolText(py, rows[i]) != SymbolText(py, rows[j]))
  }

  function NormalizedOrder(py: Python, h: OrderDigests, raw: OrderRow, required: Side, planSeed: string, index: nat,
                           eligible: seq<string>): OrderRow {
    WithIds(h, planSeed, required, index, Canonical(py, raw, required, eligible))
  }

  /** The normalised rows, numbered from `first`. */
  function NormalizedOrders(py: Python, h: OrderDigests, rows: seq<OrderRow>, required: Side, planSeed: string,
                            eligible: seq<string>, first: nat := 1): (r: seq<OrderRow>)
    ensures |r| == |rows|
  {
    hide NormalizedOrder;
    if rows == [] then []
    else [NormalizedOrder(py, h, rows[0], required, planSeed, first, eligible)]
         + NormalizedOrders(py, h, rows[1..], required, planSeed, eligible, first + 1)
  }

  lemma {:induction false} NormalizedOrderAt(py: Python, h: OrderDigests, rows: seq<OrderRow>, required: Side,
                                             planSeed: string, eligible: seq<string>, first: nat, i: nat)
    requires i < |rows|
    ensures NormalizedOrders(py, h, rows, required, planSeed, eligible, first)[i]
         == NormalizedOrder(py, h, rows[i], required, planSeed, first + i, eligible)
  {
    hide NormalizedOrder;
    if i > 0 { NormalizedOrderAt(py, h, rows[1..], required, planSeed, eligible, first + 1, i - 1); }
  }

  predicate SeedsAccepted(py: Python, rows: seq<OrderRow>, required: Side, eligible: seq<string>) {
    hide SeedAccepts;
    forall i :: 0 <= i < |rows| ==> SeedAccepts(py, rows[i], required, eligible)
  }

  function SeedRows(py: Python, rows: seq<OrderRow>, required: Side, eligible: seq<string>): seq<OrderRow> {
    Map(raw => Canonical(py, raw, required, eligible), rows)
  }

  /** Why a row is refused. */
  function OrderError(py: Python, raw: OrderRow, required: Side): ContractError {
    if raw.brokerOwned != {} then BrokerOwnedFields
    else if !Text.SafeSymbol(SymbolText(py, raw)) then InvalidSymbol
    else if RowSideText(py, raw, required) != SideText(required) then WrongSide
    else if QuantityOf(py, raw) <= 0.0 then InvalidQuantity
    else if TypeText(py, raw) !in {"market", "limit"} then InvalidOrderType
    else if TimeText(py, raw) !in TIMES_IN_FORCE then InvalidTimeInForce
    else if !PricesCoerce(py, raw) then InvalidPrice
    else NotionalMismatch
  }

  /** `_normalize_orders`, with its loop and its set of seen symbols. */
  method NormalizeOrders(py: Python, h: OrderDigests, rows: seq<OrderRow>, required: Side, planSeed: string,
                         eligible: seq<string>)
    returns (r: Result<seq<OrderRow>, ContractError>)
    ensures r.Ok? <==> OrdersAccepted(py, rows, required, eligible)
    ensures r.Ok? ==> r.value == NormalizedOrders(py, h, rows, required, planSeed, eligible)
  {
    hide OrderAccepts, NormalizedOrder, SymbolText, OrderError;
    var normalized: seq<OrderRow> := [];
    var seen: set<string> := {};
    for i := 0 to |rows|
      invariant |normalized| == i
      invariant seen == set k | 0 <= k < i :: SymbolText(py, rows[k])
      invariant forall k :: 0 <= k < i ==> OrderAccepts(py, rows[k], required, eligible)
      invariant forall j, k :: 0 <= j < k < i ==> SymbolText(py, rows[j]) != SymbolText(py, rows[k])
      invariant forall k :: 0 <= k < i ==>
                  normalized[k] == NormalizedOrder(py, h, rows[k], required, planSeed, k + 1, eligible)
    {
      if !OrderAccepts(py, rows[i], required, eligible) { return Err(OrderError(py, rows[i], required)); }
      if SymbolText(py, rows[i]) in seen { return Err(DuplicateOrder); }
      seen := seen + {SymbolText(py, rows[i])};
      normalized := normalized + [NormalizedOrder(py, h, rows[i], required, planSeed, i + 1, eligible)];
    }
    forall k | 0 <= k < |rows|
      ensures NormalizedOrders(py, h, rows, required, planSeed, eligible)[k] == normalized[k]
    {
      NormalizedOrderAt(py, h, rows, required, planSeed, eligible, 1, k);
    }
    return Ok(normalized);
  }

  // ----- Positions

  datatype PositionRow = PositionRow(symbol: Field, ticker: Field, quantity: Field, qty: Field, shares: Field,
                                     extra: map<string, Value>)

  function PositionSymbol(py: Python, row: PositionRow): string {
    UpperText(py, Or(Or(Get(row.symbol), Get(row.ticker)), Str("")))
  }

  /** `raw.get("quantity", raw.get("qty", raw.get("shares", 0)))` */
  function PositionQuantity(py: Python, row: PositionRow): Option<real> {
    Finite(py, row.quantity.GetOr(row.qty.GetOr(row.shares.GetOr(Num(0.0)))))
  }

  predicate PositionsAccepted(py: Python, rows: seq<PositionRow>) {
    && (forall i :: 0 <= i < |rows| ==>
          Text.SafeSymbol(PositionSymbol(py, rows[i])) && PositionQuantity(py, rows[i]).Some?)
    && (forall i, j :: 0 <= i < j < |rows| ==> PositionSymbol(py, rows[i]) != PositionSymbol(py, rows[j]))
  }

  function CleanPosition(py: Python, row: PositionRow): PositionRow {
    if PositionQuantity(py, row).None? then row
    else row.(symbol := Some(Str(PositionSymbol(py, row))), quantity := Some(Num(PositionQuantity(py, row).value)))
  }

  /** The symbol and quantity a clean position row carries. */
  function HeldSymbol(row: PositionRow): string {
    if Get(row.symbol).Str? then Get(row.symbol).s else ""
  }

  function HeldQuantity(row: PositionRow): real {
    if Get(row.quantity).Num? then Get(row.quantity).n else 0.0
  }

  predicate ByHeldSymbol(a: PositionRow, b: PositionRow) {
    Text.Leq(HeldSymbol(a), HeldSymbol(b))
  }

  function CleanPositions(py: Python, rows: seq<PositionRow>): (r: seq<PositionRow>)
    ensures |r| == |rows| && forall i :: 0 <= i < |r| ==> r[i] == CleanPosition(py, rows[i])
  {
    Map(r => CleanPosition(py, r), rows)
  }

  /** `_position_rows`: aliases stay, symbol and quantity become canonical, rows sort by symbol. */
  function NormalizedPositions(py: Python, rows: seq<PositionRow>): seq<PositionRow> {
    SortBy(ByHeldSymbol, CleanPositions(py, rows))
  }
}
