/** Exact-order plan v4: approved weights and a broker snapshot become exact sell and buy orders
    (authority/lane_exact_plan.py, the path without the cash-aware optimizer). */
module LanePlan {
  import opened Wrappers
  import opened Sequences
  import opened Grid
  import opened SleeveShares
  import Text

  // ----- Inputs, as the Risk, snapshot and policy normalisers leave them

  datatype OrderType = Market | Limit

  datatype Side = Sell | Buy

  datatype Target = Target(symbol: string, weight: real, shares: seq<Share>)

  datatype Holding = Holding(symbol: string, quantity: real, shares: seq<Share>)

  datatype Execution = Execution(
    orderType: OrderType,
    quantityPrecision: nat,
    pricePrecision: nat,
    slippageBps: real,
    minimumNotional: real,
    maximumNotional: real,
    maximumTotalBuy: real,
    maximumOrders: nat,
    reconciliationTolerance: real)

  datatype Risk = Risk(contentHash: string, approvedTargetHash: string, cashWeight: real,
                       targets: seq<Target>, capitalCaps: seq<real>)

  datatype Snapshot = Snapshot(contentHash: string, equity: real, cash: real,
                               holdings: seq<Holding>, marks: map<string, real>)

  datatype Policy = Policy(contentHash: string, execution: Execution, capitalCeiling: Option<real>)

  // ----- Orders and plans

  datatype OrderIds = OrderIds(orderId: string, clientId: string)

  datatype Order = Order(symbol: string, side: Side, orderType: OrderType, quantity: real,
                         reference: real, price: real, notional: real, slices: seq<Slice>,
                         ids: Option<OrderIds>)

  datatype Allocation = Allocation(symbol: string, quantity: real, slices: seq<Slice>)

  datatype Plan = Plan(
    planId: string,
    riskHash: string,
    snapshotHash: string,
    policyHash: string,
    approvedTargetHash: string,
    deployable: real,
    startingEquity: real,
    startingCash: real,
    startingHoldings: seq<Holding>,
    startingStateHash: string,
    marks: map<string, real>,
    cashWeight: real,
    targets: seq<Target>,
    sells: seq<Order>,
    buys: seq<Order>,
    expectedPositions: seq<Allocation>,
    expectedCash: real,
    constraints: Execution)

  // ----- Hashes

  /** What an order's identity hashes: the plan seed and the order without its ids. */
  datatype Identity = Identity(planSeed: string, side: Side, index: nat, order: Order)

  datatype PlanSeed = PlanSeed(riskHash: string, snapshotHash: string, policyHash: string,
                               approvedTargetHash: string, sells: seq<Order>, buys: seq<Order>)

  /** SHA-256 over canonical JSON, one uninterpreted function for each document that is hashed.
      The two id functions stand for the formatted id texts. */
  datatype Digests = Digests(
    planSeed: PlanSeed -> string,
    planId: PlanSeed -> string,
    orderId: Identity -> string,
    clientId: Identity -> string,
    startingState: (seq<(string, real)>, real) -> string)
  {
    /** No two of these order identities collide. */
    predicate CollisionFree(documents: set<Identity>) {
      forall a, b :: a in documents && b in documents && (orderId(a) == orderId(b) || clientId(a) == clientId(b)) ==>
          a == b
    }
  }

  function SymbolOfTarget(t: Target): string { t.symbol }

  function SymbolOfHolding(h: Holding): string { h.symbol }

  function SymbolOfOrder(o: Order): string { o.symbol }

  function SymbolOfAllocation(a: Allocation): string { a.symbol }

  function WeightOf(t: Target): real { t.weight }

  function NotionalOf(o: Order): real { o.notional }

  function TotalNotional(orders: seq<Order>): real {
    Sum(Map(NotionalOf, orders))
  }

  function MinOf(s: seq<real>): real
    requires s != []
  {
    if |s| == 1 then s[0] else Min(s[0], MinOf(s[1..]))
  }

  function StateRow(h: Holding): (string, real) { (h.symbol, h.quantity) }

  function Cost(quantity: real, price: real): real {
    quantity * price
  }

  /** The reference price moved by the adverse-slippage collar. */
  function Collared(reference: real, collar: real, side: Side): real {
    if side == Buy then reference * (1.0 + collar) else reference * (1.0 - collar)
  }

  /** How many units a weight of the capital buys at a mark. */
  function UnitsAt(capital: real, weight: real, mark: real): real {
    if mark == 0.0 then 0.0 else capital * weight / mark
  }

  // ----- The construction

  datatype Sources = Sources(risk: Risk, snapshot: Snapshot, policy: Policy) {

    function Exec(): Execution { policy.execution }

    /** `_deployable_capital`: the least of equity, the policy ceiling and Risk's caps. */
    function Deployable(): real {
      MinOf([snapshot.equity]
            + (if policy.capitalCeiling.Some? then [policy.capitalCeiling.value] else [])
            + risk.capitalCaps)
    }

    function Mark(symbol: string): real {
      if symbol in snapshot.marks then snapshot.marks[symbol] else 1.0
    }

    function Targets(): map<string, Target> { Index(SymbolOfTarget, risk.targets) }

    function Holdings(): map<string, Holding> { Index(SymbolOfHolding, snapshot.holdings) }

    function Current(symbol: string): real {
      if symbol in Holdings() then Holdings()[symbol].quantity else 0.0
    }

    function Wanted(t: Target): real {
      FloorTo(UnitsAt(Deployable(), t.weight, Mark(t.symbol)), Exec().quantityPrecision)
    }

    function Desired(symbol: string): real {
      if symbol in Targets() then Wanted(Targets()[symbol]) else 0.0
    }

    /** `sorted(set(current) | set(desired))` */
    function Symbols(): seq<string> {
      SortedUnique(Text.Leq, Map(SymbolOfHolding, snapshot.holdings) + Map(SymbolOfTarget, risk.targets))
    }

    function Delta(symbol: string): real { Desired(symbol) - Current(symbol) }

    function Traded(symbol: string): bool {
      Abs(Delta(symbol)) > Step(Exec().quantityPrecision + 3)
    }

    function SideOf(symbol: string): Side {
      if Delta(symbol) > 0.0 then Buy else Sell
    }

    function Collar(): real { Exec().slippageBps / 10000.0 }

    /** `_enforcement_price` */
    function Price(symbol: string, side: Side): real {
      if Exec().orderType == Market then Mark(symbol)
      else if side == Buy then FloorTo(Collared(Mark(symbol), Collar(), Buy), Exec().pricePrecision)
      else CeilTo(Collared(Mark(symbol), Collar(), Sell), Exec().pricePrecision)
    }

    function SourceShares(symbol: string, side: Side): seq<Share> {
      if side == Buy then if symbol in Targets() then Targets()[symbol].shares else []
      else if symbol in Holdings() then Holdings()[symbol].shares else []
    }

    function SlicesFor(shares: seq<Share>, quantity: real): seq<Slice> {
      if TotalBasis(shares) > 0.0 then Scaled(shares, quantity) else []
    }

    function OrderFor(symbol: string): Order {
      var side := SideOf(symbol);
      var quantity := Abs(Delta(symbol));
      var price := Price(symbol, side);
      Order(symbol, side, Exec().orderType, quantity, Mark(symbol), price, Cost(quantity, price),
            SlicesFor(SourceShares(symbol, side), quantity), None)
    }

    predicate OrderedOn(side: Side, symbol: string) {
      Traded(symbol) && SideOf(symbol) == side
    }

    function OrdersOn(side: Side, symbols: seq<string>): seq<Order> {
      if symbols == [] then []
      else (if OrderedOn(side, symbols[0]) then [OrderFor(symbols[0])] else []) + OrdersOn(side, symbols[1..])
    }

    function AllocationFor(symbol: string): Allocation {
      Allocation(symbol, Desired(symbol),
                 SlicesFor(if symbol in Targets() then Targets()[symbol].shares else [], Desired(symbol)))
    }

    /** The post-trade rows, in symbol order: every target whose floored quantity is positive. */
    function AllocationsOn(symbols: seq<string>): seq<Allocation> {
      if symbols == [] then []
      else (if Desired(symbols[0]) > 0.0 then [AllocationFor(symbols[0])] else []) + AllocationsOn(symbols[1..])
    }

    function ExpectedCash(): real {
      snapshot.cash + TotalNotional(OrdersOn(Sell, Symbols())) - TotalNotional(OrdersOn(Buy, Symbols()))
    }

    function RequiredCash(): real {
      Max(0.0, snapshot.equity - Deployable() + Deployable() * risk.cashWeight)
    }

    function MarketValue(h: Holding): real { Cost(h.quantity, Mark(h.symbol)) }

    function MarkedEquity(): real {
      snapshot.cash + ValueOf(snapshot.holdings)
    }

    function ValueOf(holdings: seq<Holding>): real {
      if holdings == [] then 0.0 else MarketValue(holdings[0]) + ValueOf(holdings[1..])
    }

    // ----- Guards of the builder, before it validates its own output

    predicate WithinLimits(o: Order) {
      && o.notional + TOLERANCE >= Exec().minimumNotional
      && o.notional <= Exec().maximumNotional + TOLERANCE
    }

    /** Every guard but the Risk cash check. */
    predicate AdmissibleOrders() {
      && Abs(MarkedEquity() - snapshot.equity) <= Exec().reconciliationTolerance
      && Deployable() > 0.0
      && (forall i :: 0 <= i < |Symbols()| && Traded(Symbols()[i]) ==> WithinLimits(OrderFor(Symbols()[i])))
      && |OrdersOn(Sell, Symbols())| + |OrdersOn(Buy, Symbols())| <= Exec().maximumOrders
      && TotalNotional(OrdersOn(Buy, Symbols())) <= Exec().maximumTotalBuy + TOLERANCE
      && ExpectedCash() >= -TOLERANCE
    }

    predicate Admissible() {
      AdmissibleOrders() && ExpectedCash() + 0.01 >= RequiredCash()
    }

    // ----- What the upstream validators establish

    predicate ValidTarget(t: Target) {
      && t.weight > 0.0
      && CausalShares(t.shares, t.weight)
      && t.symbol in snapshot.marks
    }

    predicate ValidHolding(h: Holding) {
      && h.quantity > 0.0
      && CausalShares(h.shares, h.quantity)
      && h.symbol in snapshot.marks
    }

    predicate ValidRisk() {
      && risk.targets != []
      && Distinct(Map(SymbolOfTarget, risk.targets))
      && (forall i :: 0 <= i < |risk.targets| ==> ValidTarget(risk.targets[i]))
      && 0.0 <= risk.cashWeight <= 1.0
      && Abs(risk.cashWeight + Sum(Map(WeightOf, risk.targets)) - 1.0) <= TOLERANCE
    }

    ghost predicate ValidSnapshot() {
      && snapshot.equity > 0.0
      && snapshot.cash >= 0.0
      && Increasing(Text.Leq, Map(SymbolOfHolding, snapshot.holdings))
      && (forall i :: 0 <= i < |snapshot.holdings| ==>
            ValidHolding(snapshot.holdings[i]) && Sorted(BySleeve, snapshot.holdings[i].shares))
      && (forall s :: s in snapshot.marks ==> snapshot.marks[s] > 0.0)
    }

    predicate ValidPolicy() {
      && Exec().quantityPrecision <= 6
      && 2 <= Exec().pricePrecision <= 8
      && 0.0 <= Exec().slippageBps <= 100.0
    }

    ghost predicate Valid() {
      ValidRisk() && ValidSnapshot() && ValidPolicy()
    }

    // ----- The plan body

    function Seed(sells: seq<Order>, buys: seq<Order>): PlanSeed {
      PlanSeed(risk.contentHash, snapshot.contentHash, policy.contentHash, risk.approvedTargetHash, sells, buys)
    }

    /** The ids of the orders of this plan are free of collisions. */
    predicate NoCollisions(h: Digests) {
      var sells, buys := OrdersOn(Sell, Symbols()), OrdersOn(Buy, Symbols());
      var seed := h.planSeed(Seed(sells, buys));
      h.CollisionFree(Identities(seed, Sell, sells) + Identities(seed, Buy, buys))
    }

    function Body(h: Digests): Plan {
      var symbols := Symbols();
      var sells, buys := OrdersOn(Sell, symbols), OrdersOn(Buy, symbols);
      var seed := h.planSeed(Seed(sells, buys));
      Plan(h.planId(Seed(sells, buys)),
           risk.contentHash, snapshot.contentHash, policy.contentHash, risk.approvedTargetHash,
           Deployable(), snapshot.equity, snapshot.cash, snapshot.holdings,
           h.startingState(Map(StateRow, snapshot.holdings), snapshot.cash),
           snapshot.marks, risk.cashWeight, risk.targets,
           Identified(h, seed, Sell, sells), Identified(h, seed, Buy, buys),
           AllocationsOn(symbols), ExpectedCash(), Exec())
    }
  }

  // ----- Order identities

  /** `_order_seed`: the order without its ids. */
  function Unidentified(o: Order): Order {
    o.(ids := None)
  }

  function Identities(planSeed: string, side: Side, orders: seq<Order>): set<Identity> {
    set i | 0 <= i < |orders| :: Identity(planSeed, side, i + 1, Unidentified(orders[i]))
  }

  function IdsFor(h: Digests, planSeed: string, side: Side, index: nat, o: Order): OrderIds {
    var identity := Identity(planSeed, side, index, Unidentified(o));
    OrderIds(h.orderId(identity), h.clientId(identity))
  }

  function Identified(h: Digests, planSeed: string, side: Side, orders: seq<Order>): (r: seq<Order>)
    ensures |r| == |orders|
    ensures forall i :: 0 <= i < |r| ==> r[i] == orders[i].(ids := Some(IdsFor(h, planSeed, side, i + 1, orders[i])))
  {
    seq(|orders|, i requires 0 <= i < |orders| => orders[i].(ids := Some(IdsFor(h, planSeed, side, i + 1, orders[i]))))
  }

  function Cleared(orders: seq<Order>): (r: seq<Order>)
    ensures |r| == |orders| && forall i :: 0 <= i < |r| ==> r[i] == Unidentified(orders[i])
  {
    Map(Unidentified, orders)
  }

  /** The plan seed sees only the cleared orders, so it is the same before and after ids are set. */
  lemma ClearedIdentified(h: Digests, planSeed: string, side: Side, orders: seq<Order>)
    ensures Cleared(Identified(h, planSeed, side, orders)) == Cleared(orders)
    ensures Identified(h, planSeed, side, Cleared(orders)) == Identified(h, planSeed, side, orders)
  {
  }

  /** `_assign_order_ids`: pops both ids of every row in place, seeds the plan with the cleared
      rows, then sets both ids in place. */
  method AssignOrderIds(h: Digests, src: Sources, sells: array<Order>, buys: array<Order>)
    requires sells != buys
    modifies sells, buys
    ensures var seed := h.planSeed(src.Seed(Cleared(old(sells[..])), Cleared(old(buys[..]))));
            && sells[..] == Identified(h, seed, Sell, old(sells[..]))
            && buys[..] == Identified(h, seed, Buy, old(buys[..]))
  {
    ghost var s0, b0 := sells[..], buys[..];
    ClearIds(sells);
    ClearIds(buys);
    assert sells[..] == Cleared(s0) && buys[..] == Cleared(b0);
    var seed := h.planSeed(src.Seed(sells[..], buys[..]));
    SetIds(h, seed, Sell, sells);
    SetIds(h, seed, Buy, buys);
    ClearedIdentified(h, seed, Sell, s0);
    ClearedIdentified(h, seed, Buy, b0);
  }

  method ClearIds(rows: array<Order>)
    modifies rows
    ensures rows[..] == Cleared(old(rows[..]))
  {
    for i := 0 to rows.Length
      invariant forall k :: 0 <= k < i ==> rows[k] == Unidentified(old(rows[k]))
      invariant forall k :: i <= k < rows.Length ==> rows[k] == old(rows[k])
    {
      rows[i] := Unidentified(rows[i]);
    }
  }

  method SetIds(h: Digests, seed: string, side: Side, rows: array<Order>)
    modifies rows
    ensures rows[..] == Identified(h, seed, side, old(rows[..]))
  {
    for i := 0 to rows.Length
      invariant forall k :: 0 <= k < i ==>
                  rows[k] == old(rows[k]).(ids := Some(IdsFor(h, seed, side, k + 1, old(rows[k]))))
      invariant forall k :: i <= k < rows.Length ==> rows[k] == old(rows[k])
    {
      rows[i] := rows[i].(ids := Some(IdsFor(h, seed, side, i + 1, rows[i])));
    }
  }

  // ----- _build_orders

  datatype BuildError =
    | EquityDoesNotReconcile | NoDeployableCapital | BelowMinimumNotional(symbol: string)
    | AboveMaximumNotional(symbol: string) | TooManyOrders | TotalBuyExceeded
    | CashRequirementViolated | NegativeCash | RejectedByValidator

  lemma {:induction false} OrdersOnAppend(src: Sources, side: Side, s: seq<string>, t: seq<string>)
    ensures src.OrdersOn(side, s + t) == src.OrdersOn(side, s) + src.OrdersOn(side, t)
  {
    hide Sources.OrderFor, Sources.Traded;
    if s == [] {
      assert s + t == t;
    } else {
      assert (s + t)[1..] == s[1..] + t;
      OrdersOnAppend(src, side, s[1..], t);
    }
  }

  lemma OrderForSide(src: Sources, symbol: string)
    ensures src.OrderFor(symbol).side == src.SideOf(symbol) && src.OrderFor(symbol).symbol == symbol
  {
  }

  /** The i-th symbol is the first traded one whose order is outside the notional limits. */
  predicate FirstOutside(src: Sources, i: nat) {
    && i < |src.Symbols()| && src.Traded(src.Symbols()[i]) && !src.WithinLimits(src.OrderFor(src.Symbols()[i]))
    && forall k :: 0 <= k < i && src.Traded(src.Symbols()[k]) ==> src.WithinLimits(src.OrderFor(src.Symbols()[k]))
  }

  /** The error is the one of the first order outside the limits. */
  ghost predicate FirstErrorIs(src: Sources, error: BuildError) {
    exists i: nat :: FirstOutside(src, i) && error == NotionalError(src, src.Symbols()[i])
  }

  function NotionalError(src: Sources, symbol: string): BuildError {
    if src.OrderFor(symbol).notional + TOLERANCE < src.Exec().minimumNotional then BelowMinimumNotional(symbol)
    else AboveMaximumNotional(symbol)
  }

  method CheckNotional(src: Sources, symbol: string, order: Order) returns (e: Option<BuildError>)
    requires order == src.OrderFor(symbol)
    ensures e == if src.WithinLimits(order) then None else Some(NotionalError(src, symbol))
  {
    if order.notional + TOLERANCE < src.Exec().minimumNotional { return Some(BelowMinimumNotional(symbol)); }
    if order.notional > src.Exec().maximumNotional + TOLERANCE { return Some(AboveMaximumNotional(symbol)); }
    return None;
  }

  /** The order loop of `_build_orders`, over the symbols in order. */
  method CollectOrders(src: Sources) returns (r: Result<(seq<Order>, seq<Order>), BuildError>)
    ensures r.Ok? <==> forall i :: 0 <= i < |src.Symbols()| && src.Traded(src.Symbols()[i]) ==>
                         src.WithinLimits(src.OrderFor(src.Symbols()[i]))
    ensures r.Ok? ==> r.value == (src.OrdersOn(Sell, src.Symbols()), src.OrdersOn(Buy, src.Symbols()))
    ensures r.Err? ==> FirstErrorIs(src, r.error)
  {
    hide Sources.OrderFor, Sources.Traded, Sources.Symbols, NotionalError, Sources.WithinLimits;
    var symbols := src.Symbols();
    var sells: seq<Order>, buys: seq<Order> := [], [];
    for i := 0 to |symbols|
      invariant sells == src.OrdersOn(Sell, symbols[..i]) && buys == src.OrdersOn(Buy, symbols[..i])
      invariant forall k :: 0 <= k < i && src.Traded(symbols[k]) ==> src.WithinLimits(src.OrderFor(symbols[k]))
    {
      assert symbols[..i + 1] == symbols[..i] + [symbols[i]];
      OrdersOnAppend(src, Sell, symbols[..i], [symbols[i]]);
      OrdersOnAppend(src, Buy, symbols[..i], [symbols[i]]);
      if src.Traded(symbols[i]) {
        var order := src.OrderFor(symbols[i]);
        OrderForSide(src, symbols[i]);
        var error := CheckNotional(src, symbols[i], order);
        if error.Some? {
          assert FirstOutside(src, i);
          return Err(error.value);
        }
        if order.side == Buy { buys := buys + [order]; } else { sells := sells + [order]; }
      }
    }
    assert symbols[..|symbols|] == symbols;
    return Ok((sells, buys));
  }
}
