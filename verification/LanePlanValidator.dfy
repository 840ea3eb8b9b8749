/** The independent validator of plan v4: it knows only the plan and its sources, recomputes every
    identity and replays the orders from the starting state (authority/lane_exact_plan.py). */
module LanePlanValidator {
  import opened Wrappers
  import opened Sequences
  import opened Grid
  import opened SleeveShares
  import opened LanePlan

  /** How far a quantity or price may be from its grid, in grid steps. */
  const GRID_SLACK := 0.0000001

  // ----- Rows

  predicate TargetAccepted(t: Target) {
    && t.weight > 0.0
    && t.shares != []
    && (forall i :: 0 <= i < |t.shares| ==> t.shares[i].basis >= 0.0)
    && TotalBasis(t.shares) > 0.0
    && Abs(TotalBasis(t.shares) - t.weight) <= TOLERANCE
  }

  predicate TargetsAccepted(p: Plan) {
    && 0.0 <= p.cashWeight <= 1.0
    && p.targets != []
    && Distinct(Map(SymbolOfTarget, p.targets))
    && (forall i :: 0 <= i < |p.targets| ==> TargetAccepted(p.targets[i]))
    && Abs(p.cashWeight + Sum(Map(WeightOf, p.targets)) - 1.0) <= TOLERANCE
  }

  predicate PositionsAccepted(p: Plan) {
    && Distinct(Map(SymbolOfHolding, p.startingHoldings))
    && (forall i :: 0 <= i < |p.startingHoldings| ==>
          var h := p.startingHoldings[i];
          h.quantity > 0.0 && CausalShares(h.shares, h.quantity) && SortBy(BySleeve, h.shares) == h.shares)
    && Distinct(Map(SymbolOfAllocation, p.expectedPositions))
    && (forall i :: 0 <= i < |p.expectedPositions| ==>
          p.expectedPositions[i].quantity > 0.0 && p.expectedPositions[i].slices != [])
  }

  // ----- Orders

  function OrdersOf(p: Plan, side: Side): seq<Order> {
    if side == Sell then p.sells else p.buys
  }

  function PlanSeedOf(p: Plan): PlanSeed {
    PlanSeed(p.riskHash, p.snapshotHash, p.policyHash, p.approvedTargetHash, Cleared(p.sells), Cleared(p.buys))
  }

  predicate NearScale(x: real, p: real) {
    OffInteger(x * p) <= GRID_SLACK
  }

  predicate NearGrid(x: real, decimals: nat) {
    NearScale(x, Pow10(decimals))
  }

  predicate NumbersAccepted(c: Execution, o: Order) {
    && o.quantity > 0.0
    && o.price > 0.0
    && NearGrid(o.quantity, c.quantityPrecision)
    && o.reference >= 0.0
    && NearGrid(o.price, c.pricePrecision)
    && Abs(o.notional - o.quantity * o.price) <= 0.01
  }

  predicate SlicesAccepted(o: Order) {
    && o.slices != []
    && (forall i :: 0 <= i < |o.slices| ==> o.slices[i].quantity >= 0.0)
    && Abs(TotalQuantity(o.slices) - o.quantity) <= TOLERANCE
  }

  predicate OrderAccepted(h: Digests, p: Plan, side: Side, i: nat)
    requires i < |OrdersOf(p, side)|
  {
    var o := OrdersOf(p, side)[i];
    && o.side == side
    && NumbersAccepted(p.constraints, o)
    && o.ids == Some(IdsFor(h, h.planSeed(PlanSeedOf(p)), side, i + 1, o))
    && SlicesAccepted(o)
  }

  function OrderIdOf(o: Order): Option<string> {
    if o.ids.Some? then Some(o.ids.value.orderId) else None
  }

  function ClientIdOf(o: Order): Option<string> {
    if o.ids.Some? then Some(o.ids.value.clientId) else None
  }

  predicate OrdersAccepted(h: Digests, p: Plan) {
    && Distinct(Map(SymbolOfOrder, p.sells)) && Distinct(Map(SymbolOfOrder, p.buys))
    && (forall i :: 0 <= i < |p.sells| ==> OrderAccepted(h, p, Sell, i))
    && (forall i :: 0 <= i < |p.buys| ==> OrderAccepted(h, p, Buy, i))
    && Distinct(Map(OrderIdOf, p.sells + p.buys))
    && Distinct(Map(ClientIdOf, p.sells + p.buys))
  }

  /** Adds keys to a set of seen keys one by one and stops at the first that is already there. */
  method AddUnseen<K(==)>(keys: seq<K>, seen: set<K>) returns (ok: bool, all: set<K>)
    ensures ok <==> Distinct(keys) && forall i :: 0 <= i < |keys| ==> keys[i] !in seen
    ensures ok ==> all == seen + set k | k in keys
  {
    all := seen;
    for i := 0 to |keys|
      invariant all == seen + set k | k in keys[..i]
      invariant forall j, k :: 0 <= j < k < i ==> keys[j] != keys[k]
      invariant forall k :: 0 <= k < i ==> keys[k] !in seen
    {
      if keys[i] in all { return false, {}; }
      assert keys[..i + 1] == keys[..i] + [keys[i]];
      all := all + {keys[i]};
    }
    assert keys[..|keys|] == keys;
    return true, all;
  }

  /** `_validate_orders` on one side, given the ids of the other side. */
  method ValidateSide(h: Digests, p: Plan, side: Side, seenOrders: set<Option<string>>,
                      seenClients: set<Option<string>>)
    returns (ok: bool, orderIds: set<Option<string>>, clientIds: set<Option<string>>)
    ensures ok <==>
              var rows := OrdersOf(p, side);
              && Distinct(Map(SymbolOfOrder, rows))
              && (forall i :: 0 <= i < |rows| ==> OrderAccepted(h, p, side, i))
              && Distinct(Map(OrderIdOf, rows)) && Distinct(Map(ClientIdOf, rows))
              && (forall i :: 0 <= i < |rows| ==>
                    Map(OrderIdOf, rows)[i] !in seenOrders && Map(ClientIdOf, rows)[i] !in seenClients)
    ensures ok ==> orderIds == seenOrders + set k | k in Map(OrderIdOf, OrdersOf(p, side))
    ensures ok ==> clientIds == seenClients + set k | k in Map(ClientIdOf, OrdersOf(p, side))
  {
    hide OrderAccepted;
    var rows := OrdersOf(p, side);
    var symbolsOk, _ := AddUnseen(Map(SymbolOfOrder, rows), {});
    var orderIdsOk, clientIdsOk;
    orderIdsOk, orderIds := AddUnseen(Map(OrderIdOf, rows), seenOrders);
    clientIdsOk, clientIds := AddUnseen(Map(ClientIdOf, rows), seenClients);
    ok := symbolsOk && orderIdsOk && clientIdsOk;
    for i := 0 to |rows|
      invariant forall k :: 0 <= k < i ==> OrderAccepted(h, p, side, k)
    {
      if !OrderAccepted(h, p, side, i) { return false, {}, {}; }
    }
  }

  lemma DistinctConcat<K>(s: seq<K>, t: seq<K>)
    ensures Distinct(s + t) <==> Distinct(s) && Distinct(t) && forall i :: 0 <= i < |t| ==> t[i] !in s
  {
    var all := s + t;
    if Distinct(all) {
      forall i, j | 0 <= i < j < |s| ensures s[i] != s[j] { assert all[i] == s[i] && all[j] == s[j]; }
      forall i, j | 0 <= i < j < |t| ensures t[i] != t[j] { assert all[|s| + i] == t[i] && all[|s| + j] == t[j]; }
      forall i, j | 0 <= i < |t| && 0 <= j < |s| ensures t[i] != s[j] { assert all[|s| + i] == t[i] && all[j] == s[j]; }
    }
  }

  /** `_validate_orders` */
  method ValidateOrders(h: Digests, p: Plan) returns (ok: bool)
    ensures ok <==> OrdersAccepted(h, p)
  {
    var sellsOk, orderIds, clientIds := ValidateSide(h, p, Sell, {}, {});
    assert Map(OrderIdOf, p.sells + p.buys) == Map(OrderIdOf, p.sells) + Map(OrderIdOf, p.buys);
    assert Map(ClientIdOf, p.sells + p.buys) == Map(ClientIdOf, p.sells) + Map(ClientIdOf, p.buys);
    DistinctConcat(Map(OrderIdOf, p.sells), Map(OrderIdOf, p.buys));
    DistinctConcat(Map(ClientIdOf, p.sells), Map(ClientIdOf, p.buys));
    hide OrderAccepted;
    if !sellsOk { return false; }
    var buysOk, _, _ := ValidateSide(h, p, Buy, orderIds, clientIds);
    return buysOk;
  }

  // ----- Replay

  datatype Book = Book(positions: map<string, real>, cash: real)

  function Held(positions: map<string, real>, symbol: string): real {
    if symbol in positions then positions[symbol] else 0.0
  }

  function ReplaySells(b: Book, orders: seq<Order>): Option<Book>
    decreases |orders|
  {
    if orders == [] then Some(b)
    else
      var o := orders[0];
      var held := Held(b.positions, o.symbol);
      if held + TOLERANCE < o.quantity then None
      else ReplaySells(Book(b.positions[o.symbol := held - o.quantity], b.cash + o.notional), orders[1..])
  }

  function ReplayBuys(b: Book, orders: seq<Order>): Book
    decreases |orders|
  {
    if orders == [] then b
    else
      var o := orders[0];
      ReplayBuys(Book(b.positions[o.symbol := Held(b.positions, o.symbol) + o.quantity], b.cash - o.notional),
                 orders[1..])
  }

  function StartingPositions(p: Plan): map<string, real> {
    var rows := Index(SymbolOfHolding, p.startingHoldings);
    map s | s in rows :: rows[s].quantity
  }

  function Replay(p: Plan): Option<Book> {
    match ReplaySells(Book(StartingPositions(p), p.startingCash), p.sells)
    case None => None
    case Some(b) => Some(ReplayBuys(b, p.buys))
  }

  function OpenPositions(positions: map<string, real>): map<string, real> {
    map s | s in positions && positions[s] > TOLERANCE :: positions[s]
  }

  function SuppliedPositions(p: Plan): map<string, real> {
    var rows := Index(SymbolOfAllocation, p.expectedPositions);
    map s | s in rows :: rows[s].quantity
  }

  predicate ReplayAccepted(p: Plan) {
    match Replay(p)
    case None => false
    case Some(b) =>
      && OpenPositions(b.positions) == SuppliedPositions(p)
      && Abs(b.cash - p.expectedCash) <= 0.000001
  }

  /** The replay loops of the validator, updating positions and cash order by order. */
  method ReplayOrders(p: Plan) returns (r: Option<Book>)
    ensures r == Replay(p)
  {
    var positions, cash := StartingPositions(p), p.startingCash;
    for i := 0 to |p.sells|
      invariant ReplaySells(Book(StartingPositions(p), p.startingCash), p.sells)
             == ReplaySells(Book(positions, cash), p.sells[i..])
    {
      var order := p.sells[i];
      assert p.sells[i..][0] == order && p.sells[i..][1..] == p.sells[i + 1..];
      if Held(positions, order.symbol) + TOLERANCE < order.quantity { return None; }
      positions := positions[order.symbol := Held(positions, order.symbol) - order.quantity];
      cash := cash + order.notional;
    }
    ghost var sold := Book(positions, cash);
    for i := 0 to |p.buys|
      invariant ReplayBuys(sold, p.buys) == ReplayBuys(Book(positions, cash), p.buys[i..])
    {
      var order := p.buys[i];
      assert p.buys[i..][0] == order && p.buys[i..][1..] == p.buys[i + 1..];
      positions := positions[order.symbol := Held(positions, order.symbol) + order.quantity];
      cash := cash - order.notional;
    }
    return Some(Book(positions, cash));
  }

  // ----- The whole validation

  predicate OwnershipAccepted(p: Plan) {
    var approved := Index(SymbolOfTarget, p.targets);
    forall i :: 0 <= i < |p.expectedPositions| ==>
      var row := p.expectedPositions[i];
      && row.symbol in approved
      && TotalBasis(approved[row.symbol].shares) > 0.0
      && row.slices == Scaled(approved[row.symbol].shares, row.quantity)
  }

  predicate Bound(p: Plan, src: Sources) {
    && p.riskHash == src.risk.contentHash
    && p.snapshotHash == src.snapshot.contentHash
    && p.policyHash == src.policy.contentHash
    && p.approvedTargetHash == src.risk.approvedTargetHash
    && p.startingHoldings == src.snapshot.holdings
    && p.startingCash == src.snapshot.cash
    && p.startingEquity == src.snapshot.equity
    && p.marks == src.snapshot.marks
    && p.targets == src.risk.targets
    && p.cashWeight == src.risk.cashWeight
    && p.constraints == src.Exec()
  }

  predicate Accepted(h: Digests, p: Plan, src: Sources) {
    && TargetsAccepted(p)
    && PositionsAccepted(p)
    && p.startingStateHash == h.startingState(Map(StateRow, p.startingHoldings), p.startingCash)
    && OrdersAccepted(h, p)
    && p.planId == h.planId(PlanSeedOf(p))
    && ReplayAccepted(p)
    && OwnershipAccepted(p)
    && Bound(p, src)
  }

  /** `_validate_or_raise` with all three sources. */
  method Validate(h: Digests, p: Plan, src: Sources) returns (ok: bool)
    ensures ok <==> Accepted(h, p, src)
  {
    hide TargetsAccepted, PositionsAccepted, OrdersAccepted, OwnershipAccepted, Bound, Replay;
    if !TargetsAccepted(p) || !PositionsAccepted(p) { return false; }
    if p.startingStateHash != h.startingState(Map(StateRow, p.startingHoldings), p.startingCash) { return false; }
    var ordersOk := ValidateOrders(h, p);
    if !ordersOk || p.planId != h.planId(PlanSeedOf(p)) { return false; }
    var book := ReplayOrders(p);
    if book.None? { return false; }
    if OpenPositions(book.value.positions) != SuppliedPositions(p)
       || Abs(book.value.cash - p.expectedCash) > 0.000001 {
      return false;
    }
    return OwnershipAccepted(p) && Bound(p, src);
  }
}
