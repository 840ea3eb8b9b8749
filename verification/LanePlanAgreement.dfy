/** Builder and validator of plan v4 agree: exactly which source documents give a plan body that
    the independent validator accepts. */
module LanePlanAgreement {
  import opened Wrappers
  import opened Sequences
  import opened Grid
  import opened SleeveShares
  import opened LanePlan
  import opened LanePlanValidator
  import Text

  // ----- The condition

  /** A position that is not traded already is what the target asks for, or both are nothing. */
  predicate Settled(src: Sources, symbol: string) {
    src.Current(symbol) > TOLERANCE || src.Desired(symbol) > 0.0 ==> src.Current(symbol) == src.Desired(symbol)
  }

  /** A traded position starts near the quantity grid, and its price is positive and near the
      price grid.  (A collared limit price always lies on the price grid.) */
  predicate Tradable(src: Sources, symbol: string) {
    var price := src.Price(symbol, src.SideOf(symbol));
    && NearGrid(src.Current(symbol), src.Exec().quantityPrecision)
    && price > 0.0
    && NearGrid(price, src.Exec().pricePrecision)
  }

  predicate Compatible(src: Sources) {
    forall i :: 0 <= i < |src.Symbols()| ==>
      var s := src.Symbols()[i];
      if src.Traded(s) then Tradable(src, s) else Settled(src, s)
  }

  // ----- Facts about the inputs

  lemma SymbolsFacts(src: Sources)
    ensures Distinct(src.Symbols())
    ensures forall s :: s in src.Symbols() <==> s in src.Holdings() || s in src.Targets()
  {
    Text.LeqTotalOrder();
    var all := Map(SymbolOfHolding, src.snapshot.holdings) + Map(SymbolOfTarget, src.risk.targets);
    SortedUniqueIncreasing(Text.Leq, all);
    IndexKeys(SymbolOfHolding, src.snapshot.holdings);
    IndexKeys(SymbolOfTarget, src.risk.targets);
    forall s ensures s in all <==> s in src.Holdings() || s in src.Targets() {
      if s in src.Holdings() {
        var i :| 0 <= i < |src.snapshot.holdings| && src.snapshot.holdings[i].symbol == s;
        assert all[i] == s;
      }
      if s in src.Targets() {
        var i :| 0 <= i < |src.risk.targets| && src.risk.targets[i].symbol == s;
        assert all[|src.snapshot.holdings| + i] == s;
      }
      if s in all {
        var i :| 0 <= i < |all| && all[i] == s;
        if i < |src.snapshot.holdings| {
          assert src.snapshot.holdings[i] in src.snapshot.holdings && SymbolOfHolding(src.snapshot.holdings[i]) == s;
        } else {
          var t := src.risk.targets[i - |src.snapshot.holdings|];
          assert t in src.risk.targets && SymbolOfTarget(t) == s;
        }
      }
    }
  }

  lemma HoldingFacts(src: Sources, symbol: string)
    requires src.Valid() && symbol in src.Holdings()
    ensures src.ValidHolding(src.Holdings()[symbol]) && src.Holdings()[symbol].symbol == symbol
    ensures src.Current(symbol) > 0.0
  {
    IndexKeys(SymbolOfHolding, src.snapshot.holdings);
  }

  lemma TargetFacts(src: Sources, symbol: string)
    requires src.Valid() && symbol in src.Targets()
    ensures src.ValidTarget(src.Targets()[symbol]) && src.Targets()[symbol].symbol == symbol
    ensures src.Mark(symbol) > 0.0
  {
    IndexKeys(SymbolOfTarget, src.risk.targets);
  }

  lemma UnitsNonnegative(capital: real, weight: real, mark: real)
    requires capital >= 0.0 && weight >= 0.0 && mark > 0.0
    ensures UnitsAt(capital, weight, mark) >= 0.0
  {
    assert capital * weight >= 0.0;
  }

  lemma WantedFacts(src: Sources, t: Target)
    requires t.weight >= 0.0 && src.Mark(t.symbol) > 0.0 && src.Deployable() >= 0.0
    ensures src.Wanted(t) >= 0.0 && OnGrid(src.Wanted(t), src.Exec().quantityPrecision)
  {
    hide FloorTo, OnGrid, UnitsAt, Sources.Deployable, Sources.Mark;
    UnitsNonnegative(src.Deployable(), t.weight, src.Mark(t.symbol));
    FloorToBounds(UnitsAt(src.Deployable(), t.weight, src.Mark(t.symbol)), src.Exec().quantityPrecision);
  }

  /** A positive grid quantity of at most six decimals is well above the tolerance. */
  lemma AboveTolerance(x: real, decimals: nat)
    requires OnGrid(x, decimals) && x > 0.0 && decimals <= 6
    ensures x > TOLERANCE
  {
    GridGap(x, decimals);
    StepMonotone(decimals, 6);
    SixDecimals();
  }

  lemma DesiredFacts(src: Sources, symbol: string)
    requires src.Valid() && src.Deployable() > 0.0
    ensures src.Desired(symbol) >= 0.0
    ensures OnGrid(src.Desired(symbol), src.Exec().quantityPrecision)
    ensures src.Desired(symbol) > 0.0 ==> symbol in src.Targets() && src.Desired(symbol) > TOLERANCE
    ensures src.Current(symbol) >= 0.0
    ensures src.Current(symbol) > 0.0 ==> symbol in src.Holdings()
  {
    if symbol in src.Holdings() { HoldingFacts(src, symbol); }
    if symbol in src.Targets() { TargetFacts(src, symbol); }
    hide FloorTo, OnGrid, Sources.Deployable, Sources.Mark, Sources.Wanted, Sources.Targets, Sources.Holdings;
    var decimals := src.Exec().quantityPrecision;
    if symbol in src.Targets() {
      WantedFacts(src, src.Targets()[symbol]);
    } else {
      ZeroOnGrid(decimals);
    }
    if src.Desired(symbol) > 0.0 { AboveTolerance(src.Desired(symbol), decimals); }
  }

  lemma ZeroOnGrid(decimals: nat)
    ensures OnGrid(0.0, decimals)
  {
    IntegerIs(0.0 * Pow10(decimals), 0);
  }

  lemma SixDecimals()
    ensures Step(6) == 0.000001
  {
    assert Pow10(6) == 10.0 * Pow10(5) == 100.0 * Pow10(4) == 1000.0 * Pow10(3);
  }

  lemma NearScaleShift(x: real, k: real, p: real)
    requires OnScale(k, p)
    ensures NearScale(x - k, p) <==> NearScale(x, p)
    ensures NearScale(k - x, p) <==> NearScale(x, p)
  {
    Distribute(x, k, p);
    Distribute(k, x, p);
    OffIntegerShift(x * p, k * p);
  }

  /** The distance to a grid value is as far from the grid as the other end is. */
  lemma NearGridShift(x: real, k: real, decimals: nat)
    requires OnGrid(k, decimals)
    ensures NearGrid(Abs(k - x), decimals) <==> NearGrid(x, decimals)
  {
    NearScaleShift(x, k, Pow10(decimals));
    hide NearScale;
    assert Abs(k - x) == k - x || Abs(k - x) == x - k;
  }

  // ----- What the order lists contain

  lemma {:induction false} OrdersOnShape(src: Sources, side: Side, symbols: seq<string>)
    requires Distinct(symbols)
    ensures forall o :: o in src.OrdersOn(side, symbols) ==>
              o.symbol in symbols && src.OrderedOn(side, o.symbol) && o == src.OrderFor(o.symbol)
    ensures forall s :: s in symbols && src.OrderedOn(side, s) ==> src.OrderFor(s) in src.OrdersOn(side, symbols)
    ensures Distinct(Map(SymbolOfOrder, src.OrdersOn(side, symbols)))
  {
    if symbols != [] {
      var s, rest := symbols[0], symbols[1..];
      assert symbols == [s] + rest && s !in rest;
      OrdersOnShape(src, side, rest);
      OrderForSide(src, s);
      hide Sources.OrderFor, Sources.OrderedOn;
      var tail := src.OrdersOn(side, rest);
      forall i | 0 <= i < |tail| ensures tail[i].symbol != s { assert tail[i] in tail; }
    }
  }

  lemma {:induction false} AllocationsShape(src: Sources, symbols: seq<string>)
    requires Distinct(symbols)
    ensures forall a :: a in src.AllocationsOn(symbols) ==>
              a.symbol in symbols && src.Desired(a.symbol) > 0.0 && a == src.AllocationFor(a.symbol)
    ensures forall s :: s in symbols && src.Desired(s) > 0.0 ==> src.AllocationFor(s) in src.AllocationsOn(symbols)
    ensures Distinct(Map(SymbolOfAllocation, src.AllocationsOn(symbols)))
  {
    if symbols != [] {
      var s, rest := symbols[0], symbols[1..];
      assert symbols == [s] + rest && s !in rest;
      AllocationsShape(src, rest);
      assert src.AllocationFor(s).symbol == s;
      hide Sources.AllocationFor, Sources.Desired;
      var tail := src.AllocationsOn(rest);
      forall i | 0 <= i < |tail| ensures tail[i].symbol != s { assert tail[i] in tail; }
    }
  }

  // ----- One order

  lemma OnScaleIsNear(x: real, p: real)
    requires OnScale(x, p)
    ensures NearScale(x, p)
  {
    IntegerIs(x * p, (x * p).Floor);
  }

  lemma OnGridIsNear(x: real, decimals: nat)
    requires OnGrid(x, decimals)
    ensures NearGrid(x, decimals)
  {
    OnScaleIsNear(x, Pow10(decimals));
  }

  lemma LimitPriceOnGrid(src: Sources, symbol: string, side: Side)
    requires src.Exec().orderType == Limit
    ensures NearGrid(src.Price(symbol, side), src.Exec().pricePrecision)
  {
    hide FloorTo, CeilTo, OnGrid, NearGrid, Collared, Sources.Mark, Sources.Collar;
    var decimals := src.Exec().pricePrecision;
    FloorToBounds(Collared(src.Mark(symbol), src.Collar(), Buy), decimals);
    CeilToBounds(Collared(src.Mark(symbol), src.Collar(), Sell), decimals);
    OnGridIsNear(src.Price(symbol, side), decimals);
  }

  lemma OrderSlicesAccepted(src: Sources, symbol: string)
    requires src.Valid() && src.Deployable() > 0.0 && src.Traded(symbol)
    ensures SlicesAccepted(src.OrderFor(symbol))
  {
    DesiredFacts(src, symbol);
    var shares := src.SourceShares(symbol, src.SideOf(symbol));
    var quantity := Abs(src.Delta(symbol));
    if src.SideOf(symbol) == Buy { TargetFacts(src, symbol); } else { HoldingFacts(src, symbol); }
    PositiveTotal(shares);
    ScaledConserves(shares, quantity);
    var slices := Scaled(shares, quantity);
    forall i | 0 <= i < |slices| ensures slices[i].quantity >= 0.0 { assert slices[i] in slices; }
  }

  lemma NumbersOfOrder(c: Execution, o: Order)
    requires o.quantity > 0.0 && o.reference >= 0.0 && o.notional == Cost(o.quantity, o.price)
    ensures NumbersAccepted(c, o) <==>
              NearGrid(o.quantity, c.quantityPrecision) && o.price > 0.0 && NearGrid(o.price, c.pricePrecision)
  {
    hide NearGrid;
  }

  lemma OrderForFields(src: Sources, symbol: string)
    ensures var o := src.OrderFor(symbol);
            && o.symbol == symbol
            && o.side == src.SideOf(symbol)
            && o.quantity == Abs(src.Delta(symbol))
            && o.reference == src.Mark(symbol)
            && o.price == src.Price(symbol, src.SideOf(symbol))
            && o.notional == Cost(o.quantity, o.price)
            && o.ids == None
  {
    hide Sources.Price, Sources.Mark, Sources.Delta, Sources.SideOf, Sources.SlicesFor, Sources.SourceShares;
  }

  /** What a traded symbol gives the builder to work with. */
  lemma TradedFacts(src: Sources, symbol: string)
    requires src.Valid() && src.Deployable() > 0.0 && src.Traded(symbol)
    ensures Abs(src.Delta(symbol)) > 0.0 && src.Mark(symbol) > 0.0
    ensures src.SideOf(symbol) == Buy ==> symbol in src.Targets() && src.Desired(symbol) > src.Current(symbol)
    ensures src.SideOf(symbol) == Sell ==> symbol in src.Holdings() && src.Desired(symbol) < src.Current(symbol)
    ensures 0.0 <= src.Desired(symbol) && 0.0 <= src.Current(symbol)
  {
    DesiredFacts(src, symbol);
    if src.SideOf(symbol) == Buy { TargetFacts(src, symbol); } else { HoldingFacts(src, symbol); }
    hide Sources.Desired, Sources.Current, Sources.Mark, Sources.Valid, Sources.Deployable, Step;
  }

  lemma OrderNumbersAccepted(src: Sources, symbol: string)
    requires src.Valid() && src.Deployable() > 0.0 && src.Traded(symbol)
    ensures NumbersAccepted(src.Exec(), src.OrderFor(symbol)) <==> Tradable(src, symbol)
  {
    TradedFacts(src, symbol);
    DesiredFacts(src, symbol);
    OrderForFields(src, symbol);
    hide NearGrid, OnGrid, NumbersAccepted, Cost, Sources.OrderFor, Sources.Desired, Sources.Current, Sources.Price,
         Sources.Mark, Sources.Valid, Sources.Deployable, Sources.Traded, Sources.SideOf;
    NearGridShift(src.Current(symbol), src.Desired(symbol), src.Exec().quantityPrecision);
    NumbersOfOrder(src.Exec(), src.OrderFor(symbol));
  }

  // ----- Replaying orders with distinct symbols

  lemma TotalNotionalHead(orders: seq<Order>)
    requires orders != []
    ensures TotalNotional(orders) == orders[0].notional + TotalNotional(orders[1..])
  {
    assert Map(NotionalOf, orders)[1..] == Map(NotionalOf, orders[1..]);
  }

  lemma DistinctTail(orders: seq<Order>)
    requires orders != [] && Distinct(Map(SymbolOfOrder, orders))
    ensures Distinct(Map(SymbolOfOrder, orders[1..]))
    ensures forall i :: 0 <= i < |orders[1..]| ==> orders[1..][i].symbol != orders[0].symbol
  {
    var keys := Map(SymbolOfOrder, orders);
    assert Map(SymbolOfOrder, orders[1..]) == keys[1..];
    forall i | 0 <= i < |orders[1..]| ensures orders[1..][i].symbol != orders[0].symbol {
      assert keys[0] != keys[i + 1];
    }
  }

  predicate Names(orders: seq<Order>, symbol: string) {
    exists i :: 0 <= i < |orders| && orders[i].symbol == symbol
  }

  /** What a list of orders adds to or takes from one symbol. */
  function Net(orders: seq<Order>, symbol: string): real {
    if orders == [] then 0.0
    else (if orders[0].symbol == symbol then orders[0].quantity else 0.0) + Net(orders[1..], symbol)
  }

  lemma NamesHead(orders: seq<Order>, symbol: string)
    requires orders != []
    ensures Names(orders, symbol) <==> orders[0].symbol == symbol || Names(orders[1..], symbol)
  {
    var rest := orders[1..];
    if Names(rest, symbol) {
      var i :| 0 <= i < |rest| && rest[i].symbol == symbol;
      assert orders[i + 1].symbol == symbol;
    }
    if Names(orders, symbol) {
      var i :| 0 <= i < |orders| && orders[i].symbol == symbol;
      assert i > 0 ==> rest[i - 1].symbol == symbol;
    }
  }

  lemma {:induction false} NetOfDistinct(orders: seq<Order>, symbol: string)
    requires Distinct(Map(SymbolOfOrder, orders))
    ensures !Names(orders, symbol) ==> Net(orders, symbol) == 0.0
    ensures forall i :: 0 <= i < |orders| && orders[i].symbol == symbol ==> Net(orders, symbol) == orders[i].quantity
  {
    if orders != [] {
      DistinctTail(orders);
      NamesHead(orders, symbol);
      NetOfDistinct(orders[1..], symbol);
      assert orders[0].symbol == symbol ==> !Names(orders[1..], symbol);
      forall i | 0 <= i < |orders| && orders[i].symbol == symbol ensures Net(orders, symbol) == orders[i].quantity {
        if i > 0 { assert orders[1..][i - 1] == orders[i]; }
      }
    }
  }

  lemma {:induction false} ReplayBuysNet(b: Book, orders: seq<Order>, symbol: string)
    ensures Held(ReplayBuys(b, orders).positions, symbol) == Held(b.positions, symbol) + Net(orders, symbol)
    ensures symbol in ReplayBuys(b, orders).positions <==> symbol in b.positions || Names(orders, symbol)
    decreases |orders|
  {
    if orders != [] {
      var o := orders[0];
      NamesHead(orders, symbol);
      ReplayBuysNet(Book(b.positions[o.symbol := Held(b.positions, o.symbol) + o.quantity], b.cash - o.notional),
                    orders[1..], symbol);
    }
  }

  lemma {:induction false} ReplayBuysCash(b: Book, orders: seq<Order>)
    ensures ReplayBuys(b, orders).cash == b.cash - TotalNotional(orders)
    decreases |orders|
  {
    if orders != [] {
      var o := orders[0];
      TotalNotionalHead(orders);
      ReplayBuysCash(Book(b.positions[o.symbol := Held(b.positions, o.symbol) + o.quantity], b.cash - o.notional),
                     orders[1..]);
    }
  }

  lemma {:induction false} ReplaySellsNet(b: Book, orders: seq<Order>, symbol: string)
    requires ReplaySells(b, orders).Some?
    ensures Held(ReplaySells(b, orders).value.positions, symbol) == Held(b.positions, symbol) - Net(orders, symbol)
    ensures symbol in ReplaySells(b, orders).value.positions <==> symbol in b.positions || Names(orders, symbol)
    decreases |orders|
  {
    if orders != [] {
      var o := orders[0];
      NamesHead(orders, symbol);
      ReplaySellsNet(Book(b.positions[o.symbol := Held(b.positions, o.symbol) - o.quantity], b.cash + o.notional),
                     orders[1..], symbol);
    }
  }

  /** Distinct sells that each fit their position replay, and bring in their notional. */
  lemma {:induction false} ReplaySellsFit(b: Book, orders: seq<Order>)
    requires Distinct(Map(SymbolOfOrder, orders))
    requires forall i :: 0 <= i < |orders| ==> Held(b.positions, orders[i].symbol) + TOLERANCE >= orders[i].quantity
    ensures ReplaySells(b, orders).Some?
    ensures ReplaySells(b, orders).value.cash == b.cash + TotalNotional(orders)
    decreases |orders|
  {
    if orders != [] {
      var o, rest := orders[0], orders[1..];
      TotalNotionalHead(orders);
      DistinctTail(orders);
      var next := Book(b.positions[o.symbol := Held(b.positions, o.symbol) - o.quantity], b.cash + o.notional);
      forall i | 0 <= i < |rest| ensures Held(next.positions, rest[i].symbol) + TOLERANCE >= rest[i].quantity {
        assert rest[i] == orders[i + 1];
      }
      ReplaySellsFit(next, rest);
    }
  }

  // ----- The built body, section by section

  function Built(src: Sources, side: Side): seq<Order> {
    src.OrdersOn(side, src.Symbols())
  }

  lemma BuiltOrders(src: Sources, side: Side)
    ensures Distinct(Map(SymbolOfOrder, Built(src, side)))
    ensures forall i :: 0 <= i < |Built(src, side)| ==>
              var o := Built(src, side)[i];
              && o.symbol in src.Symbols() && src.OrderedOn(side, o.symbol) && o == src.OrderFor(o.symbol)
                   && o.ids == None
    ensures forall s :: s in src.Symbols() && src.OrderedOn(side, s) ==> Names(Built(src, side), s)
    ensures Cleared(Built(src, side)) == Built(src, side)
  {
    SymbolsFacts(src);
    OrdersOnShape(src, side, src.Symbols());
    hide Sources.OrderFor, Sources.OrderedOn, Sources.Symbols, Sources.OrdersOn;
    var orders := Built(src, side);
    forall i | 0 <= i < |orders|
      ensures orders[i].symbol in src.Symbols() && src.OrderedOn(side, orders[i].symbol)
      ensures orders[i] == src.OrderFor(orders[i].symbol) && orders[i].ids == None
    {
      assert orders[i] in orders;
      OrderForFields(src, orders[i].symbol);
    }
    forall s | s in src.Symbols() && src.OrderedOn(side, s) ensures Names(orders, s) {
      OrderForFields(src, s);
      var i :| 0 <= i < |orders| && orders[i] == src.OrderFor(s);
      assert orders[i].symbol == s;
    }
  }

  lemma BodySeed(h: Digests, src: Sources)
    ensures PlanSeedOf(src.Body(h)) == src.Seed(Built(src, Sell), Built(src, Buy))
    ensures OrdersOf(src.Body(h), Sell)
         == Identified(h, h.planSeed(PlanSeedOf(src.Body(h))), Sell, Built(src, Sell))
    ensures OrdersOf(src.Body(h), Buy)
         == Identified(h, h.planSeed(PlanSeedOf(src.Body(h))), Buy, Built(src, Buy))
  {
    BuiltOrders(src, Sell);
    BuiltOrders(src, Buy);
    hide Sources.OrdersOn, Sources.Symbols, Sources.OrderFor, Sources.OrderedOn, Sources.Deployable,
         Sources.AllocationsOn, Sources.ExpectedCash;
    var seed := h.planSeed(src.Seed(Built(src, Sell), Built(src, Buy)));
    ClearedIdentified(h, seed, Sell, Built(src, Sell));
    ClearedIdentified(h, seed, Buy, Built(src, Buy));
  }

  lemma BodyOrderAccepted(h: Digests, src: Sources, side: Side, i: nat)
    requires src.Valid() && src.Deployable() > 0.0
    requires i < |Built(src, side)|
    ensures |OrdersOf(src.Body(h), side)| == |Built(src, side)|
    ensures OrderAccepted(h, src.Body(h), side, i) <==> Tradable(src, Built(src, side)[i].symbol)
  {
    BodySeed(h, src);
    BuiltOrders(src, side);
    var o := Built(src, side)[i];
    assert src.Traded(o.symbol) && src.SideOf(o.symbol) == side;
    OrderForFields(src, o.symbol);
    OrderNumbersAccepted(src, o.symbol);
    OrderSlicesAccepted(src, o.symbol);
    var p := src.Body(h);
    assert p.constraints == src.Exec();
    hide Sources.Body, Sources.OrderFor, Sources.OrdersOn, Sources.Symbols, Sources.Traded, Sources.Valid,
         Sources.Deployable, NumbersAccepted, Tradable, Built, PlanSeedOf, OrdersOf;
    var a := OrdersOf(p, side)[i];
    assert Unidentified(a) == Unidentified(o);
    SameNumbers(p.constraints, a, o);
  }

  lemma SameNumbers(c: Execution, a: Order, b: Order)
    requires Unidentified(a) == Unidentified(b)
    ensures NumbersAccepted(c, a) <==> NumbersAccepted(c, b)
    ensures SlicesAccepted(a) <==> SlicesAccepted(b)
  {
  }

  ghost predicate SideTradable(src: Sources, side: Side) {
    forall s :: s in src.Symbols() && src.OrderedOn(side, s) ==> Tradable(src, s)
  }

  lemma TotalIdentified(h: Digests, seed: string, side: Side, orders: seq<Order>)
    ensures TotalNotional(Identified(h, seed, side, orders)) == TotalNotional(orders)
  {
    assert Map(NotionalOf, Identified(h, seed, side, orders)) == Map(NotionalOf, orders);
  }

  /** The orders of the body are the built ones with ids. */
  lemma BodySymbols(h: Digests, src: Sources, side: Side)
    ensures var orders, built := OrdersOf(src.Body(h), side), Built(src, side);
            |orders| == |built| && TotalNotional(orders) == TotalNotional(built)
            && Map(SymbolOfOrder, orders) == Map(SymbolOfOrder, built)
            && forall i :: 0 <= i < |orders| ==> orders[i].symbol == built[i].symbol
  {
    BodySeed(h, src);
    TotalIdentified(h, h.planSeed(PlanSeedOf(src.Body(h))), side, Built(src, side));
    hide Sources.Body, Sources.Symbols, Sources.OrdersOn, Sources.OrderFor, TotalNotional, PlanSeedOf;
  }

  lemma BodySideAccepted(h: Digests, src: Sources, side: Side)
    requires src.Valid() && src.Deployable() > 0.0
    ensures Distinct(Map(SymbolOfOrder, OrdersOf(src.Body(h), side)))
    ensures (forall i :: 0 <= i < |OrdersOf(src.Body(h), side)| ==> OrderAccepted(h, src.Body(h), side, i))
       <==> SideTradable(src, side)
  {
    hide Sources.Body, Sources.OrderFor, Sources.OrdersOn, Sources.Symbols, Sources.Valid, Sources.Deployable,
         Sources.OrderedOn, OrderAccepted, Tradable, Built, PlanSeedOf, OrdersOf;
    var p := src.Body(h);
    BuiltOrders(src, side);
    BodySymbols(h, src, side);
    forall i | 0 <= i < |Built(src, side)|
      ensures OrderAccepted(h, p, side, i) <==> Tradable(src, Built(src, side)[i].symbol)
    {
      BodyOrderAccepted(h, src, side, i);
    }
    if forall i :: 0 <= i < |OrdersOf(p, side)| ==> OrderAccepted(h, p, side, i) {
      forall s | s in src.Symbols() && src.OrderedOn(side, s) ensures Tradable(src, s) {
        var i :| 0 <= i < |Built(src, side)| && Built(src, side)[i].symbol == s;
        assert OrderAccepted(h, p, side, i);
      }
    }
  }

  ghost predicate TradedAreTradable(src: Sources) {
    forall s :: s in src.Symbols() && src.Traded(s) ==> Tradable(src, s)
  }

  /** The order section is accepted exactly when every traded symbol is tradable. */
  lemma BodyOrdersAccepted(h: Digests, src: Sources)
    requires src.NoCollisions(h) && src.Valid() && src.Deployable() > 0.0
    ensures OrdersAccepted(h, src.Body(h)) <==> TradedAreTradable(src)
  {
    var p := src.Body(h);
    BodySideAccepted(h, src, Sell);
    BodySideAccepted(h, src, Buy);
    BodySeed(h, src);
    var seed := h.planSeed(PlanSeedOf(p));
    BodyIdsDistinct(h, seed, Built(src, Sell), Built(src, Buy));
    forall s ensures src.Traded(s) <==> src.OrderedOn(Sell, s) || src.OrderedOn(Buy, s) {
    }
    assert OrdersOf(p, Sell) == p.sells && OrdersOf(p, Buy) == p.buys;
    hide Sources.Body, Sources.Symbols, Sources.Valid, Sources.Deployable, Sources.OrderedOn, Sources.Traded,
         OrderAccepted, Tradable, Built, PlanSeedOf;
  }

  lemma IdentityIn(seed: string, side: Side, orders: seq<Order>, i: nat)
    requires i < |orders|
    ensures Identity(seed, side, i + 1, Unidentified(orders[i])) in Identities(seed, side, orders)
  {
  }

  lemma BodyIdsDistinct(h: Digests, seed: string, sells: seq<Order>, buys: seq<Order>)
    requires h.CollisionFree(Identities(seed, Sell, sells) + Identities(seed, Buy, buys))
    ensures Distinct(Map(OrderIdOf, Identified(h, seed, Sell, sells) + Identified(h, seed, Buy, buys)))
    ensures Distinct(Map(ClientIdOf, Identified(h, seed, Sell, sells) + Identified(h, seed, Buy, buys)))
  {
    hide Identities, Unidentified;
    var all := Identified(h, seed, Sell, sells) + Identified(h, seed, Buy, buys);
    forall i, j | 0 <= i < j < |all|
      ensures OrderIdOf(all[i]) != OrderIdOf(all[j]) && ClientIdOf(all[i]) != ClientIdOf(all[j])
    {
      var a := if i < |sells| then Identity(seed, Sell, i + 1, Unidentified(sells[i]))
               else Identity(seed, Buy, i - |sells| + 1, Unidentified(buys[i - |sells|]));
      var b := if j < |sells| then Identity(seed, Sell, j + 1, Unidentified(sells[j]))
               else Identity(seed, Buy, j - |sells| + 1, Unidentified(buys[j - |sells|]));
      assert a != b;
      if i < |sells| { IdentityIn(seed, Sell, sells, i); } else { IdentityIn(seed, Buy, buys, i - |sells|); }
      if j < |sells| { IdentityIn(seed, Sell, sells, j); } else { IdentityIn(seed, Buy, buys, j - |sells|); }
      assert all[i].ids == Some(OrderIds(h.orderId(a), h.clientId(a)));
      assert all[j].ids == Some(OrderIds(h.orderId(b), h.clientId(b)));
    }
  }

  // ----- Replay of the built body

  ghost predicate EndsAsTraded(src: Sources, b: Book) {
    forall s :: s in src.Symbols() ==>
      Held(b.positions, s) == if src.Traded(s) then src.Desired(s) else src.Current(s)
  }

  lemma StartingAreCurrent(h: Digests, src: Sources)
    ensures forall s :: Held(StartingPositions(src.Body(h)), s) == src.Current(s)
    ensures StartingPositions(src.Body(h)).Keys == src.Holdings().Keys
  {
    hide Sources.OrdersOn, Sources.AllocationsOn, Sources.Symbols;
  }

  /** Replaying distinct sells and then distinct buys, each of which moves its symbol from `current`
      to `desired`, leaves exactly the traded symbols at their desired quantity. */
  lemma ReplayMoves(p: Plan, current: string -> real, desired: string -> real, sold: set<string>, bought: set<string>)
    requires forall s :: Held(StartingPositions(p), s) == current(s)
    requires Distinct(Map(SymbolOfOrder, p.sells)) && Distinct(Map(SymbolOfOrder, p.buys)) && sold !! bought
    requires forall s :: Names(p.sells, s) <==> s in sold
    requires forall s :: Names(p.buys, s) <==> s in bought
    requires forall i :: 0 <= i < |p.sells| ==>
               var o := p.sells[i];
               o.symbol in StartingPositions(p) && o.quantity == current(o.symbol) - desired(o.symbol)
                   && desired(o.symbol) >= 0.0
    requires forall i :: 0 <= i < |p.buys| ==> var o := p.buys[i]; o.quantity == desired(o.symbol) - current(o.symbol)
    ensures Replay(p).Some?
    ensures Replay(p).value.cash == p.startingCash + TotalNotional(p.sells) - TotalNotional(p.buys)
    ensures forall s :: Held(Replay(p).value.positions, s) == if s in sold || s in bought then desired(s)
            else current(s)
    ensures forall s :: s in Replay(p).value.positions ==> s in StartingPositions(p) || s in bought
  {
    var start := Book(StartingPositions(p), p.startingCash);
    hide StartingPositions;
    ReplaySellsFit(start, p.sells);
    var after := ReplaySells(start, p.sells).value;
    ReplayBuysCash(after, p.buys);
    var end := ReplayBuys(after, p.buys);
    assert Replay(p) == Some(end);
    forall s
      ensures Held(end.positions, s) == if s in sold || s in bought then desired(s) else current(s)
      ensures s in end.positions ==> s in start.positions || s in bought
    {
      ReplaySellsNet(start, p.sells, s);
      ReplayBuysNet(after, p.buys, s);
      NetOfDistinct(p.sells, s);
      NetOfDistinct(p.buys, s);
      assert s in sold ==> exists i :: 0 <= i < |p.sells| && p.sells[i].symbol == s;
      assert s in bought ==> exists i :: 0 <= i < |p.buys| && p.buys[i].symbol == s;
    }
  }

  function MoveSize(src: Sources, side: Side, symbol: string): real {
    if side == Sell then src.Current(symbol) - src.Desired(symbol) else src.Desired(symbol) - src.Current(symbol)
  }

  lemma MovedFacts(src: Sources)
    ensures Moved(src, Sell) !! Moved(src, Buy)
    ensures forall s :: s in src.Symbols() ==> (src.Traded(s) <==> s in Moved(src, Sell) || s in Moved(src, Buy))
    ensures forall side: Side, s :: s in Moved(src, side) ==> s in src.Symbols()
  {
  }

  ghost function Moved(src: Sources, side: Side): set<string> {
    set s | s in src.Symbols() && src.OrderedOn(side, s)
  }

  lemma BodySideOrders(h: Digests, src: Sources, side: Side, i: nat)
    requires src.Valid() && src.Deployable() > 0.0 && i < |Built(src, side)|
    ensures |OrdersOf(src.Body(h), side)| == |Built(src, side)|
    ensures var o, s := OrdersOf(src.Body(h), side)[i], Built(src, side)[i].symbol;
            && o.symbol == s && o.quantity == MoveSize(src, side, s)
            && src.Desired(s) >= 0.0 && (side == Sell ==> s in src.Holdings())
  {
    BodySeed(h, src);
    BuiltOrders(src, side);
    var s := Built(src, side)[i].symbol;
    OrderForFields(src, s);
    TradedFacts(src, s);
    assert src.SideOf(s) == side;
    hide Sources.Body, Sources.OrderFor, Sources.OrdersOn, Sources.Symbols, Sources.Valid, Sources.Deployable,
         Sources.Holdings, Sources.Desired, Sources.Current, Built, PlanSeedOf, OrdersOf, Step;
  }

  lemma BodySideMoves(h: Digests, src: Sources, side: Side)
    requires src.Valid() && src.Deployable() > 0.0
    ensures var orders := OrdersOf(src.Body(h), side);
            && Distinct(Map(SymbolOfOrder, orders))
            && TotalNotional(orders) == TotalNotional(Built(src, side))
            && (forall s :: Names(orders, s) <==> s in Moved(src, side))
            && forall i :: 0 <= i < |orders| ==>
                 var s := orders[i].symbol;
                 && orders[i].quantity == MoveSize(src, side, s)
                 && src.Desired(s) >= 0.0 && (side == Sell ==> s in src.Holdings())
  {
    hide Sources.Body, Sources.OrderFor, Sources.OrdersOn, Sources.Symbols, Sources.Valid, Sources.Deployable,
         Sources.OrderedOn, Sources.Holdings, Sources.Desired, Sources.Delta, Built, PlanSeedOf, OrdersOf, MoveSize,
         TotalNotional;
    BuiltOrders(src, side);
    BodySymbols(h, src, side);
    var orders, built := OrdersOf(src.Body(h), side), Built(src, side);
    forall i | 0 <= i < |built|
      ensures orders[i].symbol == built[i].symbol && orders[i].quantity == MoveSize(src, side, built[i].symbol)
      ensures side == Sell ==> built[i].symbol in src.Holdings()
      ensures src.Desired(built[i].symbol) >= 0.0
    {
      BodySideOrders(h, src, side, i);
    }
    forall s ensures Names(orders, s) <==> s in Moved(src, side) {
      if Names(orders, s) {
        var i :| 0 <= i < |orders| && orders[i].symbol == s;
        assert built[i].symbol == s;
      }
      if s in Moved(src, side) {
        var i :| 0 <= i < |built| && built[i].symbol == s;
        assert orders[i].symbol == s;
      }
    }
  }

  lemma BodySides(h: Digests, src: Sources)
    ensures var p := src.Body(h);
            && OrdersOf(p, Sell) == p.sells && OrdersOf(p, Buy) == p.buys && p.startingCash == src.snapshot.cash
            && src.ExpectedCash() == src.snapshot.cash + TotalNotional(Built(src, Sell))
                 - TotalNotional(Built(src, Buy))
  {
    hide Sources.Symbols, Sources.OrdersOn, Sources.AllocationsOn, TotalNotional, Sources.Deployable;
  }

  /** Replaying the built orders from the broker snapshot ends in the expected cash and with every
      traded symbol at its desired quantity. */
  lemma BodyReplays(h: Digests, src: Sources)
    requires src.Valid() && src.Deployable() > 0.0
    ensures Replay(src.Body(h)).Some?
    ensures Replay(src.Body(h)).value.cash == src.ExpectedCash()
    ensures EndsAsTraded(src, Replay(src.Body(h)).value)
    ensures forall s :: s in Replay(src.Body(h)).value.positions ==> s in src.Symbols()
  {
    hide Sources.Body, Sources.Symbols, Sources.Valid, Sources.Deployable, Sources.Holdings, Sources.Targets,
         Sources.Desired, Sources.Current, Sources.Traded, Sources.OrdersOn, StartingPositions, Replay, OrdersOf,
         Names, Moved, TotalNotional, Built, Sources.Delta, Sources.SideOf, Sources.ExpectedCash;
    var p := src.Body(h);
    BodySideMoves(h, src, Sell);
    BodySideMoves(h, src, Buy);
    SymbolsFacts(src);
    StartingAreCurrent(h, src);
    MovedFacts(src);
    BodySides(h, src);
    ReplayMoves(p, s => src.Current(s), s => src.Desired(s), Moved(src, Sell), Moved(src, Buy));
  }
}
