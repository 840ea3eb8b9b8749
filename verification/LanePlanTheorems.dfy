/** Main results on plan v4: the exact condition under which the validator accepts what the builder
    constructs, and the cash the built orders leave. */
module LanePlanTheorems {
  import opened Wrappers
  import opened Sequences
  import opened Grid
  import opened SleeveShares
  import opened LanePlan
  import opened LanePlanValidator
  import opened LanePlanAgreement

  // ----- Post-trade rows

  lemma BodyAllocations(h: Digests, src: Sources)
    ensures Distinct(Map(SymbolOfAllocation, src.Body(h).expectedPositions))
    ensures forall i :: 0 <= i < |src.Body(h).expectedPositions| ==>
              var a := src.Body(h).expectedPositions[i];
              a.symbol in src.Symbols() && src.Desired(a.symbol) > 0.0 && a == src.AllocationFor(a.symbol)
    ensures SuppliedPositions(src.Body(h)).Keys == set s | s in src.Symbols() && src.Desired(s) > 0.0
    ensures forall s :: s in SuppliedPositions(src.Body(h)) ==> SuppliedPositions(src.Body(h))[s] == src.Desired(s)
  {
    SymbolsFacts(src);
    AllocationsShape(src, src.Symbols());
    var rows := src.AllocationsOn(src.Symbols());
    assert src.Body(h).expectedPositions == rows;
    IndexKeys(SymbolOfAllocation, rows);
    forall a | a in rows ensures a.quantity == src.Desired(a.symbol) { }
    hide Sources.Body, Sources.Symbols, Sources.AllocationsOn, Sources.Desired, Sources.AllocationFor;
    forall i | 0 <= i < |rows|
      ensures rows[i].symbol in src.Symbols() && src.Desired(rows[i].symbol) > 0.0
      ensures rows[i] == src.AllocationFor(rows[i].symbol)
    {
      assert rows[i] in rows;
    }
    forall s | s in src.Symbols() && src.Desired(s) > 0.0 ensures s in SuppliedPositions(src.Body(h)) {
      assert src.AllocationFor(s) in rows;
      AllocationSymbol(src, s);
    }
  }

  lemma AllocationSymbol(src: Sources, symbol: string)
    ensures SymbolOfAllocation(src.AllocationFor(symbol)) == symbol
  {
  }

  lemma AllocationSlices(src: Sources, symbol: string)
    requires src.Valid() && src.Deployable() > 0.0 && src.Desired(symbol) > 0.0
    ensures symbol in src.Targets() && TotalBasis(src.Targets()[symbol].shares) > 0.0
    ensures src.AllocationFor(symbol).slices == Scaled(src.Targets()[symbol].shares, src.Desired(symbol))
    ensures src.AllocationFor(symbol).slices != []
  {
    DesiredFacts(src, symbol);
    TargetFacts(src, symbol);
    var shares := src.Targets()[symbol].shares;
    PositiveTotal(shares);
    ScaledConserves(shares, src.Desired(symbol));
    hide Sources.Desired, Sources.Deployable, Scaled;
  }

  // ----- Sections of the validator on the built body

  lemma BodyTargetsAccepted(h: Digests, src: Sources)
    requires src.Valid()
    ensures TargetsAccepted(src.Body(h))
  {
    hide Sources.OrdersOn, Sources.AllocationsOn, Sources.Symbols, Sources.Deployable;
    forall i | 0 <= i < |src.risk.targets| ensures TargetAccepted(src.risk.targets[i]) {
      assert src.ValidTarget(src.risk.targets[i]);
      PositiveTotal(src.risk.targets[i].shares);
    }
  }

  lemma BodyPositionsAccepted(h: Digests, src: Sources)
    requires src.Valid() && src.Deployable() > 0.0
    ensures PositionsAccepted(src.Body(h))
  {
    BodyAllocations(h, src);
    var p := src.Body(h);
    forall i | 0 <= i < |p.expectedPositions|
      ensures p.expectedPositions[i].quantity > 0.0 && p.expectedPositions[i].slices != []
    {
      AllocationSlices(src, p.expectedPositions[i].symbol);
    }
    hide Sources.OrdersOn, Sources.AllocationsOn, Sources.Symbols, Sources.Deployable, Sources.Desired;
    forall i | 0 <= i < |src.snapshot.holdings|
      ensures src.ValidHolding(src.snapshot.holdings[i])
      ensures SortBy(BySleeve, src.snapshot.holdings[i].shares) == src.snapshot.holdings[i].shares
    {
      SortByFixedPoint(BySleeve, src.snapshot.holdings[i].shares);
    }
  }

  lemma BodyOwnershipAccepted(h: Digests, src: Sources)
    requires src.Valid() && src.Deployable() > 0.0
    ensures OwnershipAccepted(src.Body(h))
  {
    BodyAllocations(h, src);
    var p := src.Body(h);
    assert p.targets == src.risk.targets;
    forall i | 0 <= i < |p.expectedPositions|
      ensures var row := p.expectedPositions[i];
              && row.symbol in src.Targets() && TotalBasis(src.Targets()[row.symbol].shares) > 0.0
              && row.slices == Scaled(src.Targets()[row.symbol].shares, row.quantity)
    {
      AllocationSlices(src, p.expectedPositions[i].symbol);
      AllocationQuantity(src, p.expectedPositions[i].symbol);
    }
    assert Index(SymbolOfTarget, p.targets) == src.Targets();
    hide Sources.Body, Sources.Targets, Scaled;
  }

  lemma AllocationQuantity(src: Sources, symbol: string)
    ensures src.AllocationFor(symbol).quantity == src.Desired(symbol)
  {
  }

  ghost predicate UntradedAreSettled(src: Sources) {
    forall s :: s in src.Symbols() && !src.Traded(s) ==> Settled(src, s)
  }

  lemma BodyCash(h: Digests, src: Sources)
    ensures src.Body(h).expectedCash == src.ExpectedCash()
  {
    hide Sources.Symbols, Sources.ExpectedCash, Sources.OrdersOn, Sources.AllocationsOn;
  }

  /** The replay section is accepted exactly when every untraded symbol is settled. */
  lemma BodyReplayAccepted(h: Digests, src: Sources)
    requires src.Valid() && src.Deployable() > 0.0
    ensures ReplayAccepted(src.Body(h)) <==> UntradedAreSettled(src)
  {
    hide Sources.Body, Sources.Symbols, Sources.Desired, Sources.Current, Sources.Traded, Sources.ExpectedCash,
         Sources.Valid, Sources.Deployable, Sources.AllocationFor, Replay, SuppliedPositions;
    var p := src.Body(h);
    BodyReplays(h, src);
    BodyAllocations(h, src);
    BodyCash(h, src);
    forall s ensures src.Desired(s) > 0.0 ==> src.Desired(s) > TOLERANCE { DesiredFacts(src, s); }
    var open, supplied := OpenPositions(Replay(p).value.positions), SuppliedPositions(p);
    var end := Replay(p).value.positions;
    forall s | s in src.Symbols() ensures s in open <==> Held(end, s) > TOLERANCE { }
    if UntradedAreSettled(src) {
      forall s | s in src.Symbols()
        ensures s in open <==> s in supplied
        ensures s in open ==> open[s] == supplied[s]
      {
        assert !src.Traded(s) ==> Settled(src, s);
      }
      assert open.Keys == supplied.Keys;
      assert open == supplied;
    }
    if ReplayAccepted(p) {
      assert open == supplied;
      forall s | s in src.Symbols() && !src.Traded(s) ensures Settled(src, s) {
        if src.Current(s) > TOLERANCE || src.Desired(s) > 0.0 {
          assert s in open && s in supplied;
        }
      }
    }
  }

  lemma CompatibleSplits(src: Sources)
    ensures Compatible(src) <==> TradedAreTradable(src) && UntradedAreSettled(src)
  {
    hide Sources.Symbols, Sources.Traded, Tradable, Settled;
    if TradedAreTradable(src) && UntradedAreSettled(src) {
      forall i | 0 <= i < |src.Symbols()|
        ensures var s := src.Symbols()[i]; if src.Traded(s) then Tradable(src, s) else Settled(src, s)
      {
        assert src.Symbols()[i] in src.Symbols();
      }
    }
  }

  lemma BodyBinding(h: Digests, src: Sources)
    ensures var p := src.Body(h);
            && p.startingStateHash == h.startingState(Map(StateRow, p.startingHoldings), p.startingCash)
            && p.planId == h.planId(PlanSeedOf(p)) && Bound(p, src)
  {
    BodySeed(h, src);
    hide Sources.Symbols, Sources.OrdersOn, Sources.AllocationsOn, Sources.ExpectedCash, Sources.Deployable, PlanSeedOf;
  }

  /** Builder and validator agreement, exactly: the validator accepts the constructed body if and
      only if every traded position starts near the quantity grid and trades at a positive price
      near the price grid, and every untraded position is already what its target asks for. */
  lemma ValidatorAcceptsIff(h: Digests, src: Sources)
    requires src.NoCollisions(h) && src.Valid() && src.Deployable() > 0.0
    ensures Accepted(h, src.Body(h), src) <==> Compatible(src)
  {
    hide Sources.Body, Sources.Valid, Sources.Deployable, Sources.NoCollisions, TargetsAccepted, PositionsAccepted,
         OwnershipAccepted, OrdersAccepted, ReplayAccepted, Compatible, TradedAreTradable, UntradedAreSettled,
         PlanSeedOf, Built, Bound;
    BodyTargetsAccepted(h, src);
    BodyPositionsAccepted(h, src);
    BodyOwnershipAccepted(h, src);
    BodyOrdersAccepted(h, src);
    BodyReplayAccepted(h, src);
    CompatibleSplits(src);
    BodyBinding(h, src);
  }

  // ----- A sufficient condition a caller can read off its documents

  /** Starting quantities on the quantity grid. */
  ghost predicate HoldingsOnGrid(src: Sources) {
    forall i :: 0 <= i < |src.snapshot.holdings| ==>
      OnGrid(src.snapshot.holdings[i].quantity, src.Exec().quantityPrecision)
  }

  /** Starting quantities on the quantity grid, and either market orders at marks on the price grid
      or limit orders at marks of at least one price tick. */
  ghost predicate OnTheGrids(src: Sources) {
    && HoldingsOnGrid(src)
    && (forall s :: s in src.Symbols() ==>
          if src.Exec().orderType == Market then OnGrid(src.Mark(s), src.Exec().pricePrecision)
          else src.Mark(s) >= Step(src.Exec().pricePrecision))
  }

  lemma LimitPricePositive(src: Sources, symbol: string, side: Side)
    requires src.ValidPolicy() && src.Exec().orderType == Limit
    requires src.Mark(symbol) >= Step(src.Exec().pricePrecision)
    ensures src.Price(symbol, side) > 0.0
  {
    var decimals, mark, collar := src.Exec().pricePrecision, src.Mark(symbol), src.Collar();
    StepMonotone(decimals, 8);
    EightDecimals();
    CollarBounds(mark, collar);
    hide Step, FloorTo, CeilTo, Collared, Sources.Mark, Sources.Collar;
    if side == Buy {
      FloorToBounds(Collared(mark, collar, Buy), decimals);
    } else {
      CeilToBounds(Collared(mark, collar, Sell), decimals);
    }
  }

  lemma EightDecimals()
    ensures Step(8) == 0.00000001
  {
    assert Pow10(8) == 10.0 * Pow10(7) == 100.0 * Pow10(6) == 1000.0 * Pow10(5) == 10000.0 * Pow10(4)
        == 100000.0 * Pow10(3);
  }

  lemma CollarBounds(mark: real, collar: real)
    requires mark >= 0.0 && 0.0 <= collar <= 0.01
    ensures Collared(mark, collar, Buy) >= mark
    ensures Collared(mark, collar, Sell) >= mark * 0.99
  {
    assert mark * (1.0 + collar) == mark + mark * collar;
    assert mark * collar >= 0.0;
    assert mark * (0.01 - collar) >= 0.0;
  }

  lemma CurrentOnGrid(src: Sources, symbol: string)
    requires HoldingsOnGrid(src)
    ensures OnGrid(src.Current(symbol), src.Exec().quantityPrecision)
  {
    hide OnGrid, Sources.Symbols, Sources.Mark;
    IndexKeys(SymbolOfHolding, src.snapshot.holdings);
    if symbol in src.Holdings() {
      var i :| 0 <= i < |src.snapshot.holdings| && src.snapshot.holdings[i] == src.Holdings()[symbol];
    } else {
      ZeroOnGrid(src.Exec().quantityPrecision);
    }
  }

  /** On the grid a difference that is not traded is no difference at all. */
  lemma UntradedOnGrid(src: Sources, symbol: string)
    requires src.Valid() && src.Deployable() > 0.0 && HoldingsOnGrid(src) && !src.Traded(symbol)
    ensures src.Delta(symbol) == 0.0
  {
    var decimals := src.Exec().quantityPrecision;
    CurrentOnGrid(src, symbol);
    DesiredFacts(src, symbol);
    GridDifference(src.Desired(symbol), src.Current(symbol), decimals);
    GridDifference(src.Current(symbol), src.Desired(symbol), decimals);
    hide OnGrid, Sources.Desired, Sources.Current, Sources.Valid, Sources.Deployable, HoldingsOnGrid, Step;
    if src.Delta(symbol) > 0.0 {
      GridGap(src.Delta(symbol), decimals);
    } else if src.Delta(symbol) < 0.0 {
      GridGap(-src.Delta(symbol), decimals);
    }
    StepShrinks(decimals);
  }

  lemma StepShrinks(decimals: nat)
    ensures Step(decimals + 3) < Step(decimals)
  {
    var p := Pow10(decimals);
    assert Pow10(decimals + 3) == 10.0 * Pow10(decimals + 2) == 100.0 * Pow10(decimals + 1) == 1000.0 * p;
    assert 1.0 / (1000.0 * p) < 1.0 / p by { ThousandthLess(p); }
  }

  lemma ThousandthLess(p: real)
    requires p >= 1.0
    ensures 1.0 / (1000.0 * p) < 1.0 / p
  {
  }

  /** Every plan body built from documents on the grids passes the validator. */
  lemma OnTheGridsAccepted(h: Digests, src: Sources)
    requires src.NoCollisions(h) && src.Valid() && src.Deployable() > 0.0 && OnTheGrids(src)
    ensures Accepted(h, src.Body(h), src)
  {
    forall i | 0 <= i < |src.Symbols()|
      ensures var s := src.Symbols()[i]; if src.Traded(s) then Tradable(src, s) else Settled(src, s)
    {
      GridSymbolCompatible(src, src.Symbols()[i]);
    }
    ValidatorAcceptsIff(h, src);
  }

  lemma GridSymbolCompatible(src: Sources, symbol: string)
    requires src.Valid() && src.Deployable() > 0.0 && OnTheGrids(src) && symbol in src.Symbols()
    ensures if src.Traded(symbol) then Tradable(src, symbol) else Settled(src, symbol)
  {
    CurrentOnGrid(src, symbol);
    OnGridIsNear(src.Current(symbol), src.Exec().quantityPrecision);
    if src.Traded(symbol) {
      var side := src.SideOf(symbol);
      TradedFacts(src, symbol);
      if src.Exec().orderType == Market {
        OnGridIsNear(src.Mark(symbol), src.Exec().pricePrecision);
      } else {
        LimitPriceOnGrid(src, symbol, side);
        LimitPricePositive(src, symbol, side);
      }
      hide NearGrid, OnGrid, Sources.Current, Sources.Desired, Sources.Symbols, Sources.Mark, Sources.Deployable,
           FloorTo, CeilTo;
    } else {
      UntradedOnGrid(src, symbol);
      hide NearGrid, OnGrid, Sources.Current, Sources.Desired, Sources.Symbols, Sources.Mark, Sources.Deployable;
    }
  }

  // ----- The whole builder

  /** The orders are given ids by the loop of `_build_orders`, then again in place by
      `_assign_order_ids`; what is assembled is the plan body. */
  method AssemblePlan(h: Digests, src: Sources, sells: seq<Order>, buys: seq<Order>) returns (p: Plan)
    requires sells == src.OrdersOn(Sell, src.Symbols()) && buys == src.OrdersOn(Buy, src.Symbols())
    ensures p == src.Body(h)
  {
    hide Sources.OrdersOn, Sources.Symbols, Sources.AllocationsOn, Sources.ExpectedCash, Sources.Deployable;
    var seed := h.planSeed(src.Seed(sells, buys));
    var sellRows := new Order[|sells|](i requires 0 <= i < |sells| => sells[i]);
    var buyRows := new Order[|buys|](i requires 0 <= i < |buys| => buys[i]);
    assert sellRows[..] == sells && buyRows[..] == buys;
    SetIds(h, seed, Sell, sellRows);
    SetIds(h, seed, Buy, buyRows);
    BuiltAreCleared(src, Sell, src.Symbols());
    BuiltAreCleared(src, Buy, src.Symbols());
    ClearedIdentified(h, seed, Sell, sells);
    ClearedIdentified(h, seed, Buy, buys);
    AssignOrderIds(h, src, sellRows, buyRows);
    ReidentifiedIsIdentified(h, seed, Sell, sells);
    ReidentifiedIsIdentified(h, seed, Buy, buys);
    p := Plan(h.planId(src.Seed(sells, buys)),
              src.risk.contentHash, src.snapshot.contentHash, src.policy.contentHash, src.risk.approvedTargetHash,
              src.Deployable(), src.snapshot.equity, src.snapshot.cash, src.snapshot.holdings,
              h.startingState(Map(StateRow, src.snapshot.holdings), src.snapshot.cash),
              src.snapshot.marks, src.risk.cashWeight, src.risk.targets,
              sellRows[..], buyRows[..], src.AllocationsOn(src.Symbols()), src.ExpectedCash(), src.Exec());
  }

  lemma {:induction false} BuiltAreCleared(src: Sources, side: Side, symbols: seq<string>)
    ensures Cleared(src.OrdersOn(side, symbols)) == src.OrdersOn(side, symbols)
  {
    hide Sources.OrderedOn;
    if symbols != [] {
      BuiltAreCleared(src, side, symbols[1..]);
      OrderForFields(src, symbols[0]);
      hide Sources.OrderFor;
    }
  }

  lemma ReidentifiedIsIdentified(h: Digests, seed: string, side: Side, orders: seq<Order>)
    ensures Identified(h, seed, side, Identified(h, seed, side, orders)) == Identified(h, seed, side, orders)
  {
  }

  /** `build_lane_exact_execution_plan`, from normalised sources: it returns a plan exactly when its
      own guards hold and the validator's condition holds, and then the plan is the constructed body
      and the validator accepts it. */
  method BuildLanePlan(h: Digests, src: Sources) returns (r: Result<Plan, BuildError>)
    requires src.NoCollisions(h) && src.Valid()
    ensures r.Ok? <==> src.Admissible() && Compatible(src)
    ensures r.Ok? ==> r.value == src.Body(h) && Accepted(h, r.value, src)
  {
    hide Sources.Valid, Sources.Symbols, Sources.OrdersOn, Sources.Deployable, Sources.Body, Accepted, Compatible,
         Sources.MarkedEquity, Sources.RequiredCash, Sources.Traded, Sources.WithinLimits;
    if Abs(src.MarkedEquity() - src.snapshot.equity) > src.Exec().reconciliationTolerance {
      return Err(EquityDoesNotReconcile);
    }
    if src.Deployable() <= 0.0 { return Err(NoDeployableCapital); }
    var orders := CollectOrders(src);
    if orders.Err? { return Err(orders.error); }
    var (sells, buys) := orders.value;
    if |sells| + |buys| > src.Exec().maximumOrders { return Err(TooManyOrders); }
    var totalBuy := TotalNotional(buys);
    if totalBuy > src.Exec().maximumTotalBuy + TOLERANCE { return Err(TotalBuyExceeded); }
    var expectedCash := src.snapshot.cash + TotalNotional(sells) - totalBuy;
    if expectedCash + 0.01 < src.RequiredCash() { return Err(CashRequirementViolated); }
    if expectedCash < -TOLERANCE { return Err(NegativeCash); }
    var body := AssemblePlan(h, src, sells, buys);
    ValidatorAcceptsIff(h, src);
    var ok := Validate(h, body, src);
    if !ok { return Err(RejectedByValidator); }
    return Ok(body);
  }
}
