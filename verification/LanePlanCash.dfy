/** What the built orders of plan v4 leave in cash, against the cash Risk requires. */
module LanePlanCash {
  import opened Wrappers
  import opened Sequences
  import opened Grid
  import opened SleeveShares
  import opened LanePlan
  import opened LanePlanValidator
  import opened LanePlanAgreement
  import opened LanePlanTheorems
  import Text

  // ----- Sums over symbols

  function Total(f: string -> real, symbols: seq<string>): real {
    if symbols == [] then 0.0 else f(symbols[0]) + Total(f, symbols[1..])
  }

  lemma {:induction false} TotalAppend(f: string -> real, s: seq<string>, t: seq<string>)
    ensures Total(f, s + t) == Total(f, s) + Total(f, t)
  {
    if s == [] {
      assert s + t == t;
    } else {
      assert (s + t)[1..] == s[1..] + t;
      TotalAppend(f, s[1..], t);
    }
  }

  lemma {:induction false} TotalBetween(f: string -> real, g: string -> real, below: string -> real,
                                        above: string -> real, s: seq<string>)
    requires forall x :: x in s ==> g(x) - below(x) <= f(x) <= g(x) + above(x)
    ensures Total(g, s) - Total(below, s) <= Total(f, s) <= Total(g, s) + Total(above, s)
  {
    if s != [] {
      assert s[0] in s;
      TotalBetween(f, g, below, above, s[1..]);
    }
  }

  lemma {:induction false} TotalDifference(f: string -> real, g: string -> real, h: string -> real, s: seq<string>)
    requires forall x :: x in s ==> f(x) == g(x) - h(x)
    ensures Total(f, s) == Total(g, s) - Total(h, s)
  {
    if s != [] {
      assert s[0] in s;
      TotalDifference(f, g, h, s[1..]);
    }
  }

  lemma {:induction false} TotalSigns(f: string -> real, s: seq<string>)
    ensures (forall x :: x in s ==> f(x) >= 0.0) ==> Total(f, s) >= 0.0
    ensures (forall x :: x in s ==> f(x) <= 0.0) ==> Total(f, s) <= 0.0
  {
    if s != [] {
      assert s[0] in s;
      assert forall x :: x in s[1..] ==> x in s;
      TotalSigns(f, s[1..]);
    }
  }

  lemma {:induction false} TotalZero(f: string -> real, s: seq<string>)
    requires forall x :: x in s ==> f(x) == 0.0
    ensures Total(f, s) == 0.0
  {
    if s != [] {
      assert s[0] in s;
      TotalZero(f, s[1..]);
    }
  }

  lemma WithoutOne(all: seq<string>, i: nat)
    requires Distinct(all) && i < |all|
    ensures var rest := all[..i] + all[i + 1..];
            Distinct(rest) && forall x :: x in rest <==> x in all && x != all[i]
  {
    var rest := all[..i] + all[i + 1..];
    forall x | x in all && x != all[i] ensures x in rest {
      var j :| 0 <= j < |all| && all[j] == x;
      assert rest[if j < i then j else j - 1] == x;
    }
  }

  lemma TotalWithoutOne(f: string -> real, all: seq<string>, i: nat)
    requires i < |all|
    ensures Total(f, all) == f(all[i]) + Total(f, all[..i] + all[i + 1..])
  {
    var left, right := all[..i], all[i + 1..];
    var after := [all[i]] + right;
    assert all == left + after;
    TotalAppend(f, left, after);
    TotalAppend(f, left, right);
    assert after[1..] == right;
    assert Total(f, after) == f(all[i]) + Total(f, right);
  }

  /** A sum over symbols depends only on where its terms are not zero, not on the order or on the
      other symbols. */
  lemma {:induction false} TotalSupport(f: string -> real, part: seq<string>, all: seq<string>)
    requires Distinct(part) && Distinct(all)
    requires forall x :: x in part ==> x in all
    requires forall x :: x in all && x !in part ==> f(x) == 0.0
    ensures Total(f, part) == Total(f, all)
  {
    if part == [] {
      TotalZero(f, all);
    } else {
      var a, rest := part[0], part[1..];
      assert part == [a] + rest && a in part && a !in rest;
      var i :| 0 <= i < |all| && all[i] == a;
      WithoutOne(all, i);
      TotalWithoutOne(f, all, i);
      TotalSupport(f, rest, all[..i] + all[i + 1..]);
    }
  }

  // ----- Terms

  /** What one symbol's order does to cash. */
  function CashEffect(src: Sources, symbol: string): real {
    if !src.Traded(symbol) then 0.0
    else if src.SideOf(symbol) == Buy then -src.OrderFor(symbol).notional
    else src.OrderFor(symbol).notional
  }

  function CashEffects(src: Sources): string -> real {
    s => CashEffect(src, s)
  }

  function HeldValue(src: Sources): string -> real {
    s => Cost(src.Current(s), src.Mark(s))
  }

  function WantedValue(src: Sources): string -> real {
    s => Cost(src.Desired(s), src.Mark(s))
  }

  /** What the collar and the price nudge can cost on one order: none on a market order, the collar
      times reference-price turnover plus the nudge per unit on a limit order. */
  function Slip(src: Sources, symbol: string): real {
    if !src.Traded(symbol) || src.Exec().orderType == Market then 0.0
    else Cost(Abs(src.Delta(symbol)), Cost(src.Mark(symbol), src.Collar()) + NUDGE)
  }

  function Slippage(src: Sources): string -> real {
    s => Slip(src, s)
  }

  /** What rounding a limit price to its tick can save on one order. */
  function TickOn(src: Sources, symbol: string): real {
    if !src.Traded(symbol) || src.Exec().orderType == Market then 0.0
    else Cost(Abs(src.Delta(symbol)), Step(src.Exec().pricePrecision))
  }

  function Ticks(src: Sources): string -> real {
    s => TickOn(src, s)
  }

  /** What an untraded position is worth beyond what its target asks for. */
  function Residue(src: Sources): string -> real {
    s => if src.Traded(s) then 0.0 else HeldValue(src)(s) - WantedValue(src)(s)
  }

  /** The change of value that is traded away. */
  function Change(src: Sources): string -> real {
    s => HeldValue(src)(s) - WantedValue(src)(s)
  }

  function TradedChange(src: Sources): string -> real {
    s => Change(src)(s) - Residue(src)(s)
  }

  function TargetSymbols(src: Sources): seq<string> {
    Map(SymbolOfTarget, src.risk.targets)
  }

  function TotalWeight(src: Sources): real {
    Sum(Map(WeightOf, src.risk.targets))
  }

  function Marks(src: Sources): string -> real {
    s => src.Mark(s)
  }

  // ----- Expected cash as one sum

  lemma {:induction false} OrdersAsEffects(src: Sources, symbols: seq<string>)
    ensures TotalNotional(src.OrdersOn(Sell, symbols)) - TotalNotional(src.OrdersOn(Buy, symbols))
         == Total(CashEffects(src), symbols)
  {
    if symbols != [] {
      var s, rest := symbols[0], symbols[1..];
      OrdersAsEffects(src, rest);
      assert CashEffects(src)(s) == CashEffect(src, s);
      hide Sources.OrderFor, TotalNotional;
      forall side: Side ensures TotalNotional([src.OrderFor(s)] + src.OrdersOn(side, rest))
                              == src.OrderFor(s).notional + TotalNotional(src.OrdersOn(side, rest)) {
        var orders := [src.OrderFor(s)] + src.OrdersOn(side, rest);
        TotalNotionalHead(orders);
        assert orders[1..] == src.OrdersOn(side, rest);
      }
      forall side: Side ensures [] + src.OrdersOn(side, rest) == src.OrdersOn(side, rest) { }
      hide Sources.Traded, CashEffects, Sources.SideOf;
      assert src.OrderedOn(Sell, s) <==> src.Traded(s) && src.SideOf(s) == Sell;
      assert src.OrderedOn(Buy, s) <==> src.Traded(s) && src.SideOf(s) == Buy;
    }
  }

  lemma {:induction false} HoldingsAsTotal(src: Sources, holdings: seq<Holding>)
    requires forall i :: 0 <= i < |holdings| ==> holdings[i].quantity == src.Current(holdings[i].symbol)
    ensures src.ValueOf(holdings) == Total(HeldValue(src), Map(SymbolOfHolding, holdings))
  {
    hide Sources.Current, Cost;
    if holdings != [] {
      HoldingsAsTotal(src, holdings[1..]);
      assert Map(SymbolOfHolding, holdings)[1..] == Map(SymbolOfHolding, holdings[1..]);
      assert HeldValue(src)(holdings[0].symbol) == src.MarketValue(holdings[0]);
    }
  }

  lemma HoldingAt(src: Sources, i: nat)
    requires src.Valid() && i < |src.snapshot.holdings|
    ensures Distinct(Map(SymbolOfHolding, src.snapshot.holdings))
    ensures src.snapshot.holdings[i].quantity == src.Current(src.snapshot.holdings[i].symbol)
    ensures src.snapshot.holdings[i].symbol in src.Holdings()
  {
    var symbols := Map(SymbolOfHolding, src.snapshot.holdings);
    assert Increasing(Text.Leq, symbols);
    forall i, j | 0 <= i < j < |src.snapshot.holdings|
      ensures SymbolOfHolding(src.snapshot.holdings[i]) != SymbolOfHolding(src.snapshot.holdings[j])
    {
      assert symbols[i] != symbols[j];
    }
    IndexValue(SymbolOfHolding, src.snapshot.holdings, i);
  }

  lemma UnheldIsZero(src: Sources, symbol: string)
    requires symbol !in Map(SymbolOfHolding, src.snapshot.holdings)
    ensures HeldValue(src)(symbol) == 0.0
  {
    var symbols := Map(SymbolOfHolding, src.snapshot.holdings);
    IndexKeys(SymbolOfHolding, src.snapshot.holdings);
    forall s | s in src.Holdings() ensures s in symbols {
      var i :| 0 <= i < |src.snapshot.holdings| && src.snapshot.holdings[i].symbol == s;
      assert symbols[i] == s;
    }
    assert src.Current(symbol) == 0.0;
    ZeroCost(src.Mark(symbol));
  }

  lemma HeldValueIsHoldings(src: Sources)
    requires src.Valid()
    ensures src.MarkedEquity() == src.snapshot.cash + Total(HeldValue(src), src.Symbols())
  {
    hide Sources.Valid, Sources.Symbols, Sources.Current, HeldValue, Sources.Holdings;
    var symbols := Map(SymbolOfHolding, src.snapshot.holdings);
    SymbolsFacts(src);
    if symbols != [] { HoldingAt(src, 0); }
    forall i | 0 <= i < |src.snapshot.holdings|
      ensures src.snapshot.holdings[i].quantity == src.Current(src.snapshot.holdings[i].symbol)
      ensures symbols[i] in src.Symbols()
    {
      HoldingAt(src, i);
    }
    HoldingsAsTotal(src, src.snapshot.holdings);
    forall s | s !in symbols ensures HeldValue(src)(s) == 0.0 { UnheldIsZero(src, s); }
    TotalSupport(HeldValue(src), symbols, src.Symbols());
  }

  lemma ZeroCost(price: real)
    ensures Cost(0.0, price) == 0.0 == Cost(price, 0.0)
  {
  }

  lemma WantedValueIsTargets(src: Sources)
    requires src.Valid()
    ensures Total(WantedValue(src), src.Symbols()) == Total(WantedValue(src), TargetSymbols(src))
  {
    SymbolsFacts(src);
    var symbols := TargetSymbols(src);
    IndexKeys(SymbolOfTarget, src.risk.targets);
    forall s | s in src.Targets() ensures s in symbols {
      var i :| 0 <= i < |src.risk.targets| && src.risk.targets[i].symbol == s;
      assert symbols[i] == s;
    }
    forall s | s in src.Symbols() && s !in symbols ensures WantedValue(src)(s) == 0.0 {
      assert src.Desired(s) == 0.0;
      ZeroCost(src.Mark(s));
    }
    forall x | x in symbols ensures x in src.Symbols() {
      var i :| 0 <= i < |symbols| && symbols[i] == x;
      assert src.risk.targets[i] in src.risk.targets && SymbolOfTarget(src.risk.targets[i]) == x;
    }
    hide Sources.Symbols, WantedValue;
    TotalSupport(WantedValue(src), symbols, src.Symbols());
  }

  // ----- One symbol

  lemma CostOfDifference(x: real, y: real, price: real)
    ensures Cost(x - y, price) == Cost(x, price) - Cost(y, price)
  {
  }

  lemma BuyCost(q: real, mark: real, collar: real, tick: real, price: real)
    requires q >= 0.0 && mark >= 0.0 && collar >= 0.0
    requires Collared(mark, collar, Buy) + NUDGE - tick <= price <= Collared(mark, collar, Buy) + NUDGE
    ensures Cost(q, mark) - Cost(q, tick) <= Cost(q, price) <= Cost(q, mark) + Cost(q, Cost(mark, collar) + NUDGE)
  {
    var slip := mark * collar + NUDGE;
    assert mark * collar >= 0.0;
    assert mark * (1.0 + collar) == mark + mark * collar;
    Scaled3(q, price, mark, slip);
    Scaled3(q, mark - tick, mark, -tick);
    Ordered(q, price, mark + slip);
    Ordered(q, mark - tick, price);
  }

  lemma SellProceeds(q: real, mark: real, collar: real, tick: real, price: real)
    requires q >= 0.0 && mark >= 0.0 && collar >= 0.0
    requires Collared(mark, collar, Sell) - NUDGE <= price <= Collared(mark, collar, Sell) - NUDGE + tick
    ensures Cost(q, mark) - Cost(q, Cost(mark, collar) + NUDGE) <= Cost(q, price) <= Cost(q, mark) + Cost(q, tick)
  {
    var slip := mark * collar + NUDGE;
    assert mark * collar >= 0.0;
    assert mark * (1.0 - collar) == mark - mark * collar;
    Scaled3(q, price, mark, -slip);
    Scaled3(q, mark + tick, mark, tick);
    Ordered(q, mark - slip, price);
    Ordered(q, price, mark + tick);
  }

  lemma Scaled3(q: real, p: real, x: real, y: real)
    ensures q * (x + y) == q * x + q * y && q * (-y) == -(q * y)
  {
  }

  lemma Ordered(q: real, x: real, y: real)
    requires q >= 0.0 && x <= y
    ensures q * x <= q * y
  {
  }

  lemma PriceBounds(src: Sources, symbol: string)
    requires src.Exec().orderType == Limit
    ensures var tick := Step(src.Exec().pricePrecision);
            var buy, sell := Collared(src.Mark(symbol), src.Collar(), Buy),
                Collared(src.Mark(symbol), src.Collar(), Sell);
            && buy + NUDGE - tick <= src.Price(symbol, Buy) <= buy + NUDGE
            && sell - NUDGE <= src.Price(symbol, Sell) <= sell - NUDGE + tick
  {
    FloorToBounds(Collared(src.Mark(symbol), src.Collar(), Buy), src.Exec().pricePrecision);
    CeilToBounds(Collared(src.Mark(symbol), src.Collar(), Sell), src.Exec().pricePrecision);
    hide FloorTo, CeilTo, Collared, Sources.Mark, Sources.Collar, Step;
  }

  lemma EffectOfTraded(src: Sources, symbol: string)
    requires src.Valid() && src.Deployable() > 0.0 && src.Traded(symbol)
    ensures Abs(src.Delta(symbol)) >= 0.0 && src.Mark(symbol) > 0.0 && src.Collar() >= 0.0
    ensures CashEffect(src, symbol)
         == if src.SideOf(symbol) == Buy
            then -Cost(src.Desired(symbol) - src.Current(symbol), src.Price(symbol, Buy))
            else Cost(src.Current(symbol) - src.Desired(symbol), src.Price(symbol, Sell))
    ensures Abs(src.Delta(symbol))
         == if src.SideOf(symbol) == Buy then src.Desired(symbol) - src.Current(symbol)
            else src.Current(symbol) - src.Desired(symbol)
  {
    TradedFacts(src, symbol);
    OrderForFields(src, symbol);
    hide Sources.Price, Cost, Sources.OrderFor, Sources.Mark, Sources.Current, Sources.Desired, Sources.Deployable,
         Step;
  }

  /** One symbol's effect on cash is the change of value it trades away, less at most the slip and
      plus at most a tick on its turnover; exactly that change for a market order. */
  lemma EffectBound(src: Sources, symbol: string)
    requires src.Valid() && src.Deployable() > 0.0
    ensures var change := HeldValue(src)(symbol) - WantedValue(src)(symbol) - Residue(src)(symbol);
            && change - Slip(src, symbol) <= CashEffect(src, symbol) <= change + TickOn(src, symbol)
            && (src.Exec().orderType == Market ==> CashEffect(src, symbol) == change)
  {
    hide Sources.Valid, Sources.Deployable, Sources.Traded, Sources.SideOf, Sources.Delta, Sources.Current,
         Sources.Desired, Sources.Mark, Sources.Collar, Cost, Collared, Sources.OrderFor, Step;
    if src.Traded(symbol) {
      var mark := src.Mark(symbol);
      CostOfDifference(src.Desired(symbol), src.Current(symbol), mark);
      CostOfDifference(src.Current(symbol), src.Desired(symbol), mark);
      EffectOfTraded(src, symbol);
      hide CashEffect;
      if src.Exec().orderType == Limit {
        PriceBounds(src, symbol);
        hide Sources.Price;
        BuyOrSell(src, symbol);
      }
    }
  }

  lemma BuyOrSell(src: Sources, symbol: string)
    requires src.Exec().orderType == Limit
    requires Abs(src.Delta(symbol)) >= 0.0 && src.Mark(symbol) > 0.0 && src.Collar() >= 0.0
    ensures var q, tick := Abs(src.Delta(symbol)), Step(src.Exec().pricePrecision);
            var slip := Cost(src.Mark(symbol), src.Collar()) + NUDGE;
            var fair := Cost(q, src.Mark(symbol));
            && fair - Cost(q, tick) <= Cost(q, src.Price(symbol, Buy)) <= fair + Cost(q, slip)
            && fair - Cost(q, slip) <= Cost(q, src.Price(symbol, Sell)) <= fair + Cost(q, tick)
  {
    hide Sources.Price, Sources.Mark, Sources.Collar, Sources.Delta, Collared, Cost, Step;
    PriceBounds(src, symbol);
    var q, tick := Abs(src.Delta(symbol)), Step(src.Exec().pricePrecision);
    BuyCost(q, src.Mark(symbol), src.Collar(), tick, src.Price(symbol, Buy));
    SellProceeds(q, src.Mark(symbol), src.Collar(), tick, src.Price(symbol, Sell));
  }

  // ----- What stays untraded

  /** A difference too small to trade is worth less than a thousandth of a quantity step; between
      documents that are compatible it is dust of at most the tolerance, and with starting quantities
      on the grid it is nothing. */
  lemma ResidueBounds(src: Sources, symbol: string)
    requires src.Valid() && src.Deployable() > 0.0 && symbol in src.Symbols()
    ensures src.Mark(symbol) > 0.0
    ensures -Cost(Step(src.Exec().quantityPrecision + 3), src.Mark(symbol)) <= Residue(src)(symbol)
         <= Cost(Step(src.Exec().quantityPrecision + 3), src.Mark(symbol))
    ensures Compatible(src) ==> 0.0 <= Residue(src)(symbol) <= Cost(TOLERANCE, src.Mark(symbol))
    ensures HoldingsOnGrid(src) ==> Residue(src)(symbol) == 0.0
  {
    hide Sources.Valid, Sources.Deployable, Sources.Current, Sources.Desired, Sources.Mark, Sources.Symbols, Step, Cost,
         HoldingsOnGrid;
    MarkPositive(src, symbol);
    DesiredFacts(src, symbol);
    if Compatible(src) && !src.Traded(symbol) { CompatibleAt(src, symbol); }
    hide Compatible;
    var x, y, mark, small := src.Current(symbol), src.Desired(symbol), src.Mark(symbol),
        Step(src.Exec().quantityPrecision + 3);
    ResidueIs(src, symbol);
    CostBetween(small, mark);
    CostBetween(TOLERANCE, mark);
    if !src.Traded(symbol) {
      assert -small <= x - y <= small;
      CostSpread(x - y, small, mark);
      if Settled(src, symbol) { CostSpread(x - y, TOLERANCE, mark); }
      if HoldingsOnGrid(src) { UntradedOnGrid(src, symbol); }
    }
  }

  lemma ValuesAt(src: Sources, symbol: string)
    ensures HeldValue(src)(symbol) == Cost(src.Current(symbol), src.Mark(symbol))
    ensures WantedValue(src)(symbol) == Cost(src.Desired(symbol), src.Mark(symbol))
  {
  }

  lemma ResidueIs(src: Sources, symbol: string)
    ensures Residue(src)(symbol) == if src.Traded(symbol) then 0.0
            else Cost(src.Current(symbol) - src.Desired(symbol), src.Mark(symbol))
  {
    hide Cost, Sources.Current, Sources.Desired, Sources.Mark, Sources.Traded;
    CostOfDifference(src.Current(symbol), src.Desired(symbol), src.Mark(symbol));
    ValuesAt(src, symbol);
    assert Residue(src)(symbol) == if src.Traded(symbol) then 0.0
        else HeldValue(src)(symbol) - WantedValue(src)(symbol);
  }

  lemma CompatibleAt(src: Sources, symbol: string)
    requires Compatible(src) && symbol in src.Symbols() && !src.Traded(symbol)
    ensures Settled(src, symbol)
  {
    var i :| 0 <= i < |src.Symbols()| && src.Symbols()[i] == symbol;
  }

  lemma MarkPositive(src: Sources, symbol: string)
    requires src.Valid() && symbol in src.Symbols()
    ensures src.Mark(symbol) > 0.0
  {
    SymbolsFacts(src);
    hide Sources.Symbols;
    if symbol in src.Holdings() { HoldingFacts(src, symbol); }
  }

  lemma CostBetween(x: real, price: real)
    requires x >= 0.0 && price > 0.0
    ensures Cost(x, price) >= 0.0
  {
  }

  lemma CostSpread(x: real, bound: real, price: real)
    requires price > 0.0
    ensures -bound <= x ==> -Cost(bound, price) <= Cost(x, price)
    ensures x <= bound ==> Cost(x, price) <= Cost(bound, price)
    ensures x >= 0.0 ==> Cost(x, price) >= 0.0
    ensures x == 0.0 ==> Cost(x, price) == 0.0
  {
    if x <= bound { assert (bound - x) * price >= 0.0; }
    if -bound <= x { assert (x + bound) * price >= 0.0; }
  }

  // ----- Flooring leaves between nothing and one step per target

  /** What the capital share of a weight is worth. */
  function WeightValues(src: Sources): string -> real {
    s => if s in src.Targets() then Cost(src.Targets()[s].weight, src.Deployable()) else 0.0
  }

  lemma FlooredValue(capital: real, weight: real, mark: real, quantity: real, step: real)
    requires mark > 0.0
    requires quantity <= UnitsAt(capital, weight, mark) + NUDGE < quantity + step
    ensures Cost(quantity, mark) <= Cost(weight, capital) + Cost(NUDGE, mark)
    ensures Cost(quantity, mark) > Cost(weight, capital) + Cost(NUDGE, mark) - Cost(step, mark)
  {
    var units := UnitsAt(capital, weight, mark);
    assert Cost(units, mark) == Cost(weight, capital) by { Quotient(capital * weight, mark); }
    hide UnitsAt;
    AddCosts(units, NUDGE, mark);
    AddCosts(quantity, step, mark);
    CostMonotone(quantity, units + NUDGE, mark);
    CostMonotone(units + NUDGE, quantity + step, mark);
    hide Cost;
  }

  lemma CostMonotone(x: real, y: real, p: real)
    requires p > 0.0
    ensures x <= y ==> Cost(x, p) <= Cost(y, p)
    ensures x < y ==> Cost(x, p) < Cost(y, p)
  {
  }

  lemma AddCosts(x: real, y: real, p: real)
    ensures Cost(x + y, p) == Cost(x, p) + Cost(y, p)
    ensures Cost(p, x + y) == Cost(p, x) + Cost(p, y)
  {
  }

  lemma TargetValueBounds(src: Sources, symbol: string)
    requires src.Valid() && src.Deployable() > 0.0 && symbol in src.Targets()
    ensures WantedValue(src)(symbol) <= WeightValues(src)(symbol) + Cost(NUDGE, src.Mark(symbol))
    ensures WantedValue(src)(symbol) > WeightValues(src)(symbol) + Cost(NUDGE, src.Mark(symbol))
                                       - Cost(Step(src.Exec().quantityPrecision), src.Mark(symbol))
  {
    TargetFacts(src, symbol);
    hide FloorTo, Step, UnitsAt, Cost, Sources.Deployable, Sources.Mark, Sources.Valid;
    var t := src.Targets()[symbol];
    FloorToBounds(UnitsAt(src.Deployable(), t.weight, src.Mark(symbol)), src.Exec().quantityPrecision);
    FlooredValue(src.Deployable(), t.weight, src.Mark(symbol), src.Desired(symbol), Step(src.Exec().quantityPrecision));
  }

  /** The capital shares of the targets, less the value wanted, up to the floor nudge. */
  lemma {:induction false} TargetValuesBound(src: Sources, symbols: seq<string>)
    requires src.Valid() && src.Deployable() > 0.0 && forall s :: s in symbols ==> s in src.Targets()
    ensures var shortfall := Total(WeightValues(src), symbols) + Cost(NUDGE, Total(Marks(src), symbols))
                             - Total(WantedValue(src), symbols);
            && shortfall >= 0.0
            && shortfall <= Cost(Step(src.Exec().quantityPrecision), Total(Marks(src), symbols))
            && (symbols != [] ==> shortfall < Cost(Step(src.Exec().quantityPrecision), Total(Marks(src), symbols)))
  {
    hide WantedValue, WeightValues, Marks, Sources.Mark, Sources.Targets, Step, Cost, Sources.Valid, Sources.Deployable;
    var step := Step(src.Exec().quantityPrecision);
    if symbols == [] {
      ZeroCost(NUDGE);
      ZeroCost(step);
    } else {
      var s, rest := symbols[0], symbols[1..];
      assert s in symbols;
      TargetValueBounds(src, s);
      TargetValuesBound(src, rest);
      MarkAt(src, s);
      AddCosts(src.Mark(s), Total(Marks(src), rest), NUDGE);
      AddCosts(src.Mark(s), Total(Marks(src), rest), step);
    }
  }

  lemma MarkAt(src: Sources, symbol: string)
    ensures Marks(src)(symbol) == src.Mark(symbol)
  {
  }

  lemma WeightValueAt(src: Sources, k: nat)
    requires src.Valid() && k < |src.risk.targets|
    ensures WeightValues(src)(TargetSymbols(src)[k]) == Cost(src.risk.targets[k].weight, src.Deployable())
  {
    var symbols := TargetSymbols(src);
    forall i, j | 0 <= i < j < |src.risk.targets|
      ensures SymbolOfTarget(src.risk.targets[i]) != SymbolOfTarget(src.risk.targets[j])
    {
      assert symbols[i] != symbols[j];
    }
    IndexValue(SymbolOfTarget, src.risk.targets, k);
    hide Cost, Sources.Deployable, Sources.Valid;
  }

  lemma {:induction false} WeightValuesTotal(src: Sources, k: nat)
    requires src.Valid() && k <= |src.risk.targets|
    ensures Total(WeightValues(src), TargetSymbols(src)[..k])
            == Cost(Sum(Map(WeightOf, src.risk.targets)[..k]), src.Deployable())
  {
    var symbols, weights := TargetSymbols(src), Map(WeightOf, src.risk.targets);
    if k > 0 {
      WeightValuesTotal(src, k - 1);
      WeightValueAt(src, k - 1);
      assert symbols[..k] == symbols[..k - 1] + [symbols[k - 1]];
      hide WeightValues, Sources.Deployable, Sources.Targets, Sources.Valid, Cost;
      TotalAppend(WeightValues(src), symbols[..k - 1], [symbols[k - 1]]);
      SumSnoc(weights, k - 1);
      AddCosts(Sum(weights[..k - 1]), weights[k - 1], src.Deployable());
    } else {
      assert weights[..0] == [] && symbols[..0] == [];
      ZeroCost(src.Deployable());
    }
  }

  // ----- The cash theorems

  /** The sum of the target marks: what one unit of every target costs. */
  function UnitBasket(src: Sources): real {
    Total(Marks(src), TargetSymbols(src))
  }

  /** How far the documents are from reconciling exactly: marked against reported equity, and
      weights against one. */
  function Discrepancy(src: Sources): real {
    src.MarkedEquity() - src.snapshot.equity - Cost(src.risk.cashWeight + TotalWeight(src) - 1.0, src.Deployable())
  }

  /** What flooring leaves of a target's capital share; negative where the nudge rounds a unit up. */
  function Leftover(src: Sources): string -> real {
    s => WeightValues(src)(s) - WantedValue(src)(s)
  }

  /** What the documents leave in cash beyond what Risk requires, before price rounding. */
  function Surplus(src: Sources): real {
    Discrepancy(src) + Total(Leftover(src), TargetSymbols(src)) - Total(Residue(src), src.Symbols())
  }

  lemma {:induction false} MinOfAtMost(s: seq<real>, i: nat)
    requires i < |s|
    ensures MinOf(s) <= s[i]
  {
    if |s| > 1 && i > 0 { MinOfAtMost(s[1..], i - 1); }
  }

  lemma RequiredCashIs(src: Sources)
    requires src.Valid() && src.Deployable() > 0.0
    ensures src.Deployable() <= src.snapshot.equity
    ensures src.RequiredCash() == src.snapshot.equity - src.Deployable() + Cost(src.risk.cashWeight, src.Deployable())
  {
    var all := [src.snapshot.equity]
               + (if src.policy.capitalCeiling.Some? then [src.policy.capitalCeiling.value] else [])
               + src.risk.capitalCaps;
    MinOfAtMost(all, 0);
    assert src.Deployable() * src.risk.cashWeight >= 0.0;
  }

  /** Expected cash as marked equity less what the targets are worth and what stays untraded, up to
      the rounding of limit prices. */
  lemma CashAsValues(src: Sources)
    requires src.Valid() && src.Deployable() > 0.0
    ensures var symbols := src.Symbols();
            var value := src.MarkedEquity() - Total(WantedValue(src), TargetSymbols(src))
                - Total(Residue(src), symbols);
            && value - Total(Slippage(src), symbols) <= src.ExpectedCash() <= value + Total(Ticks(src), symbols)
            && (src.Exec().orderType == Market ==> src.ExpectedCash() == value)
  {
    var symbols := src.Symbols();
    OrdersAsEffects(src, symbols);
    HeldValueIsHoldings(src);
    WantedValueIsTargets(src);
    forall s
      ensures TradedChange(src)(s) - Slippage(src)(s) <= CashEffects(src)(s) <= TradedChange(src)(s) + Ticks(src)(s)
      ensures src.Exec().orderType == Market ==> Slippage(src)(s) == Ticks(src)(s) == 0.0
    {
      EffectBound(src, s);
    }
    hide CashEffects, HeldValue, WantedValue, Slippage, Ticks, Residue, Sources.Symbols, Sources.OrdersOn,
         Sources.MarkedEquity, TotalNotional;
    TotalBetween(CashEffects(src), TradedChange(src), Slippage(src), Ticks(src), symbols);
    TotalDifference(TradedChange(src), Change(src), Residue(src), symbols);
    TotalDifference(Change(src), HeldValue(src), WantedValue(src), symbols);
    if src.Exec().orderType == Market {
      TotalZero(Slippage(src), symbols);
      TotalZero(Ticks(src), symbols);
    }
  }

  lemma TargetSymbolsAreTargets(src: Sources)
    ensures forall s :: s in TargetSymbols(src) <==> s in src.Targets()
  {
    var symbols := TargetSymbols(src);
    IndexKeys(SymbolOfTarget, src.risk.targets);
    forall s ensures s in symbols <==> s in src.Targets() {
      if s in symbols {
        var i :| 0 <= i < |symbols| && symbols[i] == s;
        assert src.risk.targets[i] in src.risk.targets && SymbolOfTarget(src.risk.targets[i]) == s;
      }
      if s in src.Targets() {
        var i :| 0 <= i < |src.risk.targets| && src.risk.targets[i].symbol == s;
        assert symbols[i] == s;
      }
    }
  }

  lemma WeightValuesAre(src: Sources)
    requires src.Valid()
    ensures Total(WeightValues(src), TargetSymbols(src)) == Cost(TotalWeight(src), src.Deployable())
  {
    hide Sources.Valid, Sources.Deployable, WeightValues, Cost;
    var symbols := TargetSymbols(src);
    WeightValuesTotal(src, |src.risk.targets|);
    assert symbols[..|symbols|] == symbols;
    assert Map(WeightOf, src.risk.targets)[..|src.risk.targets|] == Map(WeightOf, src.risk.targets);
  }

  lemma SplitDiscrepancy(cash: real, weight: real, capital: real)
    ensures Cost(cash + weight - 1.0, capital) == Cost(cash, capital) + Cost(weight, capital) - capital
  {
  }

  /** Expected cash against the cash Risk requires, for all valid documents: with market orders it is
      the requirement plus the surplus exactly; a limit order costs at most its slip and saves at most
      a tick on its turnover. */
  lemma CashIs(src: Sources)
    requires src.Valid() && src.Deployable() > 0.0
    ensures src.Exec().orderType == Market ==> src.ExpectedCash() == src.RequiredCash() + Surplus(src)
    ensures src.ExpectedCash() >= src.RequiredCash() + Surplus(src) - Total(Slippage(src), src.Symbols())
    ensures src.ExpectedCash() <= src.RequiredCash() + Surplus(src) + Total(Ticks(src), src.Symbols())
  {
    hide Sources.Valid, Sources.Deployable, Sources.MarkedEquity, Sources.ExpectedCash, Sources.RequiredCash, Total,
         Sources.Symbols, Slippage, Ticks, WantedValue, WeightValues, Residue, Cost, TotalWeight;
    CashAsValues(src);
    RequiredCashIs(src);
    WeightValuesAre(src);
    TotalDifference(Leftover(src), WeightValues(src), WantedValue(src), TargetSymbols(src));
    SplitDiscrepancy(src.risk.cashWeight, TotalWeight(src), src.Deployable());
  }

  /** With market orders expected cash is below what Risk requires, and the builder's cash check
      fires, exactly when the surplus says so. */
  lemma CashCheckFiresIff(src: Sources)
    requires src.Valid() && src.Deployable() > 0.0 && src.Exec().orderType == Market
    ensures src.ExpectedCash() < src.RequiredCash() <==> Surplus(src) < 0.0
    ensures src.ExpectedCash() + 0.01 < src.RequiredCash() <==> Surplus(src) < -0.01
  {
    hide Sources.Valid, Sources.Deployable, Sources.ExpectedCash, Sources.RequiredCash, Surplus;
    CashIs(src);
  }

  // ----- When a quantity is rounded up

  /** The floored quantity is more than the capital share buys. */
  predicate RoundsUp(src: Sources, symbol: string) {
    symbol in src.Targets()
    && src.Desired(symbol) > UnitsAt(src.Deployable(), src.Targets()[symbol].weight, src.Mark(symbol))
  }

  lemma FloorToGreatest(x: real, g: real, decimals: nat)
    requires OnGrid(g, decimals) && g <= x + NUDGE
    ensures g <= FloorTo(x, decimals)
  {
    hide OnGrid, Step, FloorTo;
    FloorToBounds(x, decimals);
    if g > FloorTo(x, decimals) {
      GridDifference(g, FloorTo(x, decimals), decimals);
      GridGap(g - FloorTo(x, decimals), decimals);
    }
  }

  /** A quantity is rounded up exactly when a grid value lies above what the capital share buys, at
      most the nudge away. */
  lemma RoundsUpIff(src: Sources, symbol: string)
    requires src.Valid() && src.Deployable() > 0.0 && symbol in src.Targets()
    ensures var units := UnitsAt(src.Deployable(), src.Targets()[symbol].weight, src.Mark(symbol));
            RoundsUp(src, symbol) <==> exists g :: OnGrid(g, src.Exec().quantityPrecision) && units < g <= units + NUDGE
  {
    TargetFacts(src, symbol);
    hide FloorTo, OnGrid, UnitsAt, Step, Sources.Valid, Sources.Deployable, Sources.Mark;
    var decimals := src.Exec().quantityPrecision;
    var units := UnitsAt(src.Deployable(), src.Targets()[symbol].weight, src.Mark(symbol));
    assert src.Desired(symbol) == FloorTo(units, decimals);
    FloorToBounds(units, decimals);
    forall g | OnGrid(g, decimals) && g <= units + NUDGE ensures g <= FloorTo(units, decimals) {
      FloorToGreatest(units, g, decimals);
    }
  }

  /** Flooring leaves less than nothing of a share exactly when it rounds up. */
  lemma LeftoverSign(src: Sources, symbol: string)
    requires src.Valid() && src.Deployable() > 0.0 && symbol in src.Targets()
    ensures Leftover(src)(symbol) < 0.0 <==> RoundsUp(src, symbol)
  {
    hide Sources.Valid, Sources.Deployable, Sources.Mark, Sources.Desired, UnitsAt, Cost;
    TargetFacts(src, symbol);
    LeftoverIs(src, symbol);
    var weight, mark := src.Targets()[symbol].weight, src.Mark(symbol);
    var units := UnitsAt(src.Deployable(), weight, mark);
    UnitsCost(src.Deployable(), weight, mark);
    CostMonotone(units, src.Desired(symbol), mark);
    CostMonotone(src.Desired(symbol), units, mark);
  }

  lemma LeftoverIs(src: Sources, symbol: string)
    requires symbol in src.Targets()
    ensures Leftover(src)(symbol)
         == Cost(src.Targets()[symbol].weight, src.Deployable()) - Cost(src.Desired(symbol), src.Mark(symbol))
  {
    hide Cost, Sources.Deployable, Sources.Desired, Sources.Mark;
    ValuesAt(src, symbol);
    assert Leftover(src)(symbol) == WeightValues(src)(symbol) - WantedValue(src)(symbol);
  }

  lemma UnitsCost(capital: real, weight: real, mark: real)
    requires mark > 0.0
    ensures Cost(UnitsAt(capital, weight, mark), mark) == Cost(weight, capital)
  {
    Quotient(capital * weight, mark);
  }

  /** With market orders and starting quantities on the grid, expected cash is at least what Risk
      requires on all documents that reconcile and round no target up. */
  lemma NoRoundingUpNeverBelow(src: Sources)
    requires src.Valid() && src.Deployable() > 0.0 && src.Exec().orderType == Market && HoldingsOnGrid(src)
    requires Discrepancy(src) >= 0.0 && forall s :: s in src.Targets() ==> !RoundsUp(src, s)
    ensures src.ExpectedCash() >= src.RequiredCash()
  {
    hide Sources.Valid, Sources.Deployable, Sources.ExpectedCash, Sources.RequiredCash, Leftover, Residue, RoundsUp,
         Sources.Symbols, HoldingsOnGrid, Discrepancy, Compatible, Sources.Targets;
    TargetSymbolsAreTargets(src);
    forall s | s in TargetSymbols(src) ensures Leftover(src)(s) >= 0.0 { LeftoverSign(src, s); }
    TotalSigns(Leftover(src), TargetSymbols(src));
    forall s | s in src.Symbols() ensures Residue(src)(s) == 0.0 { ResidueBounds(src, s); }
    TotalZero(Residue(src), src.Symbols());
    CashIs(src);
  }

  // ----- Estimates

  lemma LeftoverBounds(src: Sources)
    requires src.Valid() && src.Deployable() > 0.0
    ensures var step := Step(src.Exec().quantityPrecision);
            -Cost(NUDGE, UnitBasket(src)) <= Total(Leftover(src), TargetSymbols(src))
              < Cost(step, UnitBasket(src)) - Cost(NUDGE, UnitBasket(src))
  {
    hide Sources.Deployable, WantedValue, WeightValues, Marks, Cost, Step;
    var symbols := TargetSymbols(src);
    assert symbols != [];
    TargetSymbolsAreTargets(src);
    TargetValuesBound(src, symbols);
    hide Total, Sources.Valid;
    TotalDifference(Leftover(src), WeightValues(src), WantedValue(src), symbols);
  }

  /** Expected cash falls short of the requirement by at most the documents' own discrepancy, the
      floor nudge on one basket, the untraded residue and the limit-order slip, and exceeds it by less
      than one quantity step of every target and one tick on the turnover. */
  lemma CashBound(src: Sources)
    requires src.Valid() && src.Deployable() > 0.0
    ensures var symbols, step := src.Symbols(), Step(src.Exec().quantityPrecision);
            var due := src.RequiredCash() + Discrepancy(src) - Cost(NUDGE, UnitBasket(src))
                - Total(Residue(src), symbols);
            due - Total(Slippage(src), symbols) <= src.ExpectedCash()
              < due + Cost(step, UnitBasket(src)) + Total(Ticks(src), symbols)
  {
    hide Sources.Valid, Sources.Deployable, Discrepancy, Sources.ExpectedCash, Sources.RequiredCash, Total, UnitBasket,
         Sources.Symbols, Slippage, Ticks, Leftover, Residue, Cost, Step;
    CashIs(src);
    LeftoverBounds(src);
  }

  /** On compatible documents the residue is dust: at most the tolerance of each symbol. */
  lemma CompatibleResidue(src: Sources)
    requires src.Valid() && src.Deployable() > 0.0 && Compatible(src)
    ensures 0.0 <= Total(Residue(src), src.Symbols()) <= Cost(TOLERANCE, Total(Marks(src), src.Symbols()))
  {
    hide Sources.Valid, Sources.Deployable, Residue, Compatible, Sources.Symbols, Cost, HoldingsOnGrid;
    forall s | s in src.Symbols() ensures 0.0 <= Residue(src)(s) <= Cost(TOLERANCE, Marks(src)(s)) {
      ResidueBounds(src, s);
      MarkAt(src, s);
    }
    TotalSigns(Residue(src), src.Symbols());
    TotalAtMostCost(Residue(src), Marks(src), TOLERANCE, src.Symbols());
  }

  lemma {:induction false} TotalAtMostCost(f: string -> real, marks: string -> real, x: real, s: seq<string>)
    requires forall y :: y in s ==> f(y) <= Cost(x, marks(y))
    ensures Total(f, s) <= Cost(x, Total(marks, s))
  {
    if s == [] {
      ZeroCost(x);
    } else {
      assert s[0] in s;
      TotalAtMostCost(f, marks, x, s[1..]);
      AddCosts(marks(s[0]), Total(marks, s[1..]), x);
      hide Cost;
    }
  }

  /** The bounds for every plan the builder can return: its documents are compatible. */
  lemma CompatibleCashBound(src: Sources)
    requires src.Valid() && src.Deployable() > 0.0 && Compatible(src)
    ensures var symbols, step := src.Symbols(), Step(src.Exec().quantityPrecision);
            var due := src.RequiredCash() + Discrepancy(src) - Cost(NUDGE, UnitBasket(src));
            due - Cost(TOLERANCE, Total(Marks(src), symbols)) - Total(Slippage(src), symbols) <= src.ExpectedCash()
              < due + Cost(step, UnitBasket(src)) + Total(Ticks(src), symbols)
  {
    hide Sources.Valid, Sources.Deployable, Discrepancy, Sources.ExpectedCash, Sources.RequiredCash, Total, UnitBasket,
         Sources.Symbols, Slippage, Ticks, Residue, Cost, Step, Compatible;
    CashBound(src);
    CompatibleResidue(src);
  }

  /** With market orders, equity that reconciles exactly and weights that add to one, the cash check
      cannot fire as long as the nudge on one basket and the dust come to at most its cent. */
  lemma CashCheckCannotFire(src: Sources)
    requires src.Valid() && src.Deployable() > 0.0 && Compatible(src) && src.Exec().orderType == Market
    requires src.MarkedEquity() == src.snapshot.equity && src.risk.cashWeight + TotalWeight(src) == 1.0
    requires Cost(NUDGE, UnitBasket(src)) + Cost(TOLERANCE, Total(Marks(src), src.Symbols())) <= 0.01
    ensures src.ExpectedCash() + 0.01 >= src.RequiredCash()
  {
    hide Sources.Valid, Sources.Deployable, Sources.ExpectedCash, Sources.RequiredCash, UnitBasket, Sources.Symbols,
         Sources.MarkedEquity, Slippage, Ticks, Compatible, Step, Cost, TotalWeight, Marks;
    CompatibleCashBound(src);
    MarketHasNoSlip(src, src.Symbols());
    ZeroCost(src.Deployable());
  }

  lemma MarketHasNoSlip(src: Sources, symbols: seq<string>)
    requires src.Exec().orderType == Market
    ensures Total(Slippage(src), symbols) == 0.0
  {
    TotalZero(Slippage(src), symbols);
  }

  // ----- The check does fire

  /** One target worth half a nudge less than one unit of it. */
  function NudgedTarget(): Target {
    Target("SPY", 0.49999999999975, [Share("core", "d", "h", 0.49999999999975)])
  }

  function NudgedSources(mark: real): Sources {
    Sources(Risk("r", "t", 0.50000000000025, [NudgedTarget()], []),
            Snapshot("s", 2.0 * mark, 2.0 * mark, [], map["SPY" := mark]),
            Policy("p", Execution(Market, 0, 2, 0.0, 0.0, mark, mark, 5, 0.01), None))
  }

  lemma NudgedIsValid(mark: real)
    requires mark > 0.0
    ensures var src := NudgedSources(mark);
            && src.Valid() && HoldingsOnGrid(src) && src.Deployable() == 2.0 * mark
            && src.MarkedEquity() == src.snapshot.equity && src.risk.cashWeight + TotalWeight(src) == 1.0
  {
    var weight := 0.49999999999975;
    assert [weight][1..] == [] && Sum([weight]) == weight;
    assert Map(BasisOf, NudgedTarget().shares) == [weight];
    assert Map(WeightOf, NudgedSources(mark).risk.targets) == [weight];
  }

  lemma NudgedUnit(mark: real)
    requires mark > 0.0
    ensures FloorTo(UnitsAt(2.0 * mark, 0.49999999999975, mark), 0) == 1.0
  {
    UnitsOfTwice(0.49999999999975, mark);
    hide UnitsAt;
    assert Pow10(0) == 1.0;
  }

  lemma UnitsOfTwice(weight: real, mark: real)
    requires mark > 0.0
    ensures UnitsAt(2.0 * mark, weight, mark) == 2.0 * weight
  {
    var units := UnitsAt(2.0 * mark, weight, mark);
    Quotient((2.0 * mark) * weight, mark);
    assert units * mark == (2.0 * weight) * mark;
    CancelLe(units, 2.0 * weight, mark);
    CancelLe(2.0 * weight, units, mark);
  }

  lemma NudgedDesired(mark: real)
    requires mark > 0.0
    ensures var src := NudgedSources(mark);
            && src.Symbols() == ["SPY"] && TargetSymbols(src) == ["SPY"]
                 && src.Targets() == map["SPY" := NudgedTarget()]
            && src.Desired("SPY") == 1.0 && src.Current("SPY") == 0.0 && src.Mark("SPY") == mark && src.Traded("SPY")
  {
    NudgedIsValid(mark);
    NudgedUnit(mark);
    hide Sources.Deployable, FloorTo, UnitsAt, Sources.Valid;
    var src := NudgedSources(mark);
    assert Map(SymbolOfTarget, src.risk.targets) == ["SPY"];
    assert Map(SymbolOfHolding, src.snapshot.holdings) + ["SPY"] == ["SPY"];
    assert src.Symbols() == SortedUnique(Text.Leq, ["SPY"]) == ["SPY"];
    assert src.risk.targets[..0] == [];
    assert src.Targets() == map["SPY" := NudgedTarget()];
    assert src.Wanted(NudgedTarget()) == 1.0;
    StepBelowOne();
  }

  lemma StepBelowOne()
    ensures Step(3) < 1.0
  {
  }

  /** On these documents expected cash is below the requirement by half a nudge of the mark. */
  lemma NudgedSurplus(mark: real)
    requires mark > 0.0
    ensures Surplus(NudgedSources(mark)) == -0.0000000000005 * mark
  {
    NudgedIsValid(mark);
    NudgedDesired(mark);
    hide Sources.Deployable, Sources.Valid, Sources.Symbols, Sources.Desired, Sources.Current, Sources.Mark,
         Sources.Targets, Sources.MarkedEquity, Sources.Traded, TargetSymbols, TotalWeight;
    var src := NudgedSources(mark);
    assert WantedValue(src)("SPY") == mark;
    assert WeightValues(src)("SPY") == 0.49999999999975 * (2.0 * mark);
    assert Residue(src)("SPY") == 0.0;
    assert ["SPY"][1..] == [];
    assert Total(Leftover(src), ["SPY"]) == Leftover(src)("SPY");
    assert Total(Residue(src), ["SPY"]) == 0.0;
  }

  /** The floor nudge can round a quantity up, so expected cash can be below what Risk requires on
      valid, exactly reconciled documents that pass every other guard (and, at a mark on the price
      grid, the validator); the cash check fires on them exactly when a unit costs more than
      2 * 10^10. */
  lemma ExpectedCashCanFallShort(mark: real)
    requires mark > 0.0
    ensures var src := NudgedSources(mark);
            && src.Valid() && src.Deployable() > 0.0 && src.Exec().orderType == Market
            && src.MarkedEquity() == src.snapshot.equity && src.risk.cashWeight + TotalWeight(src) == 1.0
            && src.AdmissibleOrders() && (NearGrid(mark, 2) ==> Compatible(src))
            && src.ExpectedCash() < src.RequiredCash()
            && (src.ExpectedCash() + 0.01 < src.RequiredCash() <==> mark > 20000000000.0)
  {
    NudgedIsValid(mark);
    NudgedSurplus(mark);
    NudgedAdmissible(mark);
    hide Sources.Valid, Sources.Deployable, Sources.ExpectedCash, Sources.RequiredCash, Surplus, Compatible,
         Sources.AdmissibleOrders, Sources.MarkedEquity, TotalWeight, HoldingsOnGrid;
    CashCheckFiresIff(NudgedSources(mark));
  }

  lemma NudgedAdmissible(mark: real)
    requires mark > 0.0
    ensures NudgedSources(mark).AdmissibleOrders() && (NearGrid(mark, 2) ==> Compatible(NudgedSources(mark)))
  {
    var src := NudgedSources(mark);
    NudgedIsValid(mark);
    NudgedDesired(mark);
    OrderForFields(src, "SPY");
    ZeroOnGrid(0);
    OnGridIsNear(0.0, 0);
    hide Sources.Valid, Sources.Deployable, Sources.MarkedEquity, Sources.Symbols, Sources.Desired, Sources.Current,
         Sources.Mark, Sources.Traded, Sources.OrderFor, OnGrid, NearGrid;
    var order := src.OrderFor("SPY");
    assert order.notional == mark;
    assert src.OrdersOn(Sell, ["SPY"][1..]) == [] == src.OrdersOn(Buy, ["SPY"][1..]);
    assert src.OrdersOn(Sell, ["SPY"]) == [] && src.OrdersOn(Buy, ["SPY"]) == [order];
    TotalNotionalHead([order]);
  }
}
