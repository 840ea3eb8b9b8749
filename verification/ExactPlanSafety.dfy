/** Safety of executing a limit-order plan v3: whatever partial fills arrive, no position and no
    cash balance goes below the builder's tolerances. */
module ExactPlanSafety {
  import opened Wrappers
  import opened Sequences
  import opened Grid
  import opened Json
  import opened ExactOrders
  import opened ExactPlan

  // ----- Runs

  /** A (possibly partial) fill of one order. */
  datatype Fill = Fill(side: Side, index: nat, quantity: real, price: real)

  datatype Account = Account(positions: map<string, real>, cash: real, sold: seq<real>, bought: seq<real>)

  function LimitOf(row: OrderRow): real {
    NumOr(row.limitPrice, 0.0)
  }

  function Zeros(n: nat): seq<real> {
    seq(n, _ => 0.0)
  }

  function Start(body: Inputs, cash: real): Account {
    Account(PositionsOf(body.starting), cash, Zeros(|body.sells|), Zeros(|body.buys|))
  }

  /** A fill never exceeds what is left of its order, sells at the limit or higher, buys at the limit
      or lower, and buys only once every sell has filled. */
  predicate Allowed(body: Inputs, a: Account, f: Fill) {
    && f.quantity > 0.0
    && |a.sold| == |body.sells| && |a.bought| == |body.buys|
    && match f.side
       case SELL =>
         && f.index < |body.sells|
         && a.sold[f.index] + f.quantity <= OrderQuantity(body.sells[f.index])
         && f.price >= LimitOf(body.sells[f.index])
       case BUY =>
         && f.index < |body.buys|
         && a.bought[f.index] + f.quantity <= OrderQuantity(body.buys[f.index])
         && f.price <= LimitOf(body.buys[f.index])
         && forall i :: 0 <= i < |body.sells| ==> a.sold[i] == OrderQuantity(body.sells[i])
  }

  function Apply(body: Inputs, a: Account, f: Fill): Account {
    if !Allowed(body, a, f) then a
    else match f.side
      case SELL =>
        var s := OrderSymbol(body.sells[f.index]);
        a.(positions := a.positions[s := Held(a.positions, s) - f.quantity],
           cash := a.cash + Cost(f.quantity, f.price),
           sold := a.sold[f.index := a.sold[f.index] + f.quantity])
      case BUY =>
        var s := OrderSymbol(body.buys[f.index]);
        a.(positions := a.positions[s := Held(a.positions, s) + f.quantity],
           cash := a.cash - Cost(f.quantity, f.price),
           bought := a.bought[f.index := a.bought[f.index] + f.quantity])
  }

  /** The account after a run of fills; a fill that is not allowed does not happen. */
  function After(body: Inputs, cash: real, fills: seq<Fill>): Account {
    if fills == [] then Start(body, cash)
    else Apply(body, After(body, cash, fills[..|fills| - 1]), fills[|fills| - 1])
  }

  ghost predicate FullyFilled(body: Inputs, a: Account) {
    && |a.sold| == |body.sells| && |a.bought| == |body.buys|
    && (forall i :: 0 <= i < |body.sells| ==> a.sold[i] == OrderQuantity(body.sells[i]))
    && (forall i :: 0 <= i < |body.buys| ==> a.bought[i] == OrderQuantity(body.buys[i]))
  }

  // ----- Weighted sums of fills

  function Dot(weights: seq<real>, amounts: seq<real>): real
    requires |weights| == |amounts|
  {
    if weights == [] then 0.0 else Cost(amounts[0], weights[0]) + Dot(weights[1..], amounts[1..])
  }

  lemma CostFacts(q: real, r: real, p: real)
    ensures Cost(q + r, p) == Cost(q, p) + Cost(r, p)
    ensures Cost(0.0, p) == 0.0
    ensures q >= 0.0 && p >= 0.0 ==> Cost(q, p) >= 0.0
    ensures q <= r && p >= 0.0 ==> Cost(q, p) <= Cost(r, p)
  {
    if q <= r && p >= 0.0 { assert (r - q) * p >= 0.0; }
  }

  lemma {:induction false} DotUpdate(weights: seq<real>, amounts: seq<real>, i: nat, q: real)
    requires |weights| == |amounts| && i < |weights|
    ensures Dot(weights, amounts[i := amounts[i] + q]) == Dot(weights, amounts) + Cost(q, weights[i])
  {
    var updated := amounts[i := amounts[i] + q];
    if i == 0 {
      assert updated[1..] == amounts[1..];
      CostFacts(amounts[0], q, weights[0]);
    } else {
      assert updated[1..] == amounts[1..][i - 1 := amounts[1..][i - 1] + q];
      DotUpdate(weights[1..], amounts[1..], i - 1, q);
    }
    hide Cost;
  }

  lemma {:induction false} DotBetween(weights: seq<real>, amounts: seq<real>, bounds: seq<real>)
    requires |weights| == |amounts| == |bounds|
    requires forall i :: 0 <= i < |weights| ==> weights[i] >= 0.0 && 0.0 <= amounts[i] <= bounds[i]
    ensures 0.0 <= Dot(weights, amounts) <= Dot(weights, bounds)
  {
    if weights != [] {
      CostFacts(amounts[0], bounds[0], weights[0]);
      DotBetween(weights[1..], amounts[1..], bounds[1..]);
      hide Cost;
    }
  }

  lemma {:induction false} DotZeros(weights: seq<real>, n: nat)
    requires |weights| == n
    ensures Dot(weights, Zeros(n)) == 0.0
  {
    if n > 0 {
      assert Zeros(n)[1..] == Zeros(n - 1);
      DotZeros(weights[1..], n - 1);
      CostFacts(0.0, 0.0, weights[0]);
      hide Cost;
    }
  }

  function Limits(rows: seq<OrderRow>): (r: seq<real>)
    ensures |r| == |rows|
  {
    Map(LimitOf, rows)
  }

  function Quantities(rows: seq<OrderRow>): (r: seq<real>)
    ensures |r| == |rows|
  {
    Map(OrderQuantity, rows)
  }

  /** One for the orders in a symbol, zero for the others. */
  function Marks(rows: seq<OrderRow>, symbol: string): (r: seq<real>)
    ensures |r| == |rows|
  {
    Map(r => if OrderSymbol(r) == symbol then 1.0 else 0.0, rows)
  }

  // ----- What the built plan guarantees

  predicate Distinct2(rows: seq<OrderRow>) {
    forall i, j :: 0 <= i < j < |rows| ==> OrderSymbol(rows[i]) != OrderSymbol(rows[j])
  }

  /** The facts about a plan that its safety rests on. */
  ghost predicate SafePlan(body: Inputs, cash: real, expectedCash: real) {
    && cash >= 0.0 && expectedCash >= 0.0
    && Distinct2(body.sells)
    && (forall i :: 0 <= i < |body.sells| ==>
          OrderQuantity(body.sells[i]) >= 0.0 && LimitOf(body.sells[i]) >= 0.0
          && OrderNotional(body.sells[i]) == Cost(OrderQuantity(body.sells[i]), LimitOf(body.sells[i])))
    && (forall i :: 0 <= i < |body.buys| ==>
          OrderQuantity(body.buys[i]) >= 0.0 && LimitOf(body.buys[i]) >= 0.0
          && OrderNotional(body.buys[i]) == Cost(OrderQuantity(body.buys[i]), LimitOf(body.buys[i])))
    && (forall s :: Held(PositionsOf(body.starting), s) >= 0.0)
    && Mechanical(body.starting, cash, body.sells, body.buys).Some?
    && Abs(Mechanical(body.starting, cash, body.sells, body.buys).value.cash - expectedCash) <= 0.000001
  }

  lemma {:induction false} ApplySellsFacts(l: Ledger, rows: seq<OrderRow>, symbol: string)
    requires ApplySells(l, rows).Some?
    ensures Held(ApplySells(l, rows).value.positions, symbol)
         == Held(l.positions, symbol) - Dot(Marks(rows, symbol), Quantities(rows))
    ensures ApplySells(l, rows).value.cash == l.cash + NotionalTotal(rows)
    decreases |rows|
  {
    if rows != [] {
      var s, q := OrderSymbol(rows[0]), OrderQuantity(rows[0]);
      var next := Ledger(l.positions[s := Held(l.positions, s) - q], l.cash + OrderNotional(rows[0]));
      ApplySellsFacts(next, rows[1..], symbol);
      TailSums(rows, symbol);
    }
  }

  lemma {:induction false} ApplyBuysFacts(l: Ledger, rows: seq<OrderRow>, symbol: string)
    ensures Held(ApplyBuys(l, rows).positions, symbol)
         == Held(l.positions, symbol) + Dot(Marks(rows, symbol), Quantities(rows))
    ensures ApplyBuys(l, rows).cash == l.cash - NotionalTotal(rows)
    decreases |rows|
  {
    if rows != [] {
      var s, q := OrderSymbol(rows[0]), OrderQuantity(rows[0]);
      var next := Ledger(l.positions[s := Held(l.positions, s) + q], l.cash - OrderNotional(rows[0]));
      ApplyBuysFacts(next, rows[1..], symbol);
      TailSums(rows, symbol);
    }
  }

  lemma TailSums(rows: seq<OrderRow>, symbol: string)
    requires rows != []
    ensures NotionalTotal(rows) == OrderNotional(rows[0]) + NotionalTotal(rows[1..])
    ensures Dot(Marks(rows, symbol), Quantities(rows))
         == (if OrderSymbol(rows[0]) == symbol then OrderQuantity(rows[0]) else 0.0)
            + Dot(Marks(rows[1..], symbol), Quantities(rows[1..]))
  {
    assert Map(OrderNotional, rows)[1..] == Map(OrderNotional, rows[1..]);
    assert Marks(rows, symbol)[1..] == Marks(rows[1..], symbol);
    assert Quantities(rows)[1..] == Quantities(rows[1..]);
  }

  /** A sell that passes the builder's replay fits the starting position, since no other sell
      touches its symbol. */
  lemma {:induction false} SellsFit(l: Ledger, rows: seq<OrderRow>, i: nat)
    requires ApplySells(l, rows).Some? && Distinct2(rows) && i < |rows|
    ensures Held(l.positions, OrderSymbol(rows[i])) + 0.000000001 >= OrderQuantity(rows[i])
    decreases |rows|
  {
    if i > 0 {
      var s, q := OrderSymbol(rows[0]), OrderQuantity(rows[0]);
      SellsFit(Ledger(l.positions[s := Held(l.positions, s) - q], l.cash + OrderNotional(rows[0])), rows[1..], i - 1);
    }
  }

  lemma {:induction false} NotionalIsDot(rows: seq<OrderRow>)
    requires forall i :: 0 <= i < |rows| ==> OrderNotional(rows[i]) == Cost(OrderQuantity(rows[i]), LimitOf(rows[i]))
    ensures NotionalTotal(rows) == Dot(Limits(rows), Quantities(rows))
  {
    if rows != [] {
      NotionalIsDot(rows[1..]);
      assert Map(OrderNotional, rows)[1..] == Map(OrderNotional, rows[1..]);
      assert Limits(rows)[1..] == Limits(rows[1..]) && Quantities(rows)[1..] == Quantities(rows[1..]);
      hide Cost;
    }
  }

  // ----- The run invariant

  ghost predicate Bounded(rows: seq<OrderRow>, filled: seq<real>) {
    && |filled| == |rows|
    && forall i :: 0 <= i < |rows| ==> 0.0 <= filled[i] <= OrderQuantity(rows[i])
  }

  ghost predicate AllSold(body: Inputs, a: Account) {
    |a.sold| == |body.sells| && forall i :: 0 <= i < |body.sells| ==> a.sold[i] == OrderQuantity(body.sells[i])
  }

  ghost predicate NothingBought(a: Account) {
    a.bought == Zeros(|a.bought|)
  }

  ghost predicate Invariant(body: Inputs, cash: real, a: Account) {
    && Bounded(body.sells, a.sold) && Bounded(body.buys, a.bought)
    && (AllSold(body, a) || NothingBought(a))
    && a.cash >= cash + Dot(Limits(body.sells), a.sold) - Dot(Limits(body.buys), a.bought)
    && (forall s :: Held(a.positions, s) == Held(PositionsOf(body.starting), s)
                    - Dot(Marks(body.sells, s), a.sold) + Dot(Marks(body.buys, s), a.bought))
  }

  lemma AtLeastLimit(q: real, price: real, limit: real)
    requires q > 0.0
    ensures price >= limit ==> Cost(q, price) >= Cost(q, limit)
    ensures price <= limit ==> Cost(q, price) <= Cost(q, limit)
    ensures Cost(q, 1.0) == q && Cost(q, 0.0) == 0.0
  {
  }

  lemma FillMovesSymbol(rows: seq<OrderRow>, filled: seq<real>, i: nat, q: real, symbol: string)
    requires |filled| == |rows| && i < |rows| && q > 0.0
    ensures Dot(Marks(rows, symbol), filled[i := filled[i] + q])
         == Dot(Marks(rows, symbol), filled) + if OrderSymbol(rows[i]) == symbol then q else 0.0
  {
    DotUpdate(Marks(rows, symbol), filled, i, q);
    AtLeastLimit(q, 0.0, 0.0);
    hide Dot, Cost;
  }

  lemma FillMovesCash(rows: seq<OrderRow>, filled: seq<real>, i: nat, q: real, price: real)
    requires |filled| == |rows| && i < |rows| && q > 0.0
    ensures price >= LimitOf(rows[i]) ==>
              Dot(Limits(rows), filled[i := filled[i] + q]) <= Dot(Limits(rows), filled) + Cost(q, price)
    ensures price <= LimitOf(rows[i]) ==>
              Dot(Limits(rows), filled[i := filled[i] + q]) >= Dot(Limits(rows), filled) + Cost(q, price)
  {
    DotUpdate(Limits(rows), filled, i, q);
    AtLeastLimit(q, price, LimitOf(rows[i]));
    hide Dot, Cost, LimitOf;
  }

  lemma SellKeepsInvariant(body: Inputs, cash: real, a: Account, f: Fill)
    requires Invariant(body, cash, a) && Allowed(body, a, f) && f.side == SELL
    ensures Invariant(body, cash, Apply(body, a, f))
  {
    var b := Apply(body, a, f);
    hide Cost, PositionsOf, LimitOf, OrderQuantity, OrderSymbol, Dot, Marks, Limits;
    assert !AllSold(body, a);
    FillMovesCash(body.sells, a.sold, f.index, f.quantity, f.price);
    forall s ensures Held(b.positions, s) == Held(PositionsOf(body.starting), s)
                     - Dot(Marks(body.sells, s), b.sold) + Dot(Marks(body.buys, s), b.bought) {
      FillMovesSymbol(body.sells, a.sold, f.index, f.quantity, s);
    }
  }

  lemma BuyKeepsInvariant(body: Inputs, cash: real, a: Account, f: Fill)
    requires Invariant(body, cash, a) && Allowed(body, a, f) && f.side == BUY
    ensures Invariant(body, cash, Apply(body, a, f))
  {
    var b := Apply(body, a, f);
    hide Cost, PositionsOf, LimitOf, OrderQuantity, OrderSymbol, Dot, Marks, Limits;
    FillMovesCash(body.buys, a.bought, f.index, f.quantity, f.price);
    forall s ensures Held(b.positions, s) == Held(PositionsOf(body.starting), s)
                     - Dot(Marks(body.sells, s), b.sold) + Dot(Marks(body.buys, s), b.bought) {
      FillMovesSymbol(body.buys, a.bought, f.index, f.quantity, s);
    }
  }

  lemma ApplyKeepsInvariant(body: Inputs, cash: real, a: Account, f: Fill)
    requires Invariant(body, cash, a)
    ensures Invariant(body, cash, Apply(body, a, f))
  {
    if Allowed(body, a, f) {
      hide Invariant, Apply, Allowed;
      if f.side == SELL { SellKeepsInvariant(body, cash, a, f); } else { BuyKeepsInvariant(body, cash, a, f); }
    }
  }

  lemma StartInvariant(body: Inputs, cash: real, expectedCash: real)
    requires SafePlan(body, cash, expectedCash)
    ensures Invariant(body, cash, Start(body, cash))
  {
    DotZeros(Limits(body.sells), |body.sells|);
    DotZeros(Limits(body.buys), |body.buys|);
    forall s ensures Dot(Marks(body.sells, s), Zeros(|body.sells|)) == 0.0
        == Dot(Marks(body.buys, s), Zeros(|body.buys|)) {
      DotZeros(Marks(body.sells, s), |body.sells|);
      DotZeros(Marks(body.buys, s), |body.buys|);
    }
    hide Mechanical, PositionsOf, Cost;
  }

  lemma {:induction false} RunInvariant(body: Inputs, cash: real, expectedCash: real, fills: seq<Fill>)
    requires SafePlan(body, cash, expectedCash)
    ensures Invariant(body, cash, After(body, cash, fills))
  {
    hide SafePlan, Invariant, Apply, Start;
    if fills == [] {
      StartInvariant(body, cash, expectedCash);
    } else {
      RunInvariant(body, cash, expectedCash, fills[..|fills| - 1]);
      ApplyKeepsInvariant(body, cash, After(body, cash, fills[..|fills| - 1]), fills[|fills| - 1]);
    }
  }

  // ----- Consequences of the invariant

  lemma SoldOfSymbol(rows: seq<OrderRow>, filled: seq<real>, symbol: string, i: nat)
    requires Distinct2(rows) && Bounded(rows, filled) && i < |rows| && OrderSymbol(rows[i]) == symbol
    ensures Dot(Marks(rows, symbol), filled) == filled[i]
  {
    DotOfOne(Marks(rows, symbol), filled, i);
  }

  lemma {:induction false} DotOfOne(weights: seq<real>, amounts: seq<real>, i: nat)
    requires |weights| == |amounts| && i < |weights|
    requires forall j :: 0 <= j < |weights| ==> weights[j] == if j == i then 1.0 else 0.0
    ensures Dot(weights, amounts) == amounts[i]
  {
    if i == 0 {
      DotOfNone(weights[1..], amounts[1..]);
    } else {
      DotOfOne(weights[1..], amounts[1..], i - 1);
    }
  }

  lemma {:induction false} DotOfNone(weights: seq<real>, amounts: seq<real>)
    requires |weights| == |amounts| && forall j :: 0 <= j < |weights| ==> weights[j] == 0.0
    ensures Dot(weights, amounts) == 0.0
  {
    if weights != [] { DotOfNone(weights[1..], amounts[1..]); }
  }

  lemma MarksNonnegative(rows: seq<OrderRow>, filled: seq<real>, symbol: string)
    requires Bounded(rows, filled)
    ensures Dot(Marks(rows, symbol), filled) >= 0.0
  {
    DotBetween(Marks(rows, symbol), filled, filled);
  }

  lemma PositionFloor(body: Inputs, cash: real, expectedCash: real, a: Account, symbol: string)
    requires SafePlan(body, cash, expectedCash) && Invariant(body, cash, a)
    ensures Held(a.positions, symbol) >= -0.000000001
  {
    MarksNonnegative(body.buys, a.bought, symbol);
    if i :| 0 <= i < |body.sells| && OrderSymbol(body.sells[i]) == symbol {
      SoldOfSymbol(body.sells, a.sold, symbol, i);
      SellsFit(Ledger(PositionsOf(body.starting), cash), body.sells, i);
      hide Dot, PositionsOf, Mechanical, Cost;
    } else {
      DotOfNone(Marks(body.sells, symbol), a.sold);
      hide Dot, PositionsOf, Mechanical, Cost;
    }
  }

  /** The mechanical cash of the plan, as limits times quantities. */
  lemma MechanicalCash(body: Inputs, cash: real, expectedCash: real)
    requires SafePlan(body, cash, expectedCash)
    ensures cash + Dot(Limits(body.sells), Quantities(body.sells)) - Dot(Limits(body.buys), Quantities(body.buys))
            >= expectedCash - 0.000001
  {
    var start := Ledger(PositionsOf(body.starting), cash);
    ApplySellsFacts(start, body.sells, "");
    ApplyBuysFacts(ApplySells(start, body.sells).value, body.buys, "");
    NotionalIsDot(body.sells);
    NotionalIsDot(body.buys);
    hide Dot, PositionsOf, Cost, Held;
  }

  lemma CashFloor(body: Inputs, cash: real, expectedCash: real, a: Account)
    requires SafePlan(body, cash, expectedCash) && Invariant(body, cash, a)
    ensures a.cash >= -0.000001
    ensures AllSold(body, a) ==> a.cash >= expectedCash - 0.000001
  {
    MechanicalCash(body, cash, expectedCash);
    DotBetween(Limits(body.sells), a.sold, Quantities(body.sells));
    DotBetween(Limits(body.buys), a.bought, Quantities(body.buys));
    if AllSold(body, a) {
      assert a.sold == Quantities(body.sells);
    } else {
      DotZeros(Limits(body.buys), |body.buys|);
    }
    hide Dot, Mechanical, PositionsOf, Cost, OrderQuantity;
  }

  // ----- From the builder to safety

  /** Every order of the plan is a limit order. */
  predicate AllLimit(body: Inputs) {
    && (forall i :: 0 <= i < |body.sells| ==> body.sells[i].orderType == Some(Str("limit")))
    && (forall i :: 0 <= i < |body.buys| ==> body.buys[i].orderType == Some(Str("limit")))
  }

  /** A normalised limit order carries a positive quantity, its limit and exactly their product. */
  lemma LimitOrderNumbers(py: Python, h: OrderDigests, raw: OrderRow, required: Side, seed: string, index: nat,
                          eligible: seq<string>)
    requires OrderAccepts(py, raw, required, eligible) && TypeText(py, raw) == "limit"
    ensures var row := NormalizedOrder(py, h, raw, required, seed, index, eligible);
            && OrderQuantity(row) > 0.0 && LimitOf(row) >= 0.0
            && OrderNotional(row) == Cost(OrderQuantity(row), LimitOf(row))
            && OrderSymbol(row) == SymbolText(py, raw)
  {
    hide SymbolText, RowSideText, TimeText, NormalizedContributions, Cost, ContributionsAccepted, SleeveLabel;
    ZeroProduct(QuantityOf(py, raw));
  }

  lemma ZeroProduct(q: real)
    ensures Cost(q, 0.0) == 0.0
  {
  }

  lemma TypeOfNormalized(py: Python, h: OrderDigests, raw: OrderRow, required: Side, seed: string, index: nat,
                         eligible: seq<string>)
    ensures NormalizedOrder(py, h, raw, required, seed, index, eligible).orderType == Some(Str(TypeText(py, raw)))
  {
    hide TypeText, NormalizedContributions, Cost, EnforcementPrice, SymbolText, RowSideText, TimeText;
  }

  lemma LimitOrdersNumbers(py: Python, h: OrderDigests, rows: seq<OrderRow>, required: Side, seed: string,
                           eligible: seq<string>)
    requires OrdersAccepted(py, rows, required, eligible)
    requires forall i :: 0 <= i < |rows| ==>
               NormalizedOrders(py, h, rows, required, seed, eligible)[i].orderType == Some(Str("limit"))
    ensures var out := NormalizedOrders(py, h, rows, required, seed, eligible);
            && Distinct2(out)
            && forall i :: 0 <= i < |out| ==>
                 OrderQuantity(out[i]) >= 0.0 && LimitOf(out[i]) >= 0.0
                 && OrderNotional(out[i]) == Cost(OrderQuantity(out[i]), LimitOf(out[i]))
  {
    var out := NormalizedOrders(py, h, rows, required, seed, eligible);
    hide OrderAccepts, NormalizedOrder, SymbolText, TypeText, OrderSymbol, OrderQuantity, OrderNotional, LimitOf, Cost;
    forall i | 0 <= i < |rows|
      ensures OrderQuantity(out[i]) >= 0.0 && LimitOf(out[i]) >= 0.0 && OrderSymbol(out[i]) == SymbolText(py, rows[i])
      ensures OrderNotional(out[i]) == Cost(OrderQuantity(out[i]), LimitOf(out[i]))
    {
      NormalizedOrderAt(py, h, rows, required, seed, eligible, 1, i);
      TypeOfNormalized(py, h, rows[i], required, seed, i + 1, eligible);
      LimitOrderNumbers(py, h, rows[i], required, seed, i + 1, eligible);
    }
  }

  lemma CleanHolding(py: Python, row: PositionRow)
    requires PositionQuantity(py, row).Some?
    ensures HeldQuantity(CleanPosition(py, row)) >= 0.0
  {
    hide PositionSymbol;
  }

  lemma StartingNonnegative(py: Python, rows: seq<PositionRow>, symbol: string)
    requires PositionsAccepted(py, rows)
    ensures Held(PositionsOf(NormalizedPositions(py, rows)), symbol) >= 0.0
  {
    var clean, out := CleanPositions(py, rows), NormalizedPositions(py, rows);
    assert out == SortBy(ByHeldSymbol, clean);
    SortByElements(ByHeldSymbol, clean);
    IndexKeys(HeldSymbol, out);
    hide NormalizedPositions, HeldSymbol, HeldQuantity, PositionSymbol, PositionQuantity, CleanPosition;
    if symbol in Index(HeldSymbol, out) {
      var row := Index(HeldSymbol, out)[symbol];
      assert row in clean;
      var i :| 0 <= i < |clean| && clean[i] == row;
      CleanHolding(py, rows[i]);
    }
  }

  lemma MechanicalOfBuilt(py: Python, h: Digests, inputs: Inputs, governance: Option<Governance>, allowLegacy: bool)
    requires BuildAccepts(py, h, inputs, governance, allowLegacy)
    ensures var n := Normal(py, h, inputs);
            var m := Mechanical(n.starting, Number(py, inputs.startingCash), n.sells, n.buys);
            && m.Some? && Abs(m.value.cash - Number(py, inputs.expectedCash)) <= 0.000001
            && Number(py, inputs.startingCash) >= 0.0 && Number(py, inputs.expectedCash) >= 0.0
  {
    NormalCash(py, h, inputs, governance, allowLegacy);
    hide HeaderAccepts, AuthorizationAccepts, ConstraintsAccept, RowsAccept, Normal, Mechanical, PositionsOf,
         AllSixDecimals;
  }

  lemma NormalRows(py: Python, h: Digests, inputs: Inputs)
    ensures var n, eligible, seed := Normal(py, h, inputs), Eligible(py, inputs.allocations),
            h.seed(SeedOf(py, inputs));
            && n.sells == NormalizedOrders(py, h.order, inputs.sells, SELL, seed, eligible)
            && n.buys == NormalizedOrders(py, h.order, inputs.buys, BUY, seed, eligible)
            && n.starting == NormalizedPositions(py, inputs.starting)
  {
    hide SeedOf, NormalizedOrders, NormalizedPositions, NormalizedAuthorization, CoercedConstraints, Eligible;
  }

  lemma BuiltIsSafe(py: Python, h: Digests, inputs: Inputs, governance: Option<Governance>, allowLegacy: bool)
    requires BuildAccepts(py, h, inputs, governance, allowLegacy) && AllLimit(Normal(py, h, inputs))
    ensures SafePlan(Normal(py, h, inputs), Number(py, inputs.startingCash), Number(py, inputs.expectedCash))
  {
    hide HeaderAccepts, NumbersAccept, AuthorizationAccepts, BodyAccepts, Eligible, NormalizedOrders,
         NormalizedPositions, SeedOf, PositionsAccepted, OrdersAccepted, SeedsAccepted, Normal, Mechanical, PositionsOf,
         OrderQuantity, OrderNotional, LimitOf, Cost, OrderSymbol, Number, Distinct2;
    var n, eligible, seed := Normal(py, h, inputs), Eligible(py, inputs.allocations), h.seed(SeedOf(py, inputs));
    NormalRows(py, h, inputs);
    MechanicalOfBuilt(py, h, inputs, governance, allowLegacy);
    LimitOrdersNumbers(py, h.order, inputs.sells, SELL, seed, eligible);
    LimitOrdersNumbers(py, h.order, inputs.buys, BUY, seed, eligible);
    forall s ensures Held(PositionsOf(n.starting), s) >= 0.0 { StartingNonnegative(py, inputs.starting, s); }
  }

  /** Safety over whole runs of a built limit-order plan.  After any run of partial fills in which
      every fill is at its limit or better and no buy fills before all sells have, no position is
      below -1e-9 and cash is at least -1e-6; once the sells are done cash covers the planned cash
      to 1e-6, and in particular at the end of a fully filled run. */
  lemma RunIsSafe(py: Python, h: Digests, inputs: Inputs, governance: Option<Governance>, allowLegacy: bool,
                  fills: seq<Fill>)
    requires Build(py, h, inputs, governance, allowLegacy).Ok?
    requires AllLimit(Build(py, h, inputs, governance, allowLegacy).value.body)
    ensures var body := Build(py, h, inputs, governance, allowLegacy).value.body;
            var a := After(body, Number(py, body.startingCash), fills);
            && (forall s :: Held(a.positions, s) >= -0.000000001)
            && a.cash >= -0.000001
            && (AllSold(body, a) ==> a.cash >= Number(py, body.expectedCash) - 0.000001)
  {
    hide BuildAccepts, AllLimit;
    var body := Normal(py, h, inputs);
    var cash, expectedCash := Number(py, inputs.startingCash), Number(py, inputs.expectedCash);
    NormalCash(py, h, inputs, governance, allowLegacy);
    BuiltIsSafe(py, h, inputs, governance, allowLegacy);
    hide Normal, SafePlan, Invariant, AllSold;
    RunInvariant(body, cash, expectedCash, fills);
    var a := After(body, cash, fills);
    CashFloor(body, cash, expectedCash, a);
    forall s ensures Held(a.positions, s) >= -0.000000001 { PositionFloor(body, cash, expectedCash, a, s); }
  }

  lemma NormalCash(py: Python, h: Digests, inputs: Inputs, governance: Option<Governance>, allowLegacy: bool)
    requires BuildAccepts(py, h, inputs, governance, allowLegacy)
    ensures var body := Normal(py, h, inputs);
            && Number(py, body.startingCash) == Number(py, inputs.startingCash)
            && Number(py, body.expectedCash) == Number(py, inputs.expectedCash)
  {
    hide HeaderAccepts, RowsAccept, AuthorizationAccepts, BodyAccepts, SeedOf, NormalizedOrders, NormalizedPositions,
         NormalizedAuthorization, CoercedConstraints, Eligible;
  }

  /** A fully filled run ends with every symbol where the builder's mechanical replay put it. */
  lemma FullRunEndsAsReplayed(body: Inputs, cash: real, expectedCash: real, fills: seq<Fill>, symbol: string)
    requires SafePlan(body, cash, expectedCash)
    requires FullyFilled(body, After(body, cash, fills))
    ensures Held(After(body, cash, fills).positions, symbol)
         == Held(Mechanical(body.starting, cash, body.sells, body.buys).value.positions, symbol)
  {
    RunInvariant(body, cash, expectedCash, fills);
    var a := After(body, cash, fills);
    assert a.sold == Quantities(body.sells) && a.bought == Quantities(body.buys);
    var start := Ledger(PositionsOf(body.starting), cash);
    ApplySellsFacts(start, body.sells, symbol);
    ApplyBuysFacts(ApplySells(start, body.sells).value, body.buys, symbol);
    hide Dot, After, PositionsOf, Cost, Held;
  }

  /** A replayed state the builder accepts is at the expected positions, up to what its tolerances
      let pass. */
  lemma EndsNear(l: Ledger, expected: seq<PositionRow>, expectedCash: real, fractional: bool, symbol: string)
    requires EndsAs(l, expected, expectedCash, fractional) && Held(l.positions, symbol) >= -0.000000001
    ensures Abs(Held(l.positions, symbol) - Held(PositionsOf(expected), symbol)) <= 0.000000001
  {
    hide PositionsOf, SixDecimals;
    var held, wanted := RoundedPositions(l.positions, fractional), RoundedPositions(PositionsOf(expected), fractional);
    assert symbol in OpenPositions(held) <==> symbol in wanted;
    if fractional {
      if symbol in l.positions { SixDecimalsNear(l.positions[symbol]); }
      if symbol in PositionsOf(expected) { SixDecimalsNear(PositionsOf(expected)[symbol]); }
    }
    if symbol in wanted {
      assert OpenPositions(held)[symbol] == wanted[symbol];
    }
  }

  lemma SixDecimalsNear(q: real)
    ensures SixDecimals(q).Some? ==> Abs(q - SixDecimals(q).value) <= NUDGE
  {
  }

  /** A fully filled run of a built limit-order plan ends at the plan's expected positions, up to
      1e-9, with at least its expected cash, up to 1e-6. */
  lemma FullRunEndsAsPlanned(py: Python, h: Digests, inputs: Inputs, governance: Option<Governance>, allowLegacy: bool,
                             fills: seq<Fill>)
    requires Build(py, h, inputs, governance, allowLegacy).Ok?
    requires var body := Build(py, h, inputs, governance, allowLegacy).value.body;
             AllLimit(body) && FullyFilled(body, After(body, Number(py, body.startingCash), fills))
    ensures var body := Build(py, h, inputs, governance, allowLegacy).value.body;
            var a := After(body, Number(py, body.startingCash), fills);
            && (forall s :: Abs(Held(a.positions, s) - Held(PositionsOf(body.expected), s)) <= 0.000000001)
            && a.cash >= Number(py, body.expectedCash) - 0.000001
  {
    hide BuildAccepts, AllLimit, FullyFilled, Normal, SafePlan, EndsAs, Mechanical, PositionsOf, After, Number, Held,
         AllSold, Abs, SeedOf, PlanIdFor;
    var body := Normal(py, h, inputs);
    var cash, expectedCash := Number(py, body.startingCash), Number(py, body.expectedCash);
    RunIsSafe(py, h, inputs, governance, allowLegacy, fills);
    BuiltEnds(py, h, inputs, governance, allowLegacy);
    BuiltIsSafe(py, h, inputs, governance, allowLegacy);
    NormalCash(py, h, inputs, governance, allowLegacy);
    var a, l := After(body, cash, fills), Mechanical(body.starting, cash, body.sells, body.buys).value;
    FilledIsSold(body, a);
    forall s ensures Abs(Held(a.positions, s) - Held(PositionsOf(body.expected), s)) <= 0.000000001 {
      FullRunEndsAsReplayed(body, cash, expectedCash, fills, s);
      EndsNear(l, body.expected, expectedCash, Fractional(inputs.constraints), s);
    }
  }

  lemma FilledIsSold(body: Inputs, a: Account)
    requires FullyFilled(body, a)
    ensures AllSold(body, a)
  {
  }

  lemma BuiltEnds(py: Python, h: Digests, inputs: Inputs, governance: Option<Governance>, allowLegacy: bool)
    requires BuildAccepts(py, h, inputs, governance, allowLegacy)
    ensures var body := Normal(py, h, inputs);
            var l := Mechanical(body.starting, Number(py, body.startingCash), body.sells, body.buys);
            l.Some? && EndsAs(l.value, body.expected, Number(py, body.expectedCash), Fractional(inputs.constraints))
  {
    hide HeaderAccepts, NumbersAccept, RowsAccept, AuthorizationAccepts, ConstraintsAccept, Normal, EndsAs, Mechanical;
  }
}
