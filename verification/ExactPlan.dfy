/** Exact-order plan v3: building a plan from loosely spelled inputs and re-parsing a serialised one
    by building it again (authority/exact_plan.py). */
module ExactPlan {
  import opened Wrappers
  import opened Sequences
  import opened Grid
  import opened Json
  import opened ExactOrders
  import Text

  // ----- Inputs

  datatype AllocationRow = AllocationRow(sleeveId: Field, sleeve: Field, capitalEligible: Field,
                                         extra: map<string, Value>)

  datatype Regime = Regime(schemaCurrent: bool, vetoBuys: bool, document: string)

  datatype Constraints = Constraints(
    maxOrders: Field, capitalCap: Field, maxAdverseBps: Field, attributionBps: Field, attributionInterval: Field,
    executionStyle: Field, allowFractional: Field, regimeOwner: Field, extra: map<string, Value>)

  datatype Authorization = Authorization(
    status: Field, authority: Field, authorizedAt: Field, reason: Field, authorizationId: Field,
        extra: map<string, Value>)

  /** The arguments of the builder, and equally the body of a plan: in a plan every field is in its
      normal form.  `lineage` and `riskState` stand for the documents that are carried unchanged. */
  datatype Inputs = Inputs(
    runId: string, asOf: string, createdAt: string, orchestratorVersion: string, marketStateId: string,
    lineage: string, regime: Regime, allocations: seq<AllocationRow>, nav: Value,
    starting: seq<PositionRow>, startingCash: Value, accountIdHash: string, riskState: string,
    sells: seq<OrderRow>, buys: seq<OrderRow>, expected: seq<PositionRow>, expectedCash: Value,
    constraints: Constraints, authorization: Authorization, strategyId: string, accountScope: string)

  /** The governed allocator, consulted when a plan is first built and not when it is re-parsed. */
  datatype Governance = Governance(eligible: seq<string>, authority: string)

  // ----- Hashes

  /** What the plan seed hashes: the economic decision, without run id, creation time and
      authorization. */
  datatype SeedDocument = SeedDocument(
    asOf: string, orchestratorVersion: string, lineage: string, marketStateId: string, regime: Regime,
    allocations: seq<AllocationRow>, nav: real, starting: seq<PositionRow>, startingCash: real, accountIdHash: string,
    riskState: string, sells: seq<OrderRow>, buys: seq<OrderRow>, expected: seq<PositionRow>, expectedCash: real,
    constraints: Constraints, strategyId: string)

  datatype Digests = Digests(
    seed: SeedDocument -> string,
    order: OrderDigests,
    startingState: (seq<(string, real)>, real) -> string,
    content: (string, string, Inputs) -> string)

  datatype Plan = Plan(body: Inputs, planId: string, startingStateHash: string, contentHash: string)

  // ----- Header

  function AllocationSleeve(py: Python, row: AllocationRow): string {
    LowerText(py, Or(Or(Get(row.sleeveId), Get(row.sleeve)), Str("")))
  }

  function EligibleSleeves(py: Python, rows: seq<AllocationRow>): seq<string> {
    Map(r => AllocationSleeve(py, r), Filter((r: AllocationRow) => Truthy(Get(r.capitalEligible)), rows))
  }

  /** The sorted capital-eligible sleeve set of the plan. */
  function Eligible(py: Python, rows: seq<AllocationRow>): seq<string> {
    SortBy(Text.Leq, EligibleSleeves(py, rows))
  }

  function RegimeOwner(py: Python, c: Constraints, strategy: string): string {
    Text.Strip(ToText(py, Or(Get(c.regimeOwner), Str(strategy))))
  }

  predicate IsSha256(s: string) {
    |s| == 64 && forall i :: 0 <= i < |s| ==> '0' <= s[i] <= '9' || 'a' <= s[i] <= 'f'
  }

  predicate GovernedBy(py: Python, inputs: Inputs, governance: Option<Governance>, eligible: seq<string>) {
    governance.Some? ==>
      && eligible == governance.value.eligible
      && (inputs.constraints.regimeOwner.Some? ==>
            RegimeOwner(py, inputs.constraints, SleeveLabel(eligible)) == governance.value.authority)
  }

  predicate HeaderAccepts(py: Python, inputs: Inputs, governance: Option<Governance>) {
    var eligible := Eligible(py, inputs.allocations);
    && py.isTimestamp(Text.Strip(inputs.asOf))
    && py.isTimestamp(Text.Strip(inputs.createdAt))
    && Text.Upper(Text.Strip(inputs.accountScope)) == "PAPER"
    && IsSha256(Text.Lower(Text.Strip(inputs.accountIdHash)))
    && Text.Strip(inputs.runId) != "" && Text.Strip(inputs.orchestratorVersion) != ""
    && Text.Strip(inputs.marketStateId) != ""
    && inputs.regime.schemaCurrent
    && eligible != [] && Distinct(EligibleSleeves(py, inputs.allocations))
    && Text.Lower(Text.Strip(inputs.strategyId)) == SleeveLabel(eligible)
    && (inputs.constraints.regimeOwner.Some? ==>
          RegimeOwner(py, inputs.constraints, SleeveLabel(eligible)) in eligible)
    && GovernedBy(py, inputs, governance, eligible)
  }

  // ----- Seed

  function Number(py: Python, v: Value): real {
    Finite(py, v).GetOr(0.0)
  }

  function SeedOf(py: Python, inputs: Inputs): SeedDocument {
    var eligible := Eligible(py, inputs.allocations);
    SeedDocument(
      Text.Strip(inputs.asOf), inputs.orchestratorVersion, inputs.lineage, inputs.marketStateId, inputs.regime,
      inputs.allocations, Number(py, inputs.nav), NormalizedPositions(py, inputs.starting),
      Number(py, inputs.startingCash), Text.Lower(Text.Strip(inputs.accountIdHash)), inputs.riskState,
      SeedRows(py, inputs.sells, SELL, eligible), SeedRows(py, inputs.buys, BUY, eligible),
      NormalizedPositions(py, inputs.expected), Number(py, inputs.expectedCash), inputs.constraints,
      Text.Lower(Text.Strip(inputs.strategyId)))
  }

  function PlanIdFor(asOf: string, seed: string): string {
    "plan:" + (if |asOf| <= 10 then asOf else asOf[..10]) + ":" + seed
  }

  // ----- Authorization

  predicate AuthorizationAccepts(py: Python, a: Authorization) {
    && UpperText(py, Or(Get(a.status), Str(""))) == "AUTHORIZED"
    && UpperText(py, Or(Get(a.authority), Str(""))) == "CAERUS_ORCHESTRATOR"
    && py.isTimestamp(Text.Strip(ToText(py, Or(Get(a.authorizedAt), Str("")))))
    && Text.Strip(ToText(py, Or(Get(a.reason), Str("")))) != ""
  }

  function NormalizedAuthorization(py: Python, a: Authorization, seed: string): Authorization {
    a.(status := Some(Str(UpperText(py, Or(Get(a.status), Str(""))))),
       authorizedAt := Some(Str(Text.Strip(ToText(py, Or(Get(a.authorizedAt), Str("")))))),
       authorizationId := if a.authorizationId.Some? then a.authorizationId else Some(Str("authorization:" + seed)))
  }

  // ----- Constraints

  /** The adverse-fill authority, if it is there and numeric. */
  function AdverseBps(py: Python, c: Constraints): Option<real> {
    if c.maxAdverseBps.None? then None else Finite(py, c.maxAdverseBps.value)
  }

  function OrderSymbol(row: OrderRow): string {
    if Get(row.symbol).Str? then Get(row.symbol).s else ""
  }

  function OrderQuantity(row: OrderRow): real {
    NumOr(row.quantity, 0.0)
  }

  function OrderNotional(row: OrderRow): real {
    NumOr(row.notional, 0.0)
  }

  function NotionalTotal(rows: seq<OrderRow>): real {
    Sum(Map(OrderNotional, rows))
  }

  /** One row under the `protective_day_limit` execution style. */
  predicate Protective(row: OrderRow, side: Side, adverse: Option<real>) {
    var expected := NumOr(row.expectedPrice, NumOr(row.price, 0.0));
    var limit := NumOr(row.limitPrice, 0.0);
    && row.orderType == Some(Str("limit")) && row.timeInForce == Some(Str("day"))
    && row.extendedHours == Some(Bool(false))
    && expected > 0.0 && limit > 0.0
    && Abs(NumOr(row.capPrice, 0.0) - limit) <= 0.000000001
    && (adverse.Some? ==>
          if side == BUY then limit <= Cost(expected, 1.0 + adverse.value / 10000.0) + 0.000000001
          else limit + 0.000000001 >= Cost(expected, 1.0 - adverse.value / 10000.0))
  }

  predicate ProtectiveStyleAccepts(py: Python, c: Constraints, sells: seq<OrderRow>, buys: seq<OrderRow>,
                                   allowLegacy: bool) {
    LowerText(py, Or(Get(c.executionStyle), Str(""))) == "protective_day_limit" && sells + buys != [] ==>
      && (AdverseBps(py, c).Some? || allowLegacy)
      && (forall i :: 0 <= i < |sells| ==> Protective(sells[i], SELL, AdverseBps(py, c)))
      && (forall i :: 0 <= i < |buys| ==> Protective(buys[i], BUY, AdverseBps(py, c)))
  }

  predicate LimitsAccept(py: Python, c: Constraints, sells: seq<OrderRow>, buys: seq<OrderRow>) {
    && c.maxOrders.Some? && ToInt(py, c.maxOrders.value).Some?
    && c.capitalCap.Some? && Finite(py, c.capitalCap.value).Some?
    && ToInt(py, c.maxOrders.value).value >= 0 && |sells| + |buys| <= ToInt(py, c.maxOrders.value).value
    && Finite(py, c.capitalCap.value).value > 0.0
    && NotionalTotal(buys) <= Finite(py, c.capitalCap.value).value + 0.000000001
  }

  predicate AttributionAccepts(py: Python, c: Constraints) {
    && (c.attributionBps.Some? ==>
          Finite(py, c.attributionBps.value).Some? && Finite(py, c.attributionBps.value).value <= 50.0)
    && (c.attributionInterval.Some? ==> ToText(py, c.attributionInterval.value) == "execution_pre_to_post_broker_nav")
  }

  predicate AdverseAccepts(py: Python, c: Constraints, hasOrders: bool, allowLegacy: bool) {
    hasOrders ==>
      && (AdverseBps(py, c).Some? || allowLegacy)
      && (AdverseBps(py, c).Some? ==> AdverseBps(py, c).value <= 100.0)
  }

  predicate ConstraintsAccept(py: Python, c: Constraints, regime: Regime, sells: seq<OrderRow>, buys: seq<OrderRow>,
                              allowLegacy: bool) {
    && (regime.vetoBuys ==> buys == [])
    && AttributionAccepts(py, c)
    && LimitsAccept(py, c, sells, buys)
    && AdverseAccepts(py, c, sells + buys != [], allowLegacy)
    && ProtectiveStyleAccepts(py, c, sells, buys, allowLegacy)
  }

  /** The two constraint values the builder writes back as numbers. */
  function CoercedConstraints(py: Python, c: Constraints, hasOrders: bool): Constraints {
    c.(attributionBps := if c.attributionBps.Some? && Finite(py, c.attributionBps.value).Some?
                         then Some(Num(Finite(py, c.attributionBps.value).value)) else c.attributionBps,
       maxAdverseBps := if hasOrders && AdverseBps(py, c).Some? then Some(Num(AdverseBps(py, c).value))
           else c.maxAdverseBps)
  }

  // ----- Mechanical post-trade check

  datatype Ledger = Ledger(positions: map<string, real>, cash: real)

  function Held(positions: map<string, real>, symbol: string): real {
    if symbol in positions then positions[symbol] else 0.0
  }

  function ApplySells(l: Ledger, rows: seq<OrderRow>): Option<Ledger>
    decreases |rows|
  {
    if rows == [] then Some(l)
    else
      var s, q := OrderSymbol(rows[0]), OrderQuantity(rows[0]);
      if Held(l.positions, s) + 0.000000001 < q then None
      else ApplySells(Ledger(l.positions[s := Held(l.positions, s) - q], l.cash + OrderNotional(rows[0])), rows[1..])
  }

  function ApplyBuys(l: Ledger, rows: seq<OrderRow>): Ledger
    decreases |rows|
  {
    if rows == [] then l
    else
      var s, q := OrderSymbol(rows[0]), OrderQuantity(rows[0]);
      ApplyBuys(Ledger(l.positions[s := Held(l.positions, s) + q], l.cash - OrderNotional(rows[0])), rows[1..])
  }

  function PositionsOf(rows: seq<PositionRow>): map<string, real> {
    var byRow := Index(HeldSymbol, rows);
    map s | s in byRow :: HeldQuantity(byRow[s])
  }

  /** `_canonical_fractional_quantity`: the quantity to six decimals, if it is within 1e-12 of it. */
  function SixDecimals(q: real): Option<real> {
    var c := Round(q * 1000000.0) as real / 1000000.0;
    if q >= 0.0 && Abs(q - c) <= NUDGE then Some(c) else None
  }

  predicate AllSixDecimals(m: map<string, real>) {
    forall s :: s in m ==> SixDecimals(m[s]).Some?
  }

  function RoundedPositions(m: map<string, real>, fractional: bool): map<string, real> {
    if fractional then map s | s in m :: SixDecimals(m[s]).GetOr(0.0) else m
  }

  function OpenPositions(m: map<string, real>): map<string, real> {
    map s | s in m && m[s] > NUDGE :: m[s]
  }

  predicate Fractional(c: Constraints) {
    c.allowFractional == Some(Bool(true))
  }

  function Mechanical(start: seq<PositionRow>, cash: real, sells: seq<OrderRow>, buys: seq<OrderRow>): Option<Ledger> {
    match ApplySells(Ledger(PositionsOf(start), cash), sells)
    case None => None
    case Some(l) => Some(ApplyBuys(l, buys))
  }

  /** The replayed state is the expected one. */
  predicate EndsAs(l: Ledger, expected: seq<PositionRow>, expectedCash: real, fractional: bool) {
    && (fractional ==> AllSixDecimals(l.positions) && AllSixDecimals(PositionsOf(expected)))
    && OpenPositions(RoundedPositions(l.positions, fractional)) == RoundedPositions(PositionsOf(expected), fractional)
    && Abs(l.cash - expectedCash) <= 0.000001
  }

  predicate MechanicalAccepts(start: seq<PositionRow>, cash: real, sells: seq<OrderRow>, buys: seq<OrderRow>,
                              expected: seq<PositionRow>, expectedCash: real, fractional: bool) {
    match Mechanical(start, cash, sells, buys)
    case None => false
    case Some(l) => EndsAs(l, expected, expectedCash, fractional)
  }

  /** The post-trade loops of the builder, updating the mechanical positions and cash in turn. */
  method MechanicalReplay(start: seq<PositionRow>, cash: real, sells: seq<OrderRow>, buys: seq<OrderRow>)
    returns (r: Option<Ledger>)
    ensures r == Mechanical(start, cash, sells, buys)
  {
    var positions, mechanicalCash := PositionsOf(start), cash;
    for i := 0 to |sells|
      invariant ApplySells(Ledger(PositionsOf(start), cash), sells)
             == ApplySells(Ledger(positions, mechanicalCash), sells[i..])
    {
      assert sells[i..][0] == sells[i] && sells[i..][1..] == sells[i + 1..];
      var s, q := OrderSymbol(sells[i]), OrderQuantity(sells[i]);
      if Held(positions, s) + 0.000000001 < q { return None; }
      positions := positions[s := Held(positions, s) - q];
      mechanicalCash := mechanicalCash + OrderNotional(sells[i]);
    }
    ghost var sold := Ledger(positions, mechanicalCash);
    for i := 0 to |buys|
      invariant ApplyBuys(sold, buys) == ApplyBuys(Ledger(positions, mechanicalCash), buys[i..])
    {
      assert buys[i..][0] == buys[i] && buys[i..][1..] == buys[i + 1..];
      var s, q := OrderSymbol(buys[i]), OrderQuantity(buys[i]);
      positions := positions[s := Held(positions, s) + q];
      mechanicalCash := mechanicalCash - OrderNotional(buys[i]);
    }
    return Some(Ledger(positions, mechanicalCash));
  }

  // ----- build_exact_execution_plan

  function StateRow(row: PositionRow): (string, real) {
    (HeldSymbol(row), HeldQuantity(row))
  }

  /** The plan body: every input in its normal form. */
  function Normal(py: Python, h: Digests, inputs: Inputs): Inputs {
    var eligible := Eligible(py, inputs.allocations);
    var seed := h.seed(SeedOf(py, inputs));
    inputs.(
      asOf := Text.Strip(inputs.asOf),
      createdAt := Text.Strip(inputs.createdAt),
      nav := Num(Number(py, inputs.nav)),
      starting := NormalizedPositions(py, inputs.starting),
      startingCash := Num(Number(py, inputs.startingCash)),
      accountIdHash := Text.Lower(Text.Strip(inputs.accountIdHash)),
      sells := NormalizedOrders(py, h.order, inputs.sells, SELL, seed, eligible),
      buys := NormalizedOrders(py, h.order, inputs.buys, BUY, seed, eligible),
      expected := NormalizedPositions(py, inputs.expected),
      expectedCash := Num(Number(py, inputs.expectedCash)),
      constraints := CoercedConstraints(py, inputs.constraints, inputs.sells + inputs.buys != []),
      authorization := NormalizedAuthorization(py, inputs.authorization, seed),
      strategyId := Text.Lower(Text.Strip(inputs.strategyId)),
      accountScope := "PAPER")
  }

  predicate NumbersAccept(py: Python, inputs: Inputs) {
    Finite(py, inputs.nav).Some? && Finite(py, inputs.startingCash).Some? && Finite(py, inputs.expectedCash).Some?
  }

  predicate RowsAccept(py: Python, inputs: Inputs) {
    var eligible := Eligible(py, inputs.allocations);
    && PositionsAccepted(py, inputs.starting) && PositionsAccepted(py, inputs.expected)
    && SeedsAccepted(py, inputs.sells, SELL, eligible) && SeedsAccepted(py, inputs.buys, BUY, eligible)
    && OrdersAccepted(py, inputs.sells, SELL, eligible) && OrdersAccepted(py, inputs.buys, BUY, eligible)
  }

  /** The checks on the normalised body. */
  predicate BodyAccepts(py: Python, c: Constraints, body: Inputs, allowLegacy: bool) {
    && ConstraintsAccept(py, c, body.regime, body.sells, body.buys, allowLegacy)
    && MechanicalAccepts(body.starting, Number(py, body.startingCash), body.sells, body.buys, body.expected,
                         Number(py, body.expectedCash), Fractional(c))
  }

  predicate BuildAccepts(py: Python, h: Digests, inputs: Inputs, governance: Option<Governance>, allowLegacy: bool) {
    && HeaderAccepts(py, inputs, governance)
    && NumbersAccept(py, inputs)
    && RowsAccept(py, inputs)
    && AuthorizationAccepts(py, inputs.authorization)
    && BodyAccepts(py, inputs.constraints, Normal(py, h, inputs), allowLegacy)
  }

  function PlanFor(py: Python, h: Digests, inputs: Inputs): Plan {
    var body := Normal(py, h, inputs);
    var planId := PlanIdFor(body.asOf, h.seed(SeedOf(py, inputs)));
    var stateHash := h.startingState(Map(StateRow, body.starting), Number(py, body.startingCash));
    Plan(body, planId, stateHash, h.content(planId, stateHash, body))
  }

  datatype BuildError = Refused | IdsInvalid | IdentityMismatch

  /** `build_exact_execution_plan` */
  function Build(py: Python, h: Digests, inputs: Inputs, governance: Option<Governance>, allowLegacy: bool)
    : Result<Plan, BuildError>
  {
    if BuildAccepts(py, h, inputs, governance, allowLegacy) then Ok(PlanFor(py, h, inputs)) else Err(Refused)
  }

  /** The builder as it runs: the orders are normalised by their loop and the post-trade state is
      replayed step by step. */
  method BuildPlan(py: Python, h: Digests, inputs: Inputs, governance: Option<Governance>, allowLegacy: bool)
    returns (r: Result<Plan, BuildError>)
    ensures r == Build(py, h, inputs, governance, allowLegacy)
  {
    hide HeaderAccepts, NumbersAccept, PositionsAccepted, SeedsAccepted, OrdersAccepted, AuthorizationAccepts,
         ConstraintsAccept, EndsAs, Mechanical, NormalizedOrders, NormalizedPositions, NormalizedAuthorization,
         CoercedConstraints, SeedOf, Eligible, PlanFor, Number, Text.Strip, Text.Lower, PlanIdFor;
    if !HeaderAccepts(py, inputs, governance) || !NumbersAccept(py, inputs) { return Err(Refused); }
    var eligible := Eligible(py, inputs.allocations);
    if !PositionsAccepted(py, inputs.starting) || !PositionsAccepted(py, inputs.expected) { return Err(Refused); }
    if !SeedsAccepted(py, inputs.sells, SELL, eligible) { return Err(Refused); }
    if !SeedsAccepted(py, inputs.buys, BUY, eligible) { return Err(Refused); }
    var seed := h.seed(SeedOf(py, inputs));
    var sells := NormalizeOrders(py, h.order, inputs.sells, SELL, seed, eligible);
    if sells.Err? { return Err(Refused); }
    var buys := NormalizeOrders(py, h.order, inputs.buys, BUY, seed, eligible);
    if buys.Err? || !AuthorizationAccepts(py, inputs.authorization) { return Err(Refused); }
    if !ConstraintsAccept(py, inputs.constraints, inputs.regime, sells.value, buys.value, allowLegacy) {
      return Err(Refused);
    }
    var body := Normal(py, h, inputs);
    assert body.sells == sells.value && body.buys == buys.value;
    var cash := Number(py, body.startingCash);
    var ledger := MechanicalReplay(body.starting, cash, sells.value, buys.value);
    var fractional := Fractional(inputs.constraints);
    var ends := ledger.Some? && EndsAs(ledger.value, body.expected, Number(py, body.expectedCash), fractional);
    if !ends { return Err(Refused); }
    return Ok(PlanFor(py, h, inputs));
  }

  // ----- exact_execution_plan_from_dict

  function OrderIdText(py: Python, row: OrderRow): string {
    Text.Strip(ToText(py, Or(Get(row.orderId), Str(""))))
  }

  function ClientIdText(py: Python, row: OrderRow): string {
    Text.Strip(ToText(py, Or(Get(row.clientOrderId), Str(""))))
  }

  predicate SidesSupplied(py: Python, rows: seq<OrderRow>, side: Side) {
    forall i :: 0 <= i < |rows| ==> UpperText(py, Or(Get(rows[i].side), Str(""))) == SideText(side)
  }

  /** Every serialised order carries both ids, the required side, and ids no other order has. */
  predicate IdsSupplied(py: Python, sells: seq<OrderRow>, buys: seq<OrderRow>) {
    && SidesSupplied(py, sells, SELL) && SidesSupplied(py, buys, BUY)
    && (forall i :: 0 <= i < |sells + buys| ==>
          OrderIdText(py, (sells + buys)[i]) != "" && ClientIdText(py, (sells + buys)[i]) != "")
    && Distinct(Map(r => OrderIdText(py, r), sells + buys))
    && Distinct(Map(r => ClientIdText(py, r), sells + buys))
  }

  predicate SameIds(supplied: seq<OrderRow>, rebuilt: seq<OrderRow>) {
    && |supplied| == |rebuilt|
    && forall i :: 0 <= i < |supplied| ==>
         supplied[i].orderId == rebuilt[i].orderId && supplied[i].clientOrderId == rebuilt[i].clientOrderId
  }

  /** `exact_execution_plan_from_dict`, apart from the committed regime event it also checks: rebuild
      the plan from its own dictionary and compare every identity. */
  function FromDict(py: Python, h: Digests, payload: Plan): Result<Plan, BuildError> {
    var b := payload.body;
    if !IdsSupplied(py, b.sells, b.buys) then Err(IdsInvalid)
    else
      match Build(py, h, b, None, b.sells + b.buys != [] && b.constraints.maxAdverseBps.None?)
      case Err(e) => Err(e)
      case Ok(plan) =>
        if payload.planId != plan.planId || payload.startingStateHash != plan.startingStateHash
           || payload.contentHash != plan.contentHash
           || !SameIds(b.sells, plan.body.sells) || !SameIds(b.buys, plan.body.buys)
        then Err(IdentityMismatch)
        else Ok(plan)
  }
}
