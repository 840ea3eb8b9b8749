/** The immutable packages of the authority chain and the builders that make them: Evidence,
    Decision, Risk and Execution (authority/contracts.py, authority/pipeline.py). */
module AuthorityPackages {
  import opened Wrappers
  import opened Sequences
  import opened Grid
  import opened Json
  import Text

  const EVIDENCE_SCHEMA := "caerus.evidence.v1"
  const DECISION_SCHEMA := "caerus.decision.v1"
  const LEGACY_RISK_SCHEMA := "caerus.risk.v1"
  const RISK_SCHEMA := "caerus.risk.v2"
  const LEGACY_EXECUTION_SCHEMA := "caerus.execution.v1"
  const EXECUTION_SCHEMA := "caerus.execution.v2"

  // ----- Rows and references

  datatype Row = Row(symbol: Field, ticker: Field, side: Field, shares: Field, quantity: Field, notional: Field,
                     targetWeight: Field, weight: Field, extra: map<string, Value>)

  /** The numeric fields Risk may shrink but not grow. */
  datatype Numeric = Shares | Quantity | Notional | TargetWeight | Weight

  const NUMERICS := [Shares, Quantity, Notional, TargetWeight, Weight]

  function FieldOf(row: Row, f: Numeric): Field {
    match f
    case Shares => row.shares
    case Quantity => row.quantity
    case Notional => row.notional
    case TargetWeight => row.targetWeight
    case Weight => row.weight
  }

  function SymbolText(py: Python, row: Row): string {
    UpperText(py, Or(Or(Get(row.symbol), Get(row.ticker)), Str("")))
  }

  predicate ValidRow(py: Python, row: Row) {
    SymbolText(py, row) != "" && SymbolText(py, row) != "CASH"
  }

  function NormalRow(py: Python, row: Row): Row {
    row.(symbol := Some(Str(SymbolText(py, row))),
         ticker := if row.ticker.Some? then Some(Str(SymbolText(py, row))) else None)
  }

  predicate ValidRows(py: Python, rows: seq<Row>) {
    forall i :: 0 <= i < |rows| ==> ValidRow(py, rows[i])
  }

  function NormalRows(py: Python, rows: seq<Row>): (r: seq<Row>)
    ensures |r| == |rows| && forall i :: 0 <= i < |r| ==> r[i] == NormalRow(py, rows[i])
  {
    Map(row => NormalRow(py, row), rows)
  }

  /** The `_rows` loop. */
  method Rows(py: Python, rows: seq<Row>) returns (r: Option<seq<Row>>)
    ensures r.Some? <==> ValidRows(py, rows)
    ensures r.Some? ==> r.value == NormalRows(py, rows)
  {
    hide ValidRow, NormalRow;
    var normalized: seq<Row> := [];
    for i := 0 to |rows|
      invariant normalized == NormalRows(py, rows)[..i]
      invariant forall k :: 0 <= k < i ==> ValidRow(py, rows[k])
    {
      if !ValidRow(py, rows[i]) { return None; }
      normalized := normalized + [NormalRow(py, rows[i])];
    }
    return Some(normalized);
  }

  function NonEmptyRefs(refs: seq<string>): seq<string> {
    Filter((s: string) => s != "", Map(Text.Strip, refs))
  }

  /** `_refs`: the stripped nonempty references, sorted and without duplicates. */
  function Refs(refs: seq<string>): seq<string> {
    SortedUnique(Text.Leq, NonEmptyRefs(refs))
  }

  // ----- Packages

  datatype Evidence = Evidence(schema: string, packageId: string, tradeDate: string, refs: seq<string>,
                               observations: seq<Row>, hash: string)

  datatype Decision = Decision(schema: string, packageId: string, tradeDate: string, evidenceId: string,
                               evidenceHash: string, authority: string, cash: Value, rows: seq<Row>, refs: seq<string>,
                               hash: string)

  datatype Risk = Risk(schema: string, packageId: string, tradeDate: string, decisionId: string, decisionHash: string,
                       cash: Value, rows: seq<Row>, constraints: string, refs: seq<string>, hash: string)

  datatype Execution = Execution(schema: string, packageId: string, tradeDate: string, riskId: string, riskHash: string,
                                 cash: Value, rows: seq<Row>, constraints: string, refs: seq<string>, hash: string)

  /** The content hash of each package document, taken with the hash field blank, and which texts are
      ISO dates. */
  datatype Env = Env(py: Python, isDate: string -> bool, evidenceHash: Evidence -> string,
                     decisionHash: Decision -> string, riskHash: Risk -> string, executionHash: Execution -> string)

  /** `_cash_weight` */
  function CashWeight(py: Python, v: Value): Option<real> {
    match ToFloat(py, v)
    case Some(w) => if 0.0 <= w <= 1.0 then Some(w) else None
    case None => None
  }

  function CashOf(py: Python, v: Value): real {
    CashWeight(py, v).GetOr(0.0)
  }

  function EvidencePackage(env: Env, d: Evidence): Option<Evidence> {
    if d.schema == EVIDENCE_SCHEMA && d.packageId != "" && d.tradeDate != "" && env.isDate(d.tradeDate)
       && Refs(d.refs) != [] && ValidRows(env.py, d.observations)
    then
      var p := d.(refs := Refs(d.refs), observations := NormalRows(env.py, d.observations), hash := "");
      Some(p.(hash := env.evidenceHash(p)))
    else None
  }

  function DecisionPackage(env: Env, d: Decision): Option<Decision> {
    if d.schema == DECISION_SCHEMA && d.authority == "DECISION"
       && d.packageId != "" && d.evidenceId != "" && d.evidenceHash != "" && env.isDate(d.tradeDate)
       && CashWeight(env.py, d.cash).Some? && Refs(d.refs) != [] && ValidRows(env.py, d.rows)
    then
      var p := d.(cash := Num(CashOf(env.py, d.cash)), rows := NormalRows(env.py, d.rows), refs := Refs(d.refs),
                  hash := "");
      Some(p.(hash := env.decisionHash(p)))
    else None
  }

  function RiskPackage(env: Env, d: Risk): Option<Risk> {
    if d.schema in {LEGACY_RISK_SCHEMA, RISK_SCHEMA} && d.decisionId != "" && d.decisionHash != ""
       && env.isDate(d.tradeDate)
       && CashWeight(env.py, d.cash).Some? && Refs(d.refs) != [] && ValidRows(env.py, d.rows)
    then
      var p := d.(cash := Num(CashOf(env.py, d.cash)), rows := NormalRows(env.py, d.rows), refs := Refs(d.refs),
                  hash := "");
      Some(p.(hash := env.riskHash(p)))
    else None
  }

  /** A legacy execution document carries no constraints, so neither does what is hashed. */
  function ExecutionPackage(env: Env, d: Execution): Option<Execution> {
    if d.schema in {LEGACY_EXECUTION_SCHEMA, EXECUTION_SCHEMA} && d.riskId != "" && d.riskHash != ""
       && env.isDate(d.tradeDate)
       && CashWeight(env.py, d.cash).Some? && Refs(d.refs) != [] && ValidRows(env.py, d.rows)
    then
      var p := d.(cash := Num(CashOf(env.py, d.cash)), rows := NormalRows(env.py, d.rows), refs := Refs(d.refs),
                  constraints := if d.schema == LEGACY_EXECUTION_SCHEMA then "{}" else d.constraints, hash := "");
      Some(p.(hash := env.executionHash(p)))
    else None
  }

  // ----- Builders

  function BuildDecision(env: Env, packageId: string, tradeDate: string, evidence: Evidence, rows: seq<Row>,
                         refs: seq<string>, cash: Value): Option<Decision> {
    if tradeDate != evidence.tradeDate then None
    else DecisionPackage(env, Decision(DECISION_SCHEMA, packageId, tradeDate, evidence.packageId, evidence.hash,
                                       "DECISION", cash, rows, refs, ""))
  }

  /** The symbol of a normalised row. */
  function RowSymbol(row: Row): string {
    if Get(row.symbol).Str? then Get(row.symbol).s else ""
  }

  function BySymbol(rows: seq<Row>): map<string, Row> {
    Index(RowSymbol, rows)
  }

  function RowSide(py: Python, row: Row): string {
    Text.Upper(ToText(py, Or(Get(row.side), Str(""))))
  }

  predicate SidesAgree(py: Python, approved: Row, decided: Row) {
    RowSide(py, approved) != "" && RowSide(py, decided) != "" ==> RowSide(py, approved) == RowSide(py, decided)
  }

  /** One numeric field present in both rows: numeric in both and not larger in the approved one. */
  predicate NotIncreased(py: Python, approved: Row, decided: Row, f: Numeric) {
    FieldOf(approved, f).Some? && FieldOf(decided, f).Some? ==>
      var a, d := ToFloat(py, FieldOf(approved, f).value), ToFloat(py, FieldOf(decided, f).value);
      a.Some? && d.Some? && Abs(a.value) <= Abs(d.value) + NUDGE
  }

  predicate Constrains(py: Python, approved: Row, decided: Row) {
    && SidesAgree(py, approved, decided)
    && forall f :: f in NUMERICS ==> NotIncreased(py, approved, decided, f)
  }

  /** Risk may constrain the Decision rows and may not invent symbols. */
  predicate RowsConstrain(py: Python, approved: seq<Row>, decided: seq<Row>) {
    forall i :: 0 <= i < |approved| ==>
      RowSymbol(approved[i]) in BySymbol(decided)
      && Constrains(py, approved[i], BySymbol(decided)[RowSymbol(approved[i])])
  }

  /** The nested row and field loops of `build_risk_package`. */
  method CheckConstrains(py: Python, approved: seq<Row>, decided: seq<Row>) returns (ok: bool)
    ensures ok <==> RowsConstrain(py, approved, decided)
  {
    hide NotIncreased, SidesAgree, BySymbol;
    var decidedBySymbol := BySymbol(decided);
    for i := 0 to |approved|
      invariant forall k :: 0 <= k < i ==>
                  RowSymbol(approved[k]) in decidedBySymbol
                  && Constrains(py, approved[k], decidedBySymbol[RowSymbol(approved[k])])
    {
      if RowSymbol(approved[i]) !in decidedBySymbol { return false; }
      var decidedRow := decidedBySymbol[RowSymbol(approved[i])];
      if !SidesAgree(py, approved[i], decidedRow) { return false; }
      for n := 0 to |NUMERICS|
        invariant forall k :: 0 <= k < n ==> NotIncreased(py, approved[i], decidedRow, NUMERICS[k])
      {
        if !NotIncreased(py, approved[i], decidedRow, NUMERICS[n]) {
          assert NUMERICS[n] in NUMERICS;
          return false;
        }
      }
    }
    return true;
  }

  /** The cash weight Risk asks for: its own, or Decision's when it gives none. */
  function RiskCash(py: Python, decision: Decision, approvedCash: Option<Value>): Option<real> {
    CashWeight(py, approvedCash.GetOr(decision.cash))
  }

  /** `build_risk_package` on an already normalised Decision. */
  function BuildRisk(env: Env, packageId: string, decision: Decision, approved: seq<Row>, constraints: string,
                     refs: seq<string>, approvedCash: Option<Value>): Option<Risk> {
    var cash := RiskCash(env.py, decision, approvedCash);
    if ValidRows(env.py, approved)
       && RowsConstrain(env.py, NormalRows(env.py, approved), decision.rows)
       && cash.Some? && cash.value + NUDGE >= CashOf(env.py, decision.cash)
    then RiskPackage(env, Risk(RISK_SCHEMA, packageId, decision.tradeDate, decision.packageId, decision.hash,
                               Num(cash.value), NormalRows(env.py, approved), constraints, refs, ""))
    else None
  }

  function ExecutionFromRisk(env: Env, risk: Risk): Option<Execution> {
    ExecutionPackage(env, Execution(EXECUTION_SCHEMA, "execution:" + risk.packageId, risk.tradeDate, risk.packageId,
                                    risk.hash, risk.cash, risk.rows, risk.constraints,
                                    risk.refs + ["risk:" + risk.packageId], ""))
  }

  // ----- Rehydration: rebuild the package from its document and compare the hash

  function EvidenceFromDict(env: Env, d: Evidence): Option<Evidence> {
    match EvidencePackage(env, d)
    case Some(p) => if d.hash == p.hash then Some(p) else None
    case None => None
  }

  function DecisionFromDict(env: Env, d: Decision): Option<Decision> {
    match DecisionPackage(env, d)
    case Some(p) => if d.hash == p.hash then Some(p) else None
    case None => None
  }

  function RiskFromDict(env: Env, d: Risk): Option<Risk> {
    match RiskPackage(env, d)
    case Some(p) => if d.hash == p.hash then Some(p) else None
    case None => None
  }

  function ExecutionFromDict(env: Env, d: Execution): Option<Execution> {
    match ExecutionPackage(env, d)
    case Some(p) => if d.hash == p.hash then Some(p) else None
    case None => None
  }

  // ----- The chain

  datatype Chain = Chain(evidence: Evidence, decision: Decision, risk: Risk, execution: Execution)

  function Rehydrate(env: Env, persisted: Chain): Option<Chain> {
    match EvidenceFromDict(env, persisted.evidence)
    case None => None
    case Some(e) =>
      match DecisionFromDict(env, persisted.decision)
      case None => None
      case Some(d) =>
        match RiskFromDict(env, persisted.risk)
        case None => None
        case Some(r) =>
          match ExecutionFromDict(env, persisted.execution)
          case None => None
          case Some(x) => Some(Chain(e, d, r, x))
  }

  predicate SameDates(c: Chain, tradeDate: string) {
    c.evidence.tradeDate == tradeDate && c.decision.tradeDate == tradeDate
    && c.risk.tradeDate == tradeDate && c.execution.tradeDate == tradeDate
  }

  predicate Linked(c: Chain) {
    && c.decision.evidenceId == c.evidence.packageId && c.decision.evidenceHash == c.evidence.hash
    && c.risk.decisionId == c.decision.packageId && c.risk.decisionHash == c.decision.hash
    && c.execution.riskId == c.risk.packageId && c.execution.riskHash == c.risk.hash
  }

  /** Every stage rebuilds, from the stage before it, to the hash it carries. */
  predicate Rederived(env: Env, c: Chain, tradeDate: string) {
    var decision := BuildDecision(env, c.decision.packageId, tradeDate, c.evidence, c.decision.rows, c.decision.refs,
                                  c.decision.cash);
    var risk := BuildRisk(env, c.risk.packageId, c.decision, c.risk.rows, c.risk.constraints, c.risk.refs,
                          Some(c.risk.cash));
    var execution := ExecutionFromRisk(env, c.risk);
    && decision.Some? && decision.value.hash == c.decision.hash
    && risk.Some? && risk.value.hash == c.risk.hash
    && execution.Some? && execution.value.hash == c.execution.hash
  }

  /** `validate_persisted_authority_chain`, on the four persisted documents. */
  function ValidateChain(env: Env, persisted: Chain, embedded: Execution, tradeDate: string,
                         sourceHash: string): Option<Chain> {
    match Rehydrate(env, persisted)
    case None => None
    case Some(c) =>
      if SameDates(c, tradeDate) && Linked(c) && Rederived(env, c, tradeDate)
         && embedded == persisted.execution
         && "sha256:" + sourceHash in c.evidence.refs && "sha256:" + sourceHash in c.decision.refs
      then Some(c) else None
  }

  // ----- wrap_precompute_payload

  /** A payload value that may be a list of rows. */
  datatype Source = Missing | NotAList(truthy: bool) | List(rows: seq<Row>)

  datatype Precompute = Precompute(tradeDate: Value, targetPortfolio: Source, targetRows: Source, signals: Source,
                                   trades: Source, evidence: Source, cashTargetWeight: Value)

  predicate TruthySource(s: Source) {
    match s
    case Missing => false
    case NotAList(t) => t
    case List(rows) => rows != []
  }

  function RawTargets(p: Precompute): Source {
    if p.targetPortfolio != Missing then p.targetPortfolio
    else if p.targetRows != Missing then p.targetRows
    else if p.signals != Missing then p.signals
    else if p.trades.List? && (forall i :: 0 <= i < |p.trades.rows| ==> p.trades.rows[i].targetWeight.Some?)
       then p.trades
    else Missing
  }

  function Observations(p: Precompute): Source {
    var o := if TruthySource(p.evidence) then p.evidence
             else if TruthySource(p.signals) then p.signals
             else RawTargets(p);
    if o.List? then o else RawTargets(p)
  }

  function WrapPrecompute(env: Env, p: Precompute, evidenceRefs: seq<string>, decisionId: string, riskId: string,
                          constraints: string): Option<Chain> {
    var tradeDate := Text.Strip(ToText(env.py, Or(p.tradeDate, Str(""))));
    var cash := ToFloat(env.py, Or(p.cashTargetWeight, Num(0.0)));
    if tradeDate == "" || !RawTargets(p).List? || cash.None? then None
    else
      match EvidencePackage(env, Evidence(EVIDENCE_SCHEMA, "evidence:" + decisionId, tradeDate, evidenceRefs,
                                          Observations(p).rows, ""))
      case None => None
      case Some(e) =>
        match BuildDecision(env, decisionId, tradeDate, e, RawTargets(p).rows, evidenceRefs, Num(cash.value))
        case None => None
        case Some(d) =>
          match BuildRisk(env, riskId, d, d.rows, constraints, ["decision:" + d.packageId], Some(Num(cash.value)))
          case None => None
          case Some(r) =>
            match ExecutionFromRisk(env, r)
            case None => None
            case Some(x) => Some(Chain(e, d, r, x))
  }
}
