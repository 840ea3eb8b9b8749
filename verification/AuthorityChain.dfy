/** Main results on the authority chain: rehydration is exact, every wrapped chain validates, and a
    validated chain only ever constrains its Decision. */
module AuthorityChain {
  import opened Wrappers
  import opened Sequences
  import opened Grid
  import opened Json
  import opened AuthorityPackages
  import Text

  // ----- Normal forms

  lemma NormalRowFixed(py: Python, row: Row)
    requires ValidRow(py, row)
    ensures var n := NormalRow(py, row);
            ValidRow(py, n) && NormalRow(py, n) == n && RowSymbol(n) == SymbolText(py, row)
  {
    UpperReadBack(py, Or(Or(Get(row.symbol), Get(row.ticker)), Str("")), Get(NormalRow(py, row).ticker), Str(""));
    hide UpperText;
  }

  lemma NormalRowsFixed(py: Python, rows: seq<Row>)
    requires ValidRows(py, rows)
    ensures ValidRows(py, NormalRows(py, rows)) && NormalRows(py, NormalRows(py, rows)) == NormalRows(py, rows)
  {
    hide ValidRow, NormalRow;
    var out := NormalRows(py, rows);
    forall i | 0 <= i < |rows| ensures ValidRow(py, out[i]) && NormalRow(py, out[i]) == out[i] {
      NormalRowFixed(py, rows[i]);
    }
  }

  lemma {:induction false} StrippedRefsStay(refs: seq<string>)
    requires forall r :: r in refs ==> r != "" && Text.Strip(r) == r
    ensures NonEmptyRefs(refs) == refs
  {
    if refs != [] {
      assert forall r :: r in refs[1..] ==> r in refs;
      assert refs[0] in refs;
      StrippedRefsStay(refs[1..]);
      assert Map(Text.Strip, refs)[1..] == Map(Text.Strip, refs[1..]);
      hide Text.Strip;
      assert refs == [refs[0]] + refs[1..];
    }
  }

  lemma RefsElements(refs: seq<string>)
    ensures Increasing(Text.Leq, Refs(refs))
    ensures forall r :: r in Refs(refs) <==> r != "" && exists i :: 0 <= i < |refs| && Text.Strip(refs[i]) == r
    ensures forall r :: r in Refs(refs) ==> Text.Strip(r) == r
  {
    Text.LeqTotalOrder();
    SortedUniqueIncreasing(Text.Leq, NonEmptyRefs(refs));
    FilterElements((s: string) => s != "", Map(Text.Strip, refs));
    hide Text.Strip;
    var stripped := Map(Text.Strip, refs);
    forall r ensures r in Refs(refs) <==> r != "" && exists i :: 0 <= i < |refs| && Text.Strip(refs[i]) == r {
      if r in stripped { var i :| 0 <= i < |stripped| && stripped[i] == r; assert Text.Strip(refs[i]) == r; }
      if i :| 0 <= i < |refs| && Text.Strip(refs[i]) == r { assert stripped[i] == r; }
    }
    forall r | r in Refs(refs) ensures Text.Strip(r) == r {
      var i :| 0 <= i < |refs| && Text.Strip(refs[i]) == r;
      Text.StripIsStripped(refs[i]);
    }
  }

  /** `_refs` is idempotent. */
  lemma RefsFixed(refs: seq<string>)
    ensures Refs(Refs(refs)) == Refs(refs)
  {
    RefsElements(refs);
    StrippedRefsStay(Refs(refs));
    SortedUniqueFixedPoint(Text.Leq, Refs(refs));
  }

  lemma CashFixed(py: Python, v: Value)
    requires CashWeight(py, v).Some?
    ensures CashWeight(py, Num(CashOf(py, v))) == CashWeight(py, v) && CashOf(py, Num(CashOf(py, v))) == CashOf(py, v)
  {
  }

  // ----- A package is rehydrated exactly from its own document

  lemma EvidenceRehydrates(env: Env, d: Evidence)
    requires EvidencePackage(env, d).Some?
    ensures EvidenceFromDict(env, EvidencePackage(env, d).value) == EvidencePackage(env, d)
  {
    NormalRowsFixed(env.py, d.observations);
    RefsFixed(d.refs);
    hide Refs, NormalRows, ValidRows;
  }

  /** The hash is not an input of its own computation. */
  lemma DecisionRehydrates(env: Env, d: Decision)
    requires DecisionPackage(env, d).Some?
    ensures DecisionFromDict(env, DecisionPackage(env, d).value) == DecisionPackage(env, d)
    ensures forall h :: DecisionPackage(env, DecisionPackage(env, d).value.(hash := h)) == DecisionPackage(env, d)
  {
    NormalRowsFixed(env.py, d.rows);
    RefsFixed(d.refs);
    CashFixed(env.py, d.cash);
    hide Refs, NormalRows, ValidRows, CashWeight, CashOf;
  }

  lemma RiskRehydrates(env: Env, d: Risk)
    requires RiskPackage(env, d).Some?
    ensures RiskFromDict(env, RiskPackage(env, d).value) == RiskPackage(env, d)
    ensures forall h :: RiskPackage(env, RiskPackage(env, d).value.(hash := h)) == RiskPackage(env, d)
  {
    NormalRowsFixed(env.py, d.rows);
    RefsFixed(d.refs);
    CashFixed(env.py, d.cash);
    hide Refs, NormalRows, ValidRows, CashWeight, CashOf;
  }

  lemma ExecutionRehydrates(env: Env, d: Execution)
    requires ExecutionPackage(env, d).Some?
    ensures ExecutionFromDict(env, ExecutionPackage(env, d).value) == ExecutionPackage(env, d)
  {
    NormalRowsFixed(env.py, d.rows);
    RefsFixed(d.refs);
    CashFixed(env.py, d.cash);
    hide Refs, NormalRows, ValidRows, CashWeight, CashOf;
  }

  // ----- Completeness: a wrapped chain validates

  lemma BuiltDecisionRebuilds(env: Env, id: string, date: string, e: Evidence, rows: seq<Row>, refs: seq<string>,
                              cash: Value)
    requires BuildDecision(env, id, date, e, rows, refs, cash).Some?
    ensures var d := BuildDecision(env, id, date, e, rows, refs, cash).value;
            && DecisionFromDict(env, d) == Some(d)
            && BuildDecision(env, d.packageId, date, e, d.rows, d.refs, d.cash) == Some(d)
            && d.packageId == id && d.tradeDate == date == e.tradeDate && d.refs == Refs(refs)
            && d.evidenceId == e.packageId && d.evidenceHash == e.hash
  {
    var doc := Decision(DECISION_SCHEMA, id, date, e.packageId, e.hash, "DECISION", cash, rows, refs, "");
    DecisionRehydrates(env, doc);
    var d := DecisionPackage(env, doc).value;
    assert d.(hash := "") == Decision(DECISION_SCHEMA, d.packageId, date, e.packageId, e.hash, "DECISION", d.cash,
                                      d.rows, d.refs, "");
    hide Refs, NormalRows, ValidRows, CashWeight, CashOf;
  }

  lemma BuiltRiskRebuilds(env: Env, id: string, d: Decision, rows: seq<Row>, constraints: string, refs: seq<string>,
                          cash: Option<Value>)
    requires BuildRisk(env, id, d, rows, constraints, refs, cash).Some?
    ensures var r := BuildRisk(env, id, d, rows, constraints, refs, cash).value;
            && RiskFromDict(env, r) == Some(r)
            && BuildRisk(env, r.packageId, d, r.rows, r.constraints, r.refs, Some(r.cash)) == Some(r)
            && r.tradeDate == d.tradeDate && r.decisionId == d.packageId && r.decisionHash == d.hash
  {
    var weight := RiskCash(env.py, d, cash).value;
    var doc := Risk(RISK_SCHEMA, id, d.tradeDate, d.packageId, d.hash, Num(weight), NormalRows(env.py, rows),
                    constraints, refs, "");
    NormalRowsFixed(env.py, rows);
    RiskRehydrates(env, doc);
    var r := RiskPackage(env, doc).value;
    assert r.rows == NormalRows(env.py, rows) && r.cash == Num(weight);
    assert r.(hash := "") == Risk(RISK_SCHEMA, r.packageId, d.tradeDate, d.packageId, d.hash, r.cash, r.rows,
                                  constraints, r.refs, "");
    hide Refs, NormalRows, ValidRows, RowsConstrain;
  }

  lemma BuiltExecutionRebuilds(env: Env, r: Risk)
    requires ExecutionFromRisk(env, r).Some?
    ensures var x := ExecutionFromRisk(env, r).value;
            ExecutionFromDict(env, x) == Some(x) && x.tradeDate == r.tradeDate && x.riskId == r.packageId
                && x.riskHash == r.hash
  {
    ExecutionRehydrates(env, Execution(EXECUTION_SCHEMA, "execution:" + r.packageId, r.tradeDate, r.packageId, r.hash,
                                       r.cash, r.rows, r.constraints, r.refs + ["risk:" + r.packageId], ""));
    hide Refs, NormalRows, ValidRows, CashWeight, CashOf;
  }

  /** The four builders, one after the other. */
  function BuildChain(env: Env, doc: Evidence, decisionId: string, rows: seq<Row>, refs: seq<string>, cash: Value,
                      riskId: string, approved: seq<Row>, constraints: string, riskRefs: seq<string>,
                      approvedCash: Option<Value>): Option<Chain>
  {
    match EvidencePackage(env, doc)
    case None => None
    case Some(e) =>
      match BuildDecision(env, decisionId, e.tradeDate, e, rows, refs, cash)
      case None => None
      case Some(d) =>
        match BuildRisk(env, riskId, d, approved, constraints, riskRefs, approvedCash)
        case None => None
        case Some(r) =>
          match ExecutionFromRisk(env, r)
          case None => None
          case Some(x) => Some(Chain(e, d, r, x))
  }

  predicate Names(refs: seq<string>, token: string) {
    exists i :: 0 <= i < |refs| && Text.Strip(refs[i]) == token
  }

  /** Whatever the builders make validates, whichever rows Risk approved of those it may approve. */
  lemma BuiltChainValidates(env: Env, doc: Evidence, decisionId: string, rows: seq<Row>, refs: seq<string>, cash: Value,
                            riskId: string, approved: seq<Row>, constraints: string, riskRefs: seq<string>,
                            approvedCash: Option<Value>, sourceHash: string)
    requires Names(doc.refs, "sha256:" + sourceHash) && Names(refs, "sha256:" + sourceHash)
    requires BuildChain(env, doc, decisionId, rows, refs, cash, riskId, approved, constraints, riskRefs,
                        approvedCash).Some?
    ensures var c := BuildChain(env, doc, decisionId, rows, refs, cash, riskId, approved, constraints, riskRefs,
                                approvedCash).value;
            ValidateChain(env, c, c.execution, c.evidence.tradeDate, sourceHash) == Some(c)
  {
    hide Refs, NormalRows, ValidRows, RowsConstrain, EvidencePackage, BuildDecision, BuildRisk, ExecutionFromRisk,
         Text.Strip, EvidenceFromDict, DecisionFromDict, RiskFromDict, ExecutionFromDict;
    var c := BuildChain(env, doc, decisionId, rows, refs, cash, riskId, approved, constraints, riskRefs,
                        approvedCash).value;
    EvidenceRehydrates(env, doc);
    EvidenceFields(env, doc);
    BuiltDecisionRebuilds(env, decisionId, c.evidence.tradeDate, c.evidence, rows, refs, cash);
    BuiltRiskRebuilds(env, riskId, c.decision, approved, constraints, riskRefs, approvedCash);
    BuiltExecutionRebuilds(env, c.risk);
    RefsElements(doc.refs);
    RefsElements(refs);
    SourceIsNotEmpty(sourceHash);
  }

  /** Every chain `wrap_precompute_payload` makes, from references that name the required source,
      survives serialisation of all four packages and is accepted by the chain validator. */
  lemma WrappedChainValidates(env: Env, p: Precompute, evidenceRefs: seq<string>, decisionId: string, riskId: string,
                              constraints: string, sourceHash: string)
    requires WrapPrecompute(env, p, evidenceRefs, decisionId, riskId, constraints).Some?
    requires Names(evidenceRefs, "sha256:" + sourceHash)
    ensures var c := WrapPrecompute(env, p, evidenceRefs, decisionId, riskId, constraints).value;
            ValidateChain(env, c, c.execution, c.evidence.tradeDate, sourceHash) == Some(c)
  {
    hide EvidencePackage, BuildDecision, BuildRisk, ExecutionFromRisk, RawTargets, Observations, Text.Strip,
         ValidateChain, Names;
    ObservationsAreRows(p);
    var c := WrapPrecompute(env, p, evidenceRefs, decisionId, riskId, constraints).value;
    var doc := Evidence(EVIDENCE_SCHEMA, "evidence:" + decisionId, Text.Strip(ToText(env.py, Or(p.tradeDate, Str("")))),
                        evidenceRefs, Observations(p).rows, "");
    EvidenceFields(env, doc);
    var cash := Num(ToFloat(env.py, Or(p.cashTargetWeight, Num(0.0))).value);
    BuiltChainValidates(env, doc, decisionId, RawTargets(p).rows, evidenceRefs, cash, riskId, c.decision.rows,
                        constraints, ["decision:" + c.decision.packageId], Some(cash), sourceHash);
  }

  lemma ObservationsAreRows(p: Precompute)
    requires RawTargets(p).List?
    ensures Observations(p).List?
  {
    hide RawTargets;
  }

  lemma EvidenceFields(env: Env, d: Evidence)
    requires EvidencePackage(env, d).Some?
    ensures EvidencePackage(env, d).value.refs == Refs(d.refs) && EvidencePackage(env, d).value.tradeDate == d.tradeDate
  {
  }

  lemma SourceIsNotEmpty(hash: string)
    ensures "sha256:" + hash != ""
  {
    assert |"sha256:" + hash| >= 7;
  }

  // ----- Soundness: what a validated chain guarantees

  /** The two hashes the validator recomputes and compares do not collide. */
  ghost predicate NoCollisions(env: Env, c: Chain) {
    var risk := BuildRisk(env, c.risk.packageId, c.decision, c.risk.rows, c.risk.constraints, c.risk.refs,
                          Some(c.risk.cash));
    var execution := ExecutionFromRisk(env, c.risk);
    && (risk.Some? ==> NoRiskCollision(env, risk.value, c.risk))
    && (execution.Some? ==> NoExecutionCollision(env, execution.value, c.execution))
  }

  ghost predicate NoRiskCollision(env: Env, a: Risk, b: Risk) {
    env.riskHash(a.(hash := "")) == env.riskHash(b.(hash := "")) ==> a.(hash := "") == b.(hash := "")
  }

  ghost predicate NoExecutionCollision(env: Env, a: Execution, b: Execution) {
    env.executionHash(a.(hash := "")) == env.executionHash(b.(hash := "")) ==> a.(hash := "") == b.(hash := "")
  }

  lemma RehydratedRisk(env: Env, doc: Risk)
    requires RiskFromDict(env, doc).Some?
    ensures var r := RiskFromDict(env, doc).value;
            && r.hash == env.riskHash(r.(hash := "")) && ValidRows(env.py, r.rows)
                 && NormalRows(env.py, r.rows) == r.rows
            && r.cash == Num(CashOf(env.py, r.cash)) && CashWeight(env.py, r.cash) == Some(CashOf(env.py, r.cash))
  {
    NormalRowsFixed(env.py, doc.rows);
    CashFixed(env.py, doc.cash);
    hide Refs, NormalRows, ValidRows, CashWeight, CashOf;
  }

  lemma BuiltRisk(env: Env, id: string, d: Decision, rows: seq<Row>, constraints: string, refs: seq<string>,
                  cash: Value)
    requires BuildRisk(env, id, d, rows, constraints, refs, Some(cash)).Some?
    ensures var r := BuildRisk(env, id, d, rows, constraints, refs, Some(cash)).value;
            && r.hash == env.riskHash(r.(hash := "")) && r.schema == RISK_SCHEMA
            && RowsConstrain(env.py, NormalRows(env.py, rows), d.rows)
            && CashOf(env.py, cash) + NUDGE >= CashOf(env.py, d.cash)
  {
    hide Refs, NormalRows, ValidRows, RowsConstrain;
  }

  /** A Risk package whose hash its rebuild reproduces is the rebuild. */
  lemma RiskRebuilt(env: Env, doc: Risk, r: Risk, d: Decision)
    requires RiskFromDict(env, doc) == Some(r)
    requires var b := BuildRisk(env, r.packageId, d, r.rows, r.constraints, r.refs, Some(r.cash));
             b.Some? && b.value.hash == r.hash && NoRiskCollision(env, b.value, r)
    ensures r.schema == RISK_SCHEMA && RowsConstrain(env.py, r.rows, d.rows)
    ensures CashOf(env.py, r.cash) + NUDGE >= CashOf(env.py, d.cash)
  {
    RehydratedRisk(env, doc);
    BuiltRisk(env, r.packageId, d, r.rows, r.constraints, r.refs, r.cash);
    hide RiskFromDict, BuildRisk, RowsConstrain, NormalRows, ValidRows, CashOf, CashWeight;
  }

  lemma RehydratedExecution(env: Env, doc: Execution)
    requires ExecutionFromDict(env, doc).Some?
    ensures var x := ExecutionFromDict(env, doc).value; x.hash == env.executionHash(x.(hash := ""))
  {
    hide Refs, NormalRows, ValidRows, CashWeight, CashOf;
  }

  lemma HandedOver(env: Env, r: Risk)
    requires NormalRows(env.py, r.rows) == r.rows && r.cash == Num(CashOf(env.py, r.cash))
    requires ExecutionFromRisk(env, r).Some?
    ensures var x := ExecutionFromRisk(env, r).value;
            && x.hash == env.executionHash(x.(hash := "")) && x.schema == EXECUTION_SCHEMA && x.rows == r.rows
            && x.constraints == r.constraints && x.cash == r.cash
  {
    hide Refs, NormalRows, ValidRows, CashWeight, CashOf;
  }

  /** A validated Execution is exactly the one Risk hands over, row for row, and Risk constrains
      Decision; the legacy schemas of both packages never validate. */
  lemma ValidatedChainIsDerived(env: Env, persisted: Chain, embedded: Execution, tradeDate: string, sourceHash: string)
    requires ValidateChain(env, persisted, embedded, tradeDate, sourceHash).Some?
    requires NoCollisions(env, ValidateChain(env, persisted, embedded, tradeDate, sourceHash).value)
    ensures var c := ValidateChain(env, persisted, embedded, tradeDate, sourceHash).value;
            && ExecutionFromRisk(env, c.risk) == Some(c.execution)
            && c.execution.schema == EXECUTION_SCHEMA && c.risk.schema == RISK_SCHEMA
            && c.execution.rows == c.risk.rows && c.execution.constraints == c.risk.constraints
            && c.execution.cash == c.risk.cash
            && RowsConstrain(env.py, c.execution.rows, c.decision.rows)
            && CashOf(env.py, c.execution.cash) + NUDGE >= CashOf(env.py, c.decision.cash)
  {
    hide Refs, NormalRows, ValidRows, RowsConstrain, EvidenceFromDict, DecisionFromDict, RiskFromDict,
         ExecutionFromDict, BuildRisk, BuildDecision, ExecutionFromRisk, NoRiskCollision, NoExecutionCollision, CashOf;
    var c := ValidateChain(env, persisted, embedded, tradeDate, sourceHash).value;
    RehydratedRisk(env, persisted.risk);
    RiskRebuilt(env, persisted.risk, c.risk, c.decision);
    HandedOver(env, c.risk);
    RehydratedExecution(env, persisted.execution);
    SameExecution(env, ExecutionFromRisk(env, c.risk).value, c.execution);
  }

  lemma SameExecution(env: Env, a: Execution, b: Execution)
    requires NoExecutionCollision(env, a, b) && a.hash == b.hash
    requires a.hash == env.executionHash(a.(hash := "")) && b.hash == env.executionHash(b.(hash := ""))
    ensures a == b
  {
    assert a.(hash := "").(hash := a.hash) == a && b.(hash := "").(hash := b.hash) == b;
  }

  /** Transitive constraint, row by row: each Execution row has a Decision row of its symbol that it
      neither reverses nor exceeds in any numeric field both carry. */
  lemma ExecutionRowConstrained(env: Env, persisted: Chain, embedded: Execution, tradeDate: string, sourceHash: string,
                                i: nat)
    requires ValidateChain(env, persisted, embedded, tradeDate, sourceHash).Some?
    requires NoCollisions(env, ValidateChain(env, persisted, embedded, tradeDate, sourceHash).value)
    requires i < |ValidateChain(env, persisted, embedded, tradeDate, sourceHash).value.execution.rows|
    ensures var c := ValidateChain(env, persisted, embedded, tradeDate, sourceHash).value;
            var approved := c.execution.rows[i];
            exists decided :: decided in c.decision.rows && RowSymbol(decided) == RowSymbol(approved)
              && SidesAgree(env.py, approved, decided)
              && forall f: Numeric :: NotIncreased(env.py, approved, decided, f)
  {
    ValidatedChainIsDerived(env, persisted, embedded, tradeDate, sourceHash);
    hide ValidateChain, NoCollisions, SidesAgree, NotIncreased;
    var c := ValidateChain(env, persisted, embedded, tradeDate, sourceHash).value;
    IndexKeys(RowSymbol, c.decision.rows);
    var approved := c.execution.rows[i];
    var decided := BySymbol(c.decision.rows)[RowSymbol(approved)];
    assert decided in c.decision.rows && RowSymbol(decided) == RowSymbol(approved);
    forall f: Numeric ensures NotIncreased(env.py, approved, decided, f) {
      EveryNumeric(f);
    }
  }

  lemma EveryNumeric(f: Numeric)
    ensures f in NUMERICS
  {
    match f
    case Shares => assert NUMERICS[0] == f;
    case Quantity => assert NUMERICS[1] == f;
    case Notional => assert NUMERICS[2] == f;
    case TargetWeight => assert NUMERICS[3] == f;
    case Weight => assert NUMERICS[4] == f;
  }
}
