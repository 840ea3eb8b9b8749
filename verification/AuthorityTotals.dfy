/** Main results on what a validated chain approves in total, and exactly when Decision's total bounds it. */
module AuthorityTotals {
  import opened Wrappers
  import opened Sequences
  import opened Grid
  import opened Json
  import opened AuthorityPackages
  import opened AuthorityChain

  // ----- The total of a numeric field

  /** The magnitude a row carries in a numeric field; nothing when the field is absent. */
  function Magnitude(py: Python, row: Row, f: Numeric): (m: real)
    ensures m >= 0.0
  {
    if FieldOf(row, f).None? then 0.0 else Abs(ToFloat(py, FieldOf(row, f).value).GetOr(0.0))
  }

  function TotalOf(py: Python, rows: seq<Row>, f: Numeric): real {
    if rows == [] then 0.0 else Magnitude(py, rows[0], f) + TotalOf(py, rows[1..], f)
  }

  /** What approved rows of these symbols are held against, a repeated symbol each time anew. */
  function HeldAgainst(py: Python, symbols: seq<string>, decided: seq<Row>, f: Numeric): real {
    if symbols == [] then 0.0
    else (if symbols[0] in BySymbol(decided) then Magnitude(py, BySymbol(decided)[symbols[0]], f) else 0.0)
         + HeldAgainst(py, symbols[1..], decided, f)
  }

  function SymbolsOf(rows: seq<Row>): seq<string> {
    Map(RowSymbol, rows)
  }

  /** Every approved row is held against a Decision row that carries the field too, if it does. */
  ghost predicate FieldShared(approved: seq<Row>, decided: seq<Row>, f: Numeric) {
    forall i :: 0 <= i < |approved| && FieldOf(approved[i], f).Some? ==>
      RowSymbol(approved[i]) in BySymbol(decided) && FieldOf(BySymbol(decided)[RowSymbol(approved[i])], f).Some?
  }

  lemma {:induction false} TotalAppend(py: Python, a: seq<Row>, b: seq<Row>, f: Numeric)
    ensures TotalOf(py, a + b, f) == TotalOf(py, a, f) + TotalOf(py, b, f)
  {
    if a == [] {
      assert a + b == b;
    } else {
      assert (a + b)[1..] == a[1..] + b;
      TotalAppend(py, a[1..], b, f);
    }
  }

  lemma {:induction false} TotalAtLeast(py: Python, rows: seq<Row>, f: Numeric, i: nat)
    ensures TotalOf(py, rows, f) >= 0.0
    ensures i < |rows| ==> TotalOf(py, rows, f) >= Magnitude(py, rows[i], f)
  {
    hide Magnitude;
    if rows != [] { TotalAtLeast(py, rows[1..], f, if i > 0 then i - 1 else 0); }
  }

  lemma TotalOne(py: Python, row: Row, f: Numeric)
    ensures TotalOf(py, [row], f) == Magnitude(py, row, f)
  {
  }

  lemma MagnitudeConstrained(py: Python, approved: Row, decided: Row, f: Numeric)
    requires NotIncreased(py, approved, decided, f)
    requires FieldOf(approved, f).Some? ==> FieldOf(decided, f).Some?
    ensures Magnitude(py, approved, f) <= Magnitude(py, decided, f) + NUDGE
  {
    hide FieldOf;
  }

  /** The approved total is at most what the rows are held against, up to a nudge for each. */
  lemma {:induction false} TotalHeld(py: Python, approved: seq<Row>, decided: seq<Row>, f: Numeric)
    requires RowsConstrain(py, approved, decided) && FieldShared(approved, decided, f)
    ensures TotalOf(py, approved, f) <= HeldAgainst(py, SymbolsOf(approved), decided, f) + |approved| as real * NUDGE
  {
    hide NotIncreased, SidesAgree, BySymbol, FieldOf, Magnitude, RowSymbol;
    if approved != [] {
      var rest := approved[1..];
      assert forall i :: 0 <= i < |rest| ==> rest[i] == approved[i + 1];
      TotalHeld(py, rest, decided, f);
      EveryNumeric(f);
      MagnitudeConstrained(py, approved[0], BySymbol(decided)[RowSymbol(approved[0])], f);
      assert SymbolsOf(approved)[0] == RowSymbol(approved[0]) && SymbolsOf(approved)[1..] == SymbolsOf(rest);
      assert |approved| as real * NUDGE == |rest| as real * NUDGE + NUDGE;
    }
  }

  // ----- Distinct symbols are held against Decision's total at most

  lemma {:induction false} HeldWithout(py: Python, symbols: seq<string>, decided: seq<Row>, f: Numeric, k: nat)
    requires k < |symbols| && symbols[k] in BySymbol(decided)
    ensures HeldAgainst(py, symbols, decided, f)
         == Magnitude(py, BySymbol(decided)[symbols[k]], f)
            + HeldAgainst(py, symbols[..k] + symbols[k + 1..], decided, f)
  {
    hide Magnitude, BySymbol;
    if k == 0 {
      assert symbols[..0] + symbols[1..] == symbols[1..];
    } else {
      HeldWithout(py, symbols[1..], decided, f, k - 1);
      var rest := symbols[..k] + symbols[k + 1..];
      assert rest[0] == symbols[0] && rest[1..] == symbols[1..][..k - 1] + symbols[1..][k..];
    }
  }

  lemma {:induction false} HeldSame(py: Python, symbols: seq<string>, a: seq<Row>, b: seq<Row>, f: Numeric)
    requires forall s :: s in symbols ==> s in BySymbol(a) && s in BySymbol(b) && BySymbol(a)[s] == BySymbol(b)[s]
    ensures HeldAgainst(py, symbols, a, f) == HeldAgainst(py, symbols, b, f)
  {
    hide Magnitude, BySymbol;
    if symbols != [] {
      assert symbols[0] in symbols;
      assert forall s :: s in symbols[1..] ==> s in symbols;
      HeldSame(py, symbols[1..], a, b, f);
    }
  }

  lemma BySymbolSnoc(rows: seq<Row>)
    requires rows != []
    ensures BySymbol(rows) == BySymbol(rows[..|rows| - 1])[RowSymbol(rows[|rows| - 1]) := rows[|rows| - 1]]
  {
  }

  lemma NoSymbols()
    ensures BySymbol([]) == map[]
  {
  }

  lemma {:induction false} DistinctHeld(py: Python, symbols: seq<string>, decided: seq<Row>, f: Numeric)
    requires Distinct(symbols) && forall s :: s in symbols ==> s in BySymbol(decided)
    ensures HeldAgainst(py, symbols, decided, f) <= TotalOf(py, decided, f)
    decreases |decided|
  {
    hide Magnitude, BySymbol, RowSymbol, TotalOf;
    TotalAtLeast(py, decided, f, 0);
    if symbols != [] {
      assert symbols[0] in symbols;
      if decided == [] {
        NoSymbols();
      } else {
        var front, last := decided[..|decided| - 1], decided[|decided| - 1];
        assert decided == front + [last];
        TotalAppend(py, front, [last], f);
        TotalOne(py, last, f);
        BySymbolSnoc(decided);
        if k :| 0 <= k < |symbols| && symbols[k] == RowSymbol(last) {
          var rest := symbols[..k] + symbols[k + 1..];
          assert forall i :: 0 <= i < |rest| ==> rest[i] == symbols[if i < k then i else i + 1];
          HeldWithout(py, symbols, decided, f, k);
          forall s | s in rest
            ensures s in BySymbol(front) && s in BySymbol(decided) && BySymbol(decided)[s] == BySymbol(front)[s]
          {
            assert s in symbols && s != RowSymbol(last);
          }
          HeldSame(py, rest, decided, front, f);
          DistinctHeld(py, rest, front, f);
        } else {
          HeldSame(py, symbols, decided, front, f);
          DistinctHeld(py, symbols, front, f);
          TotalAtLeast(py, [last], f, 0);
        }
      }
    }
  }

  // ----- Setting one field

  function WithField(row: Row, f: Numeric, v: Value): Row {
    match f
    case Shares => row.(shares := Some(v))
    case Quantity => row.(quantity := Some(v))
    case Notional => row.(notional := Some(v))
    case TargetWeight => row.(targetWeight := Some(v))
    case Weight => row.(weight := Some(v))
  }

  lemma WithFieldMeans(py: Python, row: Row, f: Numeric, v: Value)
    ensures forall g: Numeric :: FieldOf(WithField(row, f, v), g) == if g == f then Some(v) else FieldOf(row, g)
    ensures RowSymbol(WithField(row, f, v)) == RowSymbol(row) && WithField(row, f, v).side == row.side
    ensures ValidRow(py, row) ==> ValidRow(py, WithField(row, f, v))
    ensures NormalRow(py, row) == row ==> NormalRow(py, WithField(row, f, v)) == WithField(row, f, v)
  {
    hide UpperText;
  }

  /** A field the Decision row lacks can be set to anything. */
  lemma AbsentFieldFree(py: Python, approved: Row, decided: Row, f: Numeric, w: real)
    requires Constrains(py, approved, decided) && FieldOf(decided, f).None?
    ensures Constrains(py, WithField(approved, f, Num(w)), decided)
    ensures Magnitude(py, WithField(approved, f, Num(w)), f) == Abs(w)
  {
    WithFieldMeans(py, approved, f, Num(w));
    hide FieldOf, WithField;
    assert RowSide(py, WithField(approved, f, Num(w))) == RowSide(py, approved);
  }

  // ----- The escapes

  /** A row whose Decision row lacks a field can carry anything in it: Risk's checks still hold and
      the total is at least as much. */
  lemma AbsentFieldEscapes(py: Python, approved: seq<Row>, decided: seq<Row>, f: Numeric, i: nat, w: real)
    requires RowsConstrain(py, approved, decided) && i < |approved|
    requires FieldOf(BySymbol(decided)[RowSymbol(approved[i])], f).None?
    ensures var raised := approved[i := WithField(approved[i], f, Num(w))];
            RowsConstrain(py, raised, decided) && TotalOf(py, raised, f) >= Abs(w)
  {
    hide Constrains, FieldOf, WithField, BySymbol, Magnitude;
    var raised := approved[i := WithField(approved[i], f, Num(w))];
    WithFieldMeans(py, approved[i], f, Num(w));
    AbsentFieldFree(py, approved[i], BySymbol(decided)[RowSymbol(approved[i])], f, w);
    TotalAtLeast(py, raised, f, i);
  }

  /** Approved rows can be repeated: Risk's checks still hold and the total doubles. */
  lemma DuplicatesEscape(py: Python, approved: seq<Row>, decided: seq<Row>, f: Numeric)
    requires RowsConstrain(py, approved, decided)
    ensures RowsConstrain(py, approved + approved, decided)
    ensures TotalOf(py, approved + approved, f) == 2.0 * TotalOf(py, approved, f)
  {
    hide Constrains, BySymbol, RowSymbol;
    TotalAppend(py, approved, approved, f);
  }

  // ----- The greatest total Risk may approve

  /** The most an approved row held against this Decision row can carry in a field both have. */
  function MostFor(py: Python, decided: Row, f: Numeric): real {
    if FieldOf(decided, f).Some? && ToFloat(py, FieldOf(decided, f).value).Some?
    then Magnitude(py, decided, f) + NUDGE else 0.0
  }

  function Ceiling(py: Python, symbols: seq<string>, decided: seq<Row>, f: Numeric): real {
    if symbols == [] then 0.0
    else (if symbols[0] in BySymbol(decided) then MostFor(py, BySymbol(decided)[symbols[0]], f) else 0.0)
         + Ceiling(py, symbols[1..], decided, f)
  }

  ghost predicate AllDecided(symbols: seq<string>, decided: seq<Row>) {
    forall i :: 0 <= i < |symbols| ==> symbols[i] in BySymbol(decided)
  }

  ghost predicate AllCarry(symbols: seq<string>, decided: seq<Row>, f: Numeric) {
    forall i :: 0 <= i < |symbols| ==>
      symbols[i] in BySymbol(decided) && FieldOf(BySymbol(decided)[symbols[i]], f).Some?
  }

  /** No approval of these symbols that Risk accepts has a greater total. */
  ghost predicate TotalBounded(py: Python, symbols: seq<string>, decided: seq<Row>, f: Numeric, limit: real) {
    forall approved :: SymbolsOf(approved) == symbols && RowsConstrain(py, approved, decided) ==>
      TotalOf(py, approved, f) <= limit
  }

  lemma MostIsMost(py: Python, approved: Row, decided: Row, f: Numeric)
    requires Constrains(py, approved, decided) && FieldOf(decided, f).Some?
    ensures Magnitude(py, approved, f) <= MostFor(py, decided, f)
  {
    EveryNumeric(f);
    assert NotIncreased(py, approved, decided, f);
    hide FieldOf;
  }

  lemma {:induction false} TotalUnderCeiling(py: Python, approved: seq<Row>, decided: seq<Row>, f: Numeric)
    requires RowsConstrain(py, approved, decided) && AllCarry(SymbolsOf(approved), decided, f)
    ensures TotalOf(py, approved, f) <= Ceiling(py, SymbolsOf(approved), decided, f)
  {
    hide Constrains, BySymbol, FieldOf, Magnitude, RowSymbol, MostFor;
    if approved != [] {
      var rest, symbols := approved[1..], SymbolsOf(approved);
      assert forall i :: 0 <= i < |rest| ==> rest[i] == approved[i + 1];
      assert symbols[0] == RowSymbol(approved[0]) && symbols[1..] == SymbolsOf(rest);
      assert forall i :: 0 <= i < |rest| ==> symbols[1..][i] == symbols[i + 1];
      TotalUnderCeiling(py, rest, decided, f);
      MostIsMost(py, approved[0], BySymbol(decided)[symbols[0]], f);
    }
  }

  /** A row with nothing but its symbol and the most it may carry in one field. */
  function MostRow(py: Python, symbol: string, decided: Row, f: Numeric): Row {
    var bare := Row(Some(Str(symbol)), None, None, None, None, None, None, None, map[]);
    if MostFor(py, decided, f) == 0.0 then bare else WithField(bare, f, Num(MostFor(py, decided, f)))
  }

  lemma MostRowMeans(py: Python, symbol: string, decided: Row, f: Numeric)
    ensures var row := MostRow(py, symbol, decided, f);
            RowSymbol(row) == symbol && Constrains(py, row, decided) && Magnitude(py, row, f) == MostFor(py, decided, f)
  {
    var bare := Row(Some(Str(symbol)), None, None, None, None, None, None, None, map[]);
    assert RowSide(py, bare) == "";
    assert forall g: Numeric :: FieldOf(bare, g).None?;
    WithFieldMeans(py, bare, f, Num(MostFor(py, decided, f)));
    hide FieldOf, WithField;
    var row := MostRow(py, symbol, decided, f);
    assert RowSide(py, row) == RowSide(py, bare);
  }

  function MostRows(py: Python, symbols: seq<string>, decided: seq<Row>, f: Numeric): (rows: seq<Row>)
    requires forall i :: 0 <= i < |symbols| ==> symbols[i] in BySymbol(decided)
    ensures |rows| == |symbols|
    ensures forall i :: 0 <= i < |rows| ==> rows[i] == MostRow(py, symbols[i], BySymbol(decided)[symbols[i]], f)
  {
    seq(|symbols|, i requires 0 <= i < |symbols| => MostRow(py, symbols[i], BySymbol(decided)[symbols[i]], f))
  }

  /** The ceiling is attained by rows Risk accepts, a repeated symbol counted each time. */
  lemma CeilingIsAttained(py: Python, symbols: seq<string>, decided: seq<Row>, f: Numeric)
    requires AllDecided(symbols, decided)
    ensures var rows := MostRows(py, symbols, decided, f);
            && SymbolsOf(rows) == symbols && RowsConstrain(py, rows, decided)
            && TotalOf(py, rows, f) == Ceiling(py, symbols, decided, f)
  {
    hide Constrains, BySymbol, RowSymbol, FieldOf, Magnitude, MostRow, MostFor;
    var rows := MostRows(py, symbols, decided, f);
    forall i | 0 <= i < |rows|
      ensures RowSymbol(rows[i]) == symbols[i] && Constrains(py, rows[i], BySymbol(decided)[symbols[i]])
      ensures Magnitude(py, rows[i], f) == MostFor(py, BySymbol(decided)[symbols[i]], f)
    {
      MostRowMeans(py, symbols[i], BySymbol(decided)[symbols[i]], f);
    }
    CeilingTotal(py, symbols, decided, rows, f);
  }

  lemma {:induction false} CeilingTotal(py: Python, symbols: seq<string>, decided: seq<Row>, rows: seq<Row>, f: Numeric)
    requires |rows| == |symbols| && AllDecided(symbols, decided)
    requires forall i :: 0 <= i < |symbols| ==>
               Magnitude(py, rows[i], f) == MostFor(py, BySymbol(decided)[symbols[i]], f)
    ensures TotalOf(py, rows, f) == Ceiling(py, symbols, decided, f)
  {
    hide BySymbol, Magnitude, MostFor;
    if symbols != [] {
      assert forall i :: 0 <= i < |symbols[1..]| ==> symbols[1..][i] == symbols[i + 1] && rows[1..][i] == rows[i + 1];
      CeilingTotal(py, symbols[1..], decided, rows[1..], f);
    }
  }

  /** A limit bounds every approval of some symbols Risk accepts if and only if each of their Decision
      rows carries the field and the limit is at least the ceiling, where repeated symbols count
      each time. */
  lemma TotalBoundedIff(py: Python, symbols: seq<string>, decided: seq<Row>, f: Numeric, limit: real)
    requires AllDecided(symbols, decided)
    ensures TotalBounded(py, symbols, decided, f, limit)
       <==> AllCarry(symbols, decided, f) && Ceiling(py, symbols, decided, f) <= limit
  {
    hide RowsConstrain, BySymbol, RowSymbol, FieldOf, Ceiling, TotalOf;
    CeilingIsAttained(py, symbols, decided, f);
    if !AllCarry(symbols, decided, f) {
      NotAllCarryEscapes(py, symbols, decided, f, limit);
    } else if Ceiling(py, symbols, decided, f) <= limit {
      forall approved | SymbolsOf(approved) == symbols && RowsConstrain(py, approved, decided)
        ensures TotalOf(py, approved, f) <= limit
      {
        TotalUnderCeiling(py, approved, decided, f);
      }
    }
  }

  lemma NotAllCarryEscapes(py: Python, symbols: seq<string>, decided: seq<Row>, f: Numeric, limit: real)
    requires AllDecided(symbols, decided) && !AllCarry(symbols, decided, f)
    ensures !TotalBounded(py, symbols, decided, f, limit)
  {
    hide RowsConstrain, BySymbol, RowSymbol, FieldOf, TotalOf, WithField, MostRow;
    var i :| 0 <= i < |symbols| && FieldOf(BySymbol(decided)[symbols[i]], f).None?;
    var rows := MostRows(py, symbols, decided, f);
    CeilingIsAttained(py, symbols, decided, f);
    assert SymbolsOf(rows)[i] == RowSymbol(rows[i]);
    var w := Abs(limit) + 1.0;
    AbsentFieldEscapes(py, rows, decided, f, i, w);
    var raised := rows[i := WithField(rows[i], f, Num(w))];
    WithFieldMeans(py, rows[i], f, Num(w));
    assert SymbolsOf(raised) == symbols;
  }

  /** Against Decision's own total: the ceiling is at most what the symbols are held against and a
      nudge for each, and for distinct symbols that is at most Decision's total and a nudge for each. */
  lemma {:induction false} CeilingAgainstDecision(py: Python, symbols: seq<string>, decided: seq<Row>, f: Numeric)
    requires AllDecided(symbols, decided)
    ensures Ceiling(py, symbols, decided, f) <= HeldAgainst(py, symbols, decided, f) + |symbols| as real * NUDGE
    ensures Distinct(symbols) ==>
              Ceiling(py, symbols, decided, f) <= TotalOf(py, decided, f) + |symbols| as real * NUDGE
  {
    CeilingHeld(py, symbols, decided, f);
    hide BySymbol, Ceiling, HeldAgainst, TotalOf;
    assert forall s :: s in symbols ==> s in BySymbol(decided);
    if Distinct(symbols) { DistinctHeld(py, symbols, decided, f); }
  }

  lemma {:induction false} CeilingHeld(py: Python, symbols: seq<string>, decided: seq<Row>, f: Numeric)
    requires AllDecided(symbols, decided)
    ensures Ceiling(py, symbols, decided, f) <= HeldAgainst(py, symbols, decided, f) + |symbols| as real * NUDGE
  {
    hide BySymbol, Magnitude;
    if symbols != [] {
      assert forall i :: 0 <= i < |symbols[1..]| ==> symbols[1..][i] == symbols[i + 1];
      CeilingHeld(py, symbols[1..], decided, f);
      assert |symbols| as real * NUDGE == |symbols[1..]| as real * NUDGE + NUDGE;
    }
  }

  // ----- On validated chains

  /** On a validated chain whose Execution fields are shared with Decision, the approved total is at
      most what the Execution symbols are held against, counted with repetition, plus a nudge for each
      row; with pairwise distinct symbols that is at most Decision's total. */
  lemma ExecutionTotalConstrained(env: Env, persisted: Chain, embedded: Execution, tradeDate: string,
                                  sourceHash: string, f: Numeric)
    requires ValidateChain(env, persisted, embedded, tradeDate, sourceHash).Some?
    requires NoCollisions(env, ValidateChain(env, persisted, embedded, tradeDate, sourceHash).value)
    requires var c := ValidateChain(env, persisted, embedded, tradeDate, sourceHash).value;
             FieldShared(c.execution.rows, c.decision.rows, f)
    ensures var c := ValidateChain(env, persisted, embedded, tradeDate, sourceHash).value;
            var held := HeldAgainst(env.py, SymbolsOf(c.execution.rows), c.decision.rows, f);
            && TotalOf(env.py, c.execution.rows, f) <= held + |c.execution.rows| as real * NUDGE
            && (Distinct(SymbolsOf(c.execution.rows)) ==> held <= TotalOf(env.py, c.decision.rows, f))
  {
    ValidatedChainIsDerived(env, persisted, embedded, tradeDate, sourceHash);
    hide ValidateChain, NoCollisions, FieldShared, TotalOf, HeldAgainst, BySymbol, Constrains, RowSymbol;
    var c := ValidateChain(env, persisted, embedded, tradeDate, sourceHash).value;
    var approved, symbols := c.execution.rows, SymbolsOf(c.execution.rows);
    TotalHeld(env.py, approved, c.decision.rows, f);
    forall s | s in symbols ensures s in BySymbol(c.decision.rows) {
      var i :| 0 <= i < |symbols| && symbols[i] == s;
      assert RowSymbol(approved[i]) == s;
    }
    if Distinct(symbols) { DistinctHeld(env.py, symbols, c.decision.rows, f); }
  }

  /** Risk hashes are texts that are never empty. */
  ghost predicate RiskHashesNamed(env: Env) {
    forall r :: env.riskHash(r) != ""
  }

  /** Another approval of normal rows that Decision constrains is built and handed over just as well. */
  lemma OtherRowsBuild(env: Env, riskId: string, d: Decision, approved: seq<Row>, constraints: string,
                       refs: seq<string>, cash: Option<Value>, other: seq<Row>)
    requires BuildRisk(env, riskId, d, approved, constraints, refs, cash).Some?
    requires ExecutionFromRisk(env, BuildRisk(env, riskId, d, approved, constraints, refs, cash).value).Some?
    requires RiskHashesNamed(env) && ValidRows(env.py, other) && NormalRows(env.py, other) == other
    requires RowsConstrain(env.py, other, d.rows)
    ensures BuildRisk(env, riskId, d, other, constraints, refs, cash).Some?
    ensures var r := BuildRisk(env, riskId, d, other, constraints, refs, cash).value;
            r.rows == other && ExecutionFromRisk(env, r).Some? && ExecutionFromRisk(env, r).value.rows == other
  {
    hide Refs, NormalRows, ValidRows, RowsConstrain, CashWeight, CashOf, RiskCash;
  }

  /** Risk's rows are normal, and what Risk checks holds of them. */
  lemma RiskRowsAre(env: Env, riskId: string, d: Decision, approved: seq<Row>, constraints: string, refs: seq<string>,
                    cash: Option<Value>)
    requires BuildRisk(env, riskId, d, approved, constraints, refs, cash).Some?
    ensures var rows := BuildRisk(env, riskId, d, approved, constraints, refs, cash).value.rows;
            ValidRows(env.py, rows) && NormalRows(env.py, rows) == rows && RowsConstrain(env.py, rows, d.rows)
  {
    NormalRowsFixed(env.py, approved);
    hide Refs, NormalRows, ValidRows, RowsConstrain, CashWeight, CashOf, RiskCash;
  }

  lemma NormalAt(py: Python, rows: seq<Row>)
    ensures ValidRows(py, rows) && NormalRows(py, rows) == rows
       <==> forall i :: 0 <= i < |rows| ==> ValidRow(py, rows[i]) && NormalRow(py, rows[i]) == rows[i]
  {
    hide ValidRow, NormalRow;
    if ValidRows(py, rows) && NormalRows(py, rows) == rows {
      forall i | 0 <= i < |rows| ensures NormalRow(py, rows[i]) == rows[i] {
        assert NormalRows(py, rows)[i] == rows[i];
      }
    }
  }

  /** The escapes reach Execution: from any built chain, Risk may repeat its rows, and may set any
      field a Decision row lacks to anything, and the chain so built validates. */
  lemma EscapesValidate(env: Env, doc: Evidence, decisionId: string, rows: seq<Row>, refs: seq<string>, cash: Value,
                        riskId: string, approved: seq<Row>, constraints: string, riskRefs: seq<string>,
                        approvedCash: Option<Value>, sourceHash: string, f: Numeric, i: nat, w: real)
    requires RiskHashesNamed(env) && Names(doc.refs, "sha256:" + sourceHash) && Names(refs, "sha256:" + sourceHash)
    requires BuildChain(env, doc, decisionId, rows, refs, cash, riskId, approved, constraints, riskRefs,
                        approvedCash).Some?
    ensures var c := BuildChain(env, doc, decisionId, rows, refs, cash, riskId, approved, constraints, riskRefs,
                                approvedCash).value;
            var twice := BuildChain(env, doc, decisionId, rows, refs, cash, riskId, c.risk.rows + c.risk.rows,
                                    constraints, riskRefs, approvedCash);
            && twice.Some? && ValidateChain(env, twice.value, twice.value.execution, c.evidence.tradeDate, sourceHash)
                 == twice
            && twice.value.decision == c.decision
            && TotalOf(env.py, twice.value.execution.rows, f) == 2.0 * TotalOf(env.py, c.execution.rows, f)
    ensures var c := BuildChain(env, doc, decisionId, rows, refs, cash, riskId, approved, constraints, riskRefs,
                                approvedCash).value;
            i < |c.risk.rows| && RowSymbol(c.risk.rows[i]) in BySymbol(c.decision.rows)
            && FieldOf(BySymbol(c.decision.rows)[RowSymbol(c.risk.rows[i])], f).None? ==>
              var raised := BuildChain(env, doc, decisionId, rows, refs, cash, riskId,
                                       c.risk.rows[i := WithField(c.risk.rows[i], f, Num(w))], constraints,
                                       riskRefs, approvedCash);
              && raised.Some? && ValidateChain(env, raised.value, raised.value.execution, c.evidence.tradeDate,
                                               sourceHash) == raised
              && raised.value.decision == c.decision
              && TotalOf(env.py, raised.value.execution.rows, f) >= Abs(w)
  {
    hide EvidencePackage, BuildDecision, BuildRisk, ExecutionFromRisk, ValidateChain, Names, RowsConstrain, ValidRow,
         NormalRow, TotalOf, BySymbol, RowSymbol, FieldOf, WithField, RiskHashesNamed, ValidRows, NormalRows;
    var c := BuildChain(env, doc, decisionId, rows, refs, cash, riskId, approved, constraints, riskRefs,
                        approvedCash).value;
    RiskRowsAre(env, riskId, c.decision, approved, constraints, riskRefs, approvedCash);
    HandedOverRows(env, c.risk);
    NormalAt(env.py, c.risk.rows);
    var twice := c.risk.rows + c.risk.rows;
    DuplicatesEscape(env.py, c.risk.rows, c.decision.rows, f);
    NormalAt(env.py, twice);
    OtherRowsBuild(env, riskId, c.decision, approved, constraints, riskRefs, approvedCash, twice);
    BuiltChainValidates(env, doc, decisionId, rows, refs, cash, riskId, twice, constraints, riskRefs, approvedCash,
                        sourceHash);
    if i < |c.risk.rows| && RowSymbol(c.risk.rows[i]) in BySymbol(c.decision.rows)
       && FieldOf(BySymbol(c.decision.rows)[RowSymbol(c.risk.rows[i])], f).None?
    {
      var raised := c.risk.rows[i := WithField(c.risk.rows[i], f, Num(w))];
      WithFieldMeans(env.py, c.risk.rows[i], f, Num(w));
      AbsentFieldEscapes(env.py, c.risk.rows, c.decision.rows, f, i, w);
      NormalAt(env.py, raised);
      OtherRowsBuild(env, riskId, c.decision, approved, constraints, riskRefs, approvedCash, raised);
      BuiltChainValidates(env, doc, decisionId, rows, refs, cash, riskId, raised, constraints, riskRefs, approvedCash,
                          sourceHash);
    }
  }

  lemma HandedOverRows(env: Env, r: Risk)
    requires ExecutionFromRisk(env, r).Some? && NormalRows(env.py, r.rows) == r.rows
    ensures ExecutionFromRisk(env, r).value.rows == r.rows
  {
    hide Refs, NormalRows, ValidRows, CashWeight, CashOf;
  }
}
