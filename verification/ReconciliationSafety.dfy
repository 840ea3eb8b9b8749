/** Main results on reconciliation: what a comparison means, verdicts and reasons agree, the gate lets
    through only agreeing positions, recovery and self-heal converge, and every canonical snapshot of
    a run has an honest source. */
module ReconciliationSafety {
  import opened Wrappers
  import opened Sequences
  import opened Grid
  import opened Positions
  import opened Reconciliation
  import Text

  // ----- What a comparison means

  /** Same symbols, and quantities that differ by at most the tolerance. */
  ghost predicate Agree(broker: Holdings, model: Holdings, tolerance: real) {
    broker.Keys == model.Keys && forall s :: s in broker && s in model ==> Abs(broker[s] - model[s]) <= tolerance
  }

  lemma MissingMeans(broker: Holdings, model: Holdings, tolerance: real)
    ensures var d := Compare(broker, model, tolerance);
            && (forall s :: s in d.missingInModel <==> s in broker && s !in model)
            && (forall s :: s in d.missingInBroker <==> s in model && s !in broker)
            && Sorted(Text.Leq, d.missingInModel) && Sorted(Text.Leq, d.missingInBroker) && d.errors == []
  {
    hide Text.Leq, Mismatched, MismatchFor, MaxGap, Filter;
    var symbols := AllSymbols(broker, model);
    FilterElements(s => s !in model, symbols);
    FilterElements(s => s in model && s !in broker, symbols);
    FilterSorted(Text.Leq, s => s !in model, symbols);
    FilterSorted(Text.Leq, s => s in model && s !in broker, symbols);
  }

  ghost predicate IsMismatch(broker: Holdings, model: Holdings, tolerance: real, x: Mismatch) {
    && x.symbol in broker && x.symbol in model
    && x == Mismatch(x.symbol, broker[x.symbol], model[x.symbol], Abs(broker[x.symbol] - model[x.symbol]))
    && x.gap > tolerance
  }

  lemma MismatchesMean(broker: Holdings, model: Holdings, tolerance: real)
    ensures forall x :: x in Compare(broker, model, tolerance).mismatches <==> IsMismatch(broker, model, tolerance, x)
  {
    hide Abs, Text.Leq, MaxGap, Filter, Mismatched, MismatchFor, IsMismatch;
    var symbols := AllSymbols(broker, model);
    FilterElements(s => Mismatched(broker, model, tolerance, s), symbols);
    var apart := Filter(s => Mismatched(broker, model, tolerance, s), symbols);
    MappedElements(broker, model, apart);
    forall x ensures x in Compare(broker, model, tolerance).mismatches <==> IsMismatch(broker, model, tolerance, x) {
      MismatchIff(broker, model, tolerance, x);
      assert Mismatched(broker, model, tolerance, x.symbol) ==> x.symbol in symbols;
    }
  }

  lemma MismatchIff(broker: Holdings, model: Holdings, tolerance: real, x: Mismatch)
    ensures Mismatched(broker, model, tolerance, x.symbol) && x == MismatchFor(broker, model, x.symbol)
       <==> IsMismatch(broker, model, tolerance, x)
    ensures Mismatched(broker, model, tolerance, x.symbol) ==> x.symbol in broker
  {
    hide Abs;
  }

  lemma MappedElements(broker: Holdings, model: Holdings, symbols: seq<string>)
    ensures forall x :: x in Map(s => MismatchFor(broker, model, s), symbols)
                    <==> x.symbol in symbols && x == MismatchFor(broker, model, x.symbol)
  {
    hide Gap;
    var mapped := Map(s => MismatchFor(broker, model, s), symbols);
    forall x ensures x in mapped <==> x.symbol in symbols && x == MismatchFor(broker, model, x.symbol) {
      if x.symbol in symbols && x == MismatchFor(broker, model, x.symbol) {
        var i :| 0 <= i < |symbols| && symbols[i] == x.symbol;
        assert mapped[i] == x;
      }
    }
  }

  /** A comparison is clean exactly when the two sides agree. */
  lemma CleanIffAgree(broker: Holdings, model: Holdings, tolerance: real)
    ensures Clean(Compare(broker, model, tolerance)) <==> Agree(broker, model, tolerance)
  {
    MissingMeans(broker, model, tolerance);
    MismatchesMean(broker, model, tolerance);
    hide Compare, Abs, Text.Leq;
    var d := Compare(broker, model, tolerance);
    if Clean(d) {
      forall s ensures s in broker <==> s in model {
        assert s !in d.missingInModel && s !in d.missingInBroker;
      }
      forall s | s in broker && s in model ensures Abs(broker[s] - model[s]) <= tolerance {
        assert Mismatch(s, broker[s], model[s], Abs(broker[s] - model[s])) !in d.mismatches;
      }
    } else {
      if d.missingInModel != [] { assert d.missingInModel[0] in d.missingInModel; }
      if d.missingInBroker != [] { assert d.missingInBroker[0] in d.missingInBroker; }
      if d.mismatches != [] { assert IsMismatch(broker, model, tolerance, d.mismatches[0]); }
    }
  }

  lemma {:induction false} MaxGapIsGreatest(broker: Holdings, model: Holdings, symbols: seq<string>)
    ensures MaxGap(broker, model, symbols) >= 0.0
    ensures forall s :: s in symbols ==> Gap(broker, model, s) <= MaxGap(broker, model, symbols)
    ensures MaxGap(broker, model, symbols) == 0.0
         || exists s :: s in symbols && Gap(broker, model, s) == MaxGap(broker, model, symbols)
  {
    hide Gap;
    if symbols != [] {
      var front, last := symbols[..|symbols| - 1], symbols[|symbols| - 1];
      MaxGapIsGreatest(broker, model, front);
      assert symbols == front + [last] && last in symbols;
    }
  }

  /** The running maximum is the greatest gap over the common symbols, and with a nonnegative
      tolerance it alone tells whether any quantity mismatches. */
  lemma MaxGapDecides(broker: Holdings, model: Holdings, tolerance: real)
    ensures var d := Compare(broker, model, tolerance);
            && (forall s :: s in broker && s in model ==> Abs(broker[s] - model[s]) <= d.maxGap)
            && (tolerance >= 0.0 ==> (d.mismatches == [] <==> d.maxGap <= tolerance))
  {
    var d := Compare(broker, model, tolerance);
    MismatchesMean(broker, model, tolerance);
    MaxGapCovers(broker, model, tolerance);
    hide Compare, Abs, Text.Leq;
    if tolerance >= 0.0 && d.maxGap > tolerance {
      var s :| s in broker && s in model && Abs(broker[s] - model[s]) == d.maxGap;
      assert IsMismatch(broker, model, tolerance, Mismatch(s, broker[s], model[s], Abs(broker[s] - model[s])));
    }
    if d.mismatches != [] { assert IsMismatch(broker, model, tolerance, d.mismatches[0]); }
  }

  lemma MaxGapCovers(broker: Holdings, model: Holdings, tolerance: real)
    ensures var d := Compare(broker, model, tolerance);
            && (forall s :: s in broker && s in model ==> Abs(broker[s] - model[s]) <= d.maxGap)
            && (d.maxGap > 0.0 ==> exists s :: s in broker && s in model && Abs(broker[s] - model[s]) == d.maxGap)
  {
    hide Abs, Text.Leq, MaxGap, Filter, Mismatched, MismatchFor;
    var symbols := AllSymbols(broker, model);
    MaxGapIsGreatest(broker, model, symbols);
    forall s | s in broker && s in model ensures Abs(broker[s] - model[s]) <= MaxGap(broker, model, symbols) {
      assert s in symbols && Gap(broker, model, s) == Abs(broker[s] - model[s]);
    }
  }

  // ----- Verdict and reason

  const DRIFTS := {EquityCashDrift, EquityOnlyDrift, CashOnlyDrift}

  lemma NoLetterNoKeyword(text: string, keyword: string, c: char)
    requires c in keyword && c !in text
    ensures !Contains(text, keyword)
  {
  }

  lemma NoLetterLower(text: string)
    requires 'k' !in text && 'K' !in text
    ensures 'k' !in Text.Lower(text)
  {
  }

  /** Without a `k` a text names no broker. */
  lemma NamesNoBroker(text: string)
    requires 'k' !in text && 'K' !in text
    ensures !NamesBroker(text)
  {
    NoLetterLower(text);
    assert "broker_read"[3] == 'k' && "broker"[3] == 'k';
    NoLetterNoKeyword(text, "broker_read", 'k');
    NoLetterNoKeyword(Text.Lower(text), "broker", 'k');
  }

  lemma LedgerTexts()
    ensures 'k' !in NO_JSON_POSITIONS && 'K' !in NO_JSON_POSITIONS
    ensures 'k' !in NO_CSV_POSITIONS && 'K' !in NO_CSV_POSITIONS
    ensures NO_LEDGER != "" && NO_JSON_POSITIONS != "" && NO_CSV_POSITIONS != ""
  {
    forall i | 0 <= i < |NO_JSON_POSITIONS| ensures NO_JSON_POSITIONS[i] != 'k' && NO_JSON_POSITIONS[i] != 'K' {}
    forall i | 0 <= i < |NO_CSV_POSITIONS| ensures NO_CSV_POSITIONS[i] != 'k' && NO_CSV_POSITIONS[i] != 'K' {}
  }

  lemma KeywordInside(before: string, text: string, after: string, keyword: string, i: nat)
    requires OccursAt(text, keyword, i)
    ensures Contains(before + text + after, keyword)
  {
    var whole := before + text + after;
    assert whole[|before| + i..|before| + i + |keyword|] == text[i..i + |keyword|];
    assert OccursAt(whole, keyword, |before| + i);
  }

  lemma HintNamesSnapshot()
    ensures OccursAt("Model snapshot", "snapshot", 6)
  {
  }

  lemma LedgerPathMissing()
    ensures OccursAt(NO_LEDGER, "missing", 12)
  {
  }

  /** Whatever the gate finds wrong with its model state is classified as stale: the keyword search
      never comes out as a broker failure. */
  lemma ModelErrorsAreStale(d: Diffs, parseError: string, broker: Holdings, cashBreach: bool, equityBreach: bool)
    requires parseError in {NO_LEDGER, NO_JSON_POSITIONS, NO_CSV_POSITIONS}
    requires d.errors == ModelErrors(parseError, true, broker)
    ensures BlockReason(d, cashBreach, equityBreach, parseError) == StaleState
  {
    LedgerTexts();
    HintNamesSnapshot();
    LedgerPathMissing();
    hide NO_LEDGER, NO_JSON_POSITIONS, NO_CSV_POSITIONS, HINT_REST, Contains, OccursAt, NamesBroker;
    var text := Join(d.errors) + " " + parseError;
    if broker != map[] {
      assert d.errors[1..] == [HINT];
      assert Join(d.errors[1..]) == HINT && Join(d.errors) == parseError + " " + HINT;
      var before, after := parseError + " ", HINT_REST + " " + parseError;
      assert text == before + "Model snapshot" + after;
      KeywordInside(before, "Model snapshot", after, "snapshot", 6);
    } else {
      assert text == parseError + " " + parseError;
      if parseError == NO_LEDGER {
        assert text == "" + parseError + (" " + parseError);
        KeywordInside("", parseError, " " + parseError, "missing", 12);
      } else {
        assert 'k' !in text && 'K' !in text;
        NamesNoBroker(text);
      }
    }
  }

  ghost predicate ReportOf(r: Report, cfg: Config, broker: Account, model: Loaded, fromLedger: bool) {
    && r == ReportFor(cfg, broker, model, fromLedger)
    && (if fromLedger then model.parseError in {"", NO_LEDGER, NO_JSON_POSITIONS, NO_CSV_POSITIONS}
        else model.parseError == "")
  }

  /** Every reconcile pass reports on the broker's account and on one of its two model sources. */
  lemma ReportSources(canonical: Option<SnapshotFile>, legacy: Option<SnapshotFile>, cfg: Config, read: BrokerRead,
                      ledger: Ledger, w: World)
    returns (broker: Account, model: Loaded, fromLedger: bool)
    requires ReconcileStep(canonical, legacy, cfg, read, ledger, w).1.Some?
    ensures ReportOf(ReconcileStep(canonical, legacy, cfg, read, ledger, w).1.value, cfg, broker, model, fromLedger)
    ensures Some(broker) == LoadBroker(cfg.paper, read)
    ensures if fromLedger then Some(model) == LoadLedger(ledger, cfg.allowEmpty)
            else model == LoadStep(canonical, legacy, cfg.allowEmpty, w).1
  {
    hide ReportFor, Normalized, Stored;
    broker := LoadBroker(cfg.paper, read).value;
    var loaded := LoadStep(canonical, legacy, cfg.allowEmpty, w).1;
    fromLedger := loaded.parseError != "";
    model := if fromLedger then LoadLedger(ledger, cfg.allowEmpty).value else loaded;
  }

  /** The breach flags computed beside the verdict are the ones computed inside it.  An equity breach
      exceeds both tolerances, and the relative one is always taken of the model's equity: without it
      there is no difference to judge. */
  lemma BreachFlagsCoincide(cfg: Config, broker: Account, model: Loaded, fromLedger: bool)
    ensures var r := ReportFor(cfg, broker, model, fromLedger);
            && (Clean(r.diffs) ==> (r.verdict == Pass <==> !r.cashBreach && !r.equityBreach))
            && (r.cashBreach <==>
                  && broker.cash.Some? && model.cash.Some?
                  && Abs(broker.cash.value - model.cash.value) > cfg.tolerances.cash)
            && (r.equityBreach <==>
                  && broker.equity.Some? && model.equity.Some?
                  && Abs(broker.equity.value - model.equity.value) > cfg.tolerances.equityAbs
                  && Abs(broker.equity.value - model.equity.value) > Abs(model.equity.value) * cfg.tolerances.equityPct)
  {
    hide Compare, BlockReason;
  }

  /** How the verdict, the reason and the two comparisons of a report hang together. */
  ghost predicate ReasonAgrees(cfg: Config, r: Report) {
    var agree := Agree(r.broker, r.model, cfg.maxQuantityDiff);
    && (r.verdict == Pass <==> r.reason == NoReason)
    && (r.verdict == Pass <==> agree && r.parseError == "" && !r.cashBreach && !r.equityBreach)
    && (r.reason in DRIFTS <==> agree && r.parseError == "" && (r.cashBreach || r.equityBreach))
    && (r.verdict == Warn <==> r.reason in DRIFTS && !cfg.tolerances.hardFail)
    && (r.verdict == Fail && r.reason in DRIFTS ==> cfg.tolerances.hardFail)
    && (r.reason == EquityCashDrift ==> r.equityBreach && r.cashBreach)
    && (r.reason == EquityOnlyDrift ==> r.equityBreach && !r.cashBreach)
    && (r.reason == CashOnlyDrift ==> !r.equityBreach && r.cashBreach)
    && (r.reason == PositionsMismatch <==> r.parseError == "" && r.broker.Keys != r.model.Keys)
    && (r.reason == QuantityMismatch <==> r.parseError == "" && r.broker.Keys == r.model.Keys && !agree)
    && (r.reason == StaleState <==> r.parseError != "")
    && r.reason != BrokerReadFailure
  }

  /** Verdict and reason agree on every report of a reconcile pass. */
  lemma VerdictAndReasonAgree(canonical: Option<SnapshotFile>, legacy: Option<SnapshotFile>, cfg: Config,
                              read: BrokerRead, ledger: Ledger, w: World)
    requires ReconcileStep(canonical, legacy, cfg, read, ledger, w).1.Some?
    ensures ReasonAgrees(cfg, ReconcileStep(canonical, legacy, cfg, read, ledger, w).1.value)
  {
    hide ReconcileStep, ReasonAgrees;
    var broker, model, fromLedger := ReportSources(canonical, legacy, cfg, read, ledger, w);
    ReasonOfReport(cfg, broker, model, fromLedger);
  }

  /** The reason table on a model without a parse error. */
  lemma ReasonTable(d: Diffs, cashBreach: bool, equityBreach: bool)
    requires d.errors == []
    ensures var r := BlockReason(d, cashBreach, equityBreach, "");
            && (r == PositionsMismatch <==> !(d.missingInModel == [] && d.missingInBroker == []))
            && (r == QuantityMismatch <==> d.missingInModel == [] && d.missingInBroker == [] && d.mismatches != [])
            && (Clean(d) ==> r == if equityBreach && cashBreach then EquityCashDrift
                else if equityBreach then EquityOnlyDrift
                                  else if cashBreach then CashOnlyDrift else NoReason)
            && r != StaleState && r != BrokerReadFailure
  {
  }

  lemma ReportFields(cfg: Config, broker: Account, model: Loaded, fromLedger: bool)
    ensures var r := ReportFor(cfg, broker, model, fromLedger);
            var d := Compare(broker.positions, model.positions, cfg.maxQuantityDiff);
            && r.broker == broker.positions && r.model == model.positions && r.parseError == model.parseError
            && r.diffs == d.(errors := ModelErrors(model.parseError, fromLedger, broker.positions))
            && r.verdict == (if !Clean(r.diffs) then Fail else if !r.cashBreach && !r.equityBreach then Pass
                             else if cfg.tolerances.hardFail then Fail else Warn)
            && r.reason == if r.verdict == Pass then NoReason
                 else BlockReason(r.diffs, r.cashBreach, r.equityBreach, r.parseError)
  {
    hide Compare, BlockReason, ModelErrors, Breaches, EquityTolerance;
  }

  lemma ReasonOfReport(cfg: Config, broker: Account, model: Loaded, fromLedger: bool)
    requires ReportOf(ReportFor(cfg, broker, model, fromLedger), cfg, broker, model, fromLedger)
    ensures ReasonAgrees(cfg, ReportFor(cfg, broker, model, fromLedger))
  {
    hide ReportFor, Compare, Agree, BlockReason, NamesStaleState, NamesBroker, NO_LEDGER, NO_JSON_POSITIONS,
         NO_CSV_POSITIONS, HINT;
    var r := ReportFor(cfg, broker, model, fromLedger);
    var d := Compare(broker.positions, model.positions, cfg.maxQuantityDiff);
    ReportFields(cfg, broker, model, fromLedger);
    CleanIffAgree(broker.positions, model.positions, cfg.maxQuantityDiff);
    SameKeys(broker.positions, model.positions, cfg.maxQuantityDiff);
    NoErrorsYet(broker.positions, model.positions, cfg.maxQuantityDiff);
    if model.parseError != "" {
      ModelErrorsAreStale(r.diffs, model.parseError, broker.positions, r.cashBreach, r.equityBreach);
    } else {
      assert r.diffs == d;
      ReasonTable(d, r.cashBreach, r.equityBreach);
    }
  }

  lemma SameKeys(broker: Holdings, model: Holdings, tolerance: real)
    ensures var d := Compare(broker, model, tolerance);
            d.missingInModel == [] && d.missingInBroker == [] <==> broker.Keys == model.Keys
  {
    MissingMeans(broker, model, tolerance);
    hide Compare, Text.Leq;
    var d := Compare(broker, model, tolerance);
    if d.missingInModel == [] && d.missingInBroker == [] {
      forall s ensures s in broker <==> s in model {
        assert s !in d.missingInModel && s !in d.missingInBroker;
      }
    } else if d.missingInModel != [] {
      assert d.missingInModel[0] in d.missingInModel;
    } else {
      assert d.missingInBroker[0] in d.missingInBroker;
    }
  }
}
