/** Main results on the gate and the self-heal: soundness of letting a run through, convergence of
    both recoveries, and the source of every canonical snapshot over whole runs. */
module ReconciliationGate {
  import opened Wrappers
  import opened Sequences
  import opened Grid
  import opened Positions
  import opened Reconciliation
  import opened ReconciliationSafety
  import Text

  // ----- Gate soundness

  /** The positions a broker read gives. */
  function PositionsRead(paper: bool, read: BrokerRead): Option<Holdings> {
    match LoadBroker(paper, read)
    case Some(a) => Some(a.positions)
    case None => None
  }

  /** A report that does not fail compared two agreeing position maps. */
  lemma PassedReportAgrees(canonical: Option<SnapshotFile>, legacy: Option<SnapshotFile>, cfg: Config, read: BrokerRead,
                           ledger: Ledger, w: World)
    requires ReconcileStep(canonical, legacy, cfg, read, ledger, w).1.Some?
    ensures var r := ReconcileStep(canonical, legacy, cfg, read, ledger, w).1.value;
            && Some(r.broker) == PositionsRead(cfg.paper, read)
            && (r.verdict != Fail ==> Agree(r.broker, r.model, cfg.maxQuantityDiff) && r.parseError == "")
            && (r.verdict == Fail ==> !Agree(r.broker, r.model, cfg.maxQuantityDiff) || r.parseError != ""
                                      || (cfg.tolerances.hardFail && (r.cashBreach || r.equityBreach)))
  {
    VerdictAndReasonAgree(canonical, legacy, cfg, read, ledger, w);
    var broker, model, fromLedger := ReportSources(canonical, legacy, cfg, read, ledger, w);
    ReportFields(cfg, broker, model, fromLedger);
    hide ReconcileStep, Agree, ReportFor, Compare, LoadBroker, LoadStep, LoadLedger;
  }

  /** The read whose positions the gate compared last. */
  function LastRead(attempts: Reads, recovered: bool): BrokerRead {
    if recovered then attempts.retry else attempts.first
  }

  /** Gate soundness: a run is let through only if the broker positions of the last read and the
      model positions they were compared with have the same symbols and differ by at most the
      tolerance; a block means they do not, or the model is unusable, or drift is set to fail hard. */
  lemma GateSound(canonical: Option<SnapshotFile>, legacy: Option<SnapshotFile>, cfg: Config, attempts: Reads,
                  ledger: Ledger, w: World)
    ensures var result := GateStep(canonical, legacy, cfg, attempts, ledger, w).1;
            match result
            case Skipped => !cfg.enabled
            case Crashed => true
            case Proceed(r, recovered) =>
              && cfg.enabled
              && Some(r.broker) == PositionsRead(cfg.paper, LastRead(attempts, recovered))
              && Agree(r.broker, r.model, cfg.maxQuantityDiff) && r.parseError == ""
            case Blocked(r) =>
              !Agree(r.broker, r.model, cfg.maxQuantityDiff) || r.parseError != ""
              || (cfg.tolerances.hardFail && (r.cashBreach || r.equityBreach))
  {
    hide ReconcileStep, BootstrapStep, Agree, LoadBroker;
    if cfg.enabled {
      var (c1, first) := ReconcileStep(canonical, legacy, cfg, attempts.first, ledger, w);
      if first.Some? {
        PassedReportAgrees(canonical, legacy, cfg, attempts.first, ledger, w);
        var (c2, ok) := BootstrapStep(c1, cfg.paper, attempts.bootstrap, cfg.forceFlat, w);
        if ok && ReconcileStep(c2, legacy, cfg, attempts.retry, ledger, w).1.Some? {
          PassedReportAgrees(c2, legacy, cfg, attempts.retry, ledger, w);
        }
      }
    }
  }

  /** The gate lets a run through after a bootstrap only when the first pass failed on a stale model. */
  lemma RecoveryOnlyFromStaleState(canonical: Option<SnapshotFile>, legacy: Option<SnapshotFile>, cfg: Config,
                                   attempts: Reads, ledger: Ledger, w: World)
    requires var result := GateStep(canonical, legacy, cfg, attempts, ledger, w).1; result.Proceed? && result.recovered
    ensures cfg.autoBootstrap && cfg.paper
    ensures ReconcileStep(canonical, legacy, cfg, attempts.first, ledger, w).1.Some?
    ensures ReconcileStep(canonical, legacy, cfg, attempts.first, ledger, w).1.value.parseError != ""
  {
    hide ReconcileStep, BootstrapStep;
    VerdictAndReasonAgree(canonical, legacy, cfg, attempts.first, ledger, w);
  }

  // ----- Convergence of the bootstrap

  /** An account reconciles with its own snapshot: the tolerances accept a difference of nothing. */
  predicate SelfConsistent(cfg: Config, a: Account) {
    && (cfg.maxQuantityDiff >= 0.0 || a.positions == map[])
    && (cfg.tolerances.cash >= 0.0 || a.cash.None?)
    && (EquityTolerance(cfg.tolerances, a.equity) >= 0.0 || a.equity.None?)
  }

  lemma AgreesWithItself(h: Holdings, tolerance: real)
    ensures Agree(h, h, tolerance) <==> tolerance >= 0.0 || h == map[]
  {
    if h != map[] {
      var s :| s in h;
      assert Abs(h[s] - h[s]) == 0.0;
    }
  }

  /** Loading what was written for an account gives that account back. */
  lemma WrittenLoads(a: Account, today: string, reason: string, allowEmpty: bool)
    requires Normal(a.positions) && reason != ""
    ensures LoadFile(Written(a, today, reason), allowEmpty) == Loaded(a.positions, a.cash, a.equity, Some(today), "")
  {
    StoredReadsBack(a.positions);
    hide Normalized, Stored;
  }

  lemma BrokerIsNormal(paper: bool, read: BrokerRead)
    ensures LoadBroker(paper, read).Some? ==> Normal(LoadBroker(paper, read).value.positions)
  {
    if read.Read? { NormalizedIsNormal(read.entries); }
    hide Normalized, Text.Upper, Text.Strip;
  }

  /** The report of an account against its own snapshot passes exactly when it is self-consistent. */
  lemma SelfReport(cfg: Config, a: Account, today: string)
    ensures ReportFor(cfg, a, Loaded(a.positions, a.cash, a.equity, Some(today), ""), false).verdict == Pass <==>
              SelfConsistent(cfg, a)
    ensures ReportFor(cfg, a, Loaded(a.positions, a.cash, a.equity, Some(today), ""), false).verdict == Pass
         || ReportFor(cfg, a, Loaded(a.positions, a.cash, a.equity, Some(today), ""), false).reason != StaleState
  {
    var model := Loaded(a.positions, a.cash, a.equity, Some(today), "");
    ReasonOfReport(cfg, a, model, false);
    ReportFields(cfg, a, model, false);
    AgreesWithItself(a.positions, cfg.maxQuantityDiff);
    SelfBreaches(cfg, a, today);
    hide ReportFor, Compare, Agree, EquityTolerance;
  }

  lemma SelfBreaches(cfg: Config, a: Account, today: string)
    ensures var r := ReportFor(cfg, a, Loaded(a.positions, a.cash, a.equity, Some(today), ""), false);
            && (r.cashBreach <==> a.cash.Some? && cfg.tolerances.cash < 0.0)
            && (r.equityBreach <==> a.equity.Some? && EquityTolerance(cfg.tolerances, a.equity) < 0.0)
  {
    hide Compare, BlockReason, VerdictFromDiffs, EquityTolerance;
  }

  /** Bootstrap convergence: after a successful bootstrap, a retry that reads the same account passes
      exactly when the tolerances accept a difference of nothing, and then the run proceeds. */
  lemma BootstrapConverges(canonical: Option<SnapshotFile>, legacy: Option<SnapshotFile>, cfg: Config, attempts: Reads,
                           ledger: Ledger, w: World)
    requires cfg.enabled && attempts.retry == attempts.bootstrap
    requires var (c1, first) := ReconcileStep(canonical, legacy, cfg, attempts.first, ledger, w);
             first.Some? && RecoveryApplies(cfg, first.value)
             && BootstrapStep(c1, cfg.paper, attempts.bootstrap, cfg.forceFlat, w).1
    ensures var result := GateStep(canonical, legacy, cfg, attempts, ledger, w).1;
            var account := LoadBroker(true, attempts.bootstrap);
            && account.Some?
            && (result.Proceed? && result.recovered && result.report.verdict == Pass <==>
                SelfConsistent(cfg, account.value))
  {
    hide ReportFor, SelfConsistent, Stored, Normalized, FlatGuard, LoadFile;
    var (c1, first) := ReconcileStep(canonical, legacy, cfg, attempts.first, ledger, w);
    var a := LoadBroker(true, attempts.bootstrap).value;
    BrokerIsNormal(true, attempts.bootstrap);
    WrittenLoads(a, w.today, BOOTSTRAPPED, cfg.allowEmpty);
    RetryStep(c1, legacy, cfg, attempts.bootstrap, ledger, w);
    SelfReport(cfg, a, w.today);
    hide ReconcileStep, BootstrapStep, LoadBroker;
  }

  lemma RetryStep(canonical: Option<SnapshotFile>, legacy: Option<SnapshotFile>, cfg: Config, read: BrokerRead,
                  ledger: Ledger, w: World)
    requires cfg.paper && read.Read? && w.writable
    ensures var a := LoadBroker(true, read).value;
            ReconcileStep(Some(Written(a, w.today, BOOTSTRAPPED)), legacy, cfg, read, ledger, w).1 ==
            Some(ReportFor(cfg, a, Loaded(a.positions, a.cash, a.equity, Some(w.today), ""), false))
  {
    hide ReportFor, Stored, Normalized, LoadFile, Written;
    var a := LoadBroker(true, read).value;
    BrokerIsNormal(true, read);
    WrittenLoads(a, w.today, BOOTSTRAPPED, cfg.allowEmpty);
  }

  /** Nonnegative tolerances are enough. */
  lemma NonnegativeTolerancesConverge(cfg: Config, a: Account)
    requires cfg.maxQuantityDiff >= 0.0 && cfg.tolerances.cash >= 0.0 && cfg.tolerances.equityAbs >= 0.0
    ensures SelfConsistent(cfg, a)
  {
  }

  // ----- The classifying path

  lemma FailedFetchHasHardBlocks(fetch: BrokerFetch)
    ensures FetchFailed(fetch) ==> HardBlocks(FetchBroker(true, fetch)) != []
  {
    var b := FetchBroker(true, fetch);
    if FetchFailed(fetch) {
      assert b.errors != [];
      assert b.errors[0] in HardBlocks(b);
    }
  }

  /** A failed account or positions read blocks, and leaves the canonical snapshot alone apart from a
      recovery of the legacy one. */
  lemma FailedReadBlocks(canonical: Option<SnapshotFile>, legacy: Option<SnapshotFile>, cfg: Config, runDate: string,
                         fetch: BrokerFetch, w: World)
    requires cfg.paper && FetchFailed(fetch)
    ensures var (after, c) := ClassifyStep(canonical, legacy, cfg, runDate, fetch, w);
            c.decision == Block && after == LoadStep(canonical, legacy, true, w).0
  {
    FailedFetchHasHardBlocks(fetch);
    hide HardBlocks, FetchBroker, LoadStep, Compare, SelfHeals, Warnings, FetchFailed;
  }

  /** Passing or only warning means both snapshots were read, are current and agree. */
  lemma ClassificationSound(canonical: Option<SnapshotFile>, legacy: Option<SnapshotFile>, cfg: Config, runDate: string,
                            fetch: BrokerFetch, w: World)
    requires cfg.paper
    requires ClassifyStep(canonical, legacy, cfg, runDate, fetch, w).1.decision in {DecidePass, DecideWarn}
    ensures !FetchFailed(fetch)
    ensures var b, m := FetchBroker(true, fetch), LoadStep(canonical, legacy, true, w).1;
            Agree(b.account.positions, m.positions, cfg.maxQuantityDiff) && m.parseError == "" && !Stale(m, runDate)
            && StatusName(b.status) in {"", "ACTIVE"}
  {
    var b, m := FetchBroker(true, fetch), LoadStep(canonical, legacy, true, w).1;
    if FetchFailed(fetch) { FailedReadBlocks(canonical, legacy, cfg, runDate, fetch, w); }
    CleanIffAgree(b.account.positions, m.positions, cfg.maxQuantityDiff);
    NoErrorsYet(b.account.positions, m.positions, cfg.maxQuantityDiff);
    hide Compare, FetchBroker, LoadStep, Agree, Warnings, FetchFailed, StatusName, Stale, NamesKnownIssue, Text.Leq;
    NoHealsMeansClean(m, Compare(b.account.positions, m.positions, cfg.maxQuantityDiff), runDate);
    NoBlocksMeansActive(b);
    hide SelfHeals, HardBlocks;
  }

  lemma NoHealsMeansClean(m: Loaded, d: Diffs, runDate: string)
    ensures SelfHeals(m, d, runDate) == [] <==>
              m.parseError == "" && !Stale(m, runDate)
              && d.missingInModel == [] && d.missingInBroker == [] && d.mismatches == []
  {
    hide Stale, NamesKnownIssue;
    var parse := if m.parseError == "" then [] else if NamesKnownIssue(m.parseError) then [m.parseError]
        else ["canonical_snapshot_issue:" + m.parseError];
    var stale := if Stale(m, runDate) then ["canonical_snapshot_stale"] else [];
    var symbols := if d.missingInModel != [] || d.missingInBroker != [] then ["symbol_set_drift"] else [];
    var quantities := if d.mismatches != [] then ["quantity_mismatch"] else [];
    assert |SelfHeals(m, d, runDate)| == |parse| + |stale| + |symbols| + |quantities|;
  }

  lemma NoBlocksMeansActive(b: BrokerState)
    ensures HardBlocks(b) == [] <==>
              !b.accountError && !b.positionsError && b.errors == [] && StatusName(b.status) in {"", "ACTIVE"}
  {
    hide StatusName;
    var account := if b.accountError then ["broker_account_fetch_failure"] else [];
    var positions := if b.positionsError then ["broker_positions_fetch_failure"] else [];
    var status := if StatusName(b.status) !in {"", "ACTIVE"} then ["account_status_not_active:" + StatusName(b.status)]
        else [];
    assert |HardBlocks(b)| == |account| + |positions| + |b.errors| + |status|;
  }

  /** Each drift warning says exactly whether its difference is below one percent of equity. */
  lemma DriftWarningMeans(delta: Option<real>, base: Option<real>, small: string, large: string)
    requires small != large
    ensures var measured := base.Some? && base.value != 0.0 && delta.Some? && delta.value != 0.0;
            var w := DriftWarning(delta, base, small, large);
            && (small in w <==> measured && 100.0 * Abs(delta.value) < Abs(base.value))
            && (large in w <==> measured && 100.0 * Abs(delta.value) >= Abs(base.value))
            && (w == [] <==> !measured)
  {
    if base.Some? && base.value != 0.0 && delta.Some? { OnePercent(Abs(delta.value), Abs(base.value)); }
  }

  lemma OnePercent(x: real, y: real)
    requires y > 0.0
    ensures x / y < 0.01 <==> 100.0 * x < y
  {
    assert x == (x / y) * y;
    if x / y < 0.01 {
      assert (0.01 - x / y) * y > 0.0;
    } else {
      assert (x / y - 0.01) * y >= 0.0;
    }
  }

  /** Broker and model differ in cash or equity, and there is an equity to measure it against. */
  predicate Drifts(a: Account, m: Loaded) {
    var base := if m.equity.Some? then m.equity else a.equity;
    && base.Some? && base.value != 0.0
    && ((a.cash.Some? && m.cash.Some? && a.cash.value != m.cash.value)
        || (a.equity.Some? && m.equity.Some? && a.equity.value != m.equity.value))
  }

  /** The four decisions, each by its exact condition. */
  lemma DecisionMeans(fetch: BrokerFetch, m: Loaded, tolerance: real, runDate: string)
    ensures var b := FetchBroker(true, fetch);
            var decision := Classify(b, m, Compare(b.account.positions, m.positions, tolerance), runDate).decision;
            var blocked := FetchFailed(fetch) || StatusName(b.status) !in {"", "ACTIVE"};
            var healthy := m.parseError == "" && !Stale(m, runDate)
                && Agree(b.account.positions, m.positions, tolerance);
            && (decision == Block <==> blocked)
            && (decision == SelfHeal <==> !blocked && !healthy)
            && (decision == DecideWarn <==> !blocked && healthy && Drifts(b.account, m))
            && (decision == DecidePass <==> !blocked && healthy && !Drifts(b.account, m))
  {
    hide Compare, Agree, SelfHeals, HardBlocks, Stale, StatusName, Warnings, Drifts, FetchBroker, FetchFailed;
    var b := FetchBroker(true, fetch);
    var d := Compare(b.account.positions, m.positions, tolerance);
    FetchErrorsMean(fetch);
    NoBlocksMeansActive(b);
    NoHealsMeansClean(m, d, runDate);
    CleanIffAgree(b.account.positions, m.positions, tolerance);
    NoErrorsYet(b.account.positions, m.positions, tolerance);
    NoWarningsMeansNoDrift(b.account, m);
  }

  lemma FetchErrorsMean(fetch: BrokerFetch)
    ensures var b := FetchBroker(true, fetch);
            FetchFailed(fetch) <==> b.accountError || b.positionsError || b.errors != []
  {
  }

  lemma NoWarningsMeansNoDrift(a: Account, m: Loaded)
    ensures Warnings(Delta(a.cash, m.cash), Delta(a.equity, m.equity), if m.equity.Some? then m.equity else a.equity)
            == []
       <==> !Drifts(a, m)
  {
    var base := if m.equity.Some? then m.equity else a.equity;
    var cash := DriftWarning(Delta(a.cash, m.cash), base, "cash_drift_lt_1pct_equity", "cash_drift_gte_1pct_equity");
    var equity := DriftWarning(Delta(a.equity, m.equity), base, "equity_drift_lt_1pct_equity",
                               "equity_drift_gte_1pct_equity");
    assert |Warnings(Delta(a.cash, m.cash), Delta(a.equity, m.equity), base)| == |cash| + |equity|;
  }

  /** Whatever it replaces, a bootstrap writes no flat snapshot over an account with equity above
      100 dollars unless it is forced to. */
  lemma BootstrapIsGuarded(canonical: Option<SnapshotFile>, paper: bool, read: BrokerRead, force: bool, w: World)
    ensures var after := BootstrapStep(canonical, paper, read, force, w).0;
            after != canonical ==>
              && paper && w.writable && after.Some? && after.value.Snapshot?
              && (Normalized(after.value.entries) == map[] && after.value.equity.Some? ==>
                    after.value.equity.value <= 100.0 || force)
  {
    if paper && read.Read? {
      BrokerIsNormal(paper, read);
      StoredReadsBack(Normalized(read.entries));
      hide Normalized, Stored, Normal;
    }
  }

  lemma FetchedIsNormal(paper: bool, fetch: BrokerFetch)
    ensures Normal(FetchBroker(paper, fetch).account.positions)
  {
    if fetch.Fetched? && fetch.positions.PositionRows? { NormalizedIsNormal(fetch.positions.entries); }
    hide Normalized, Text.Upper, Text.Strip;
  }

  lemma SelfDriftIsNothing(a: Account)
    ensures Warnings(Delta(a.cash, a.cash), Delta(a.equity, a.equity), a.equity) == []
  {
  }

  /** Self-heal convergence: after a self-heal, classifying the same broker answer again passes
      exactly when the quantity tolerance accepts equality (or nothing is held) and the new run is
      not dated after the healed snapshot; otherwise it asks to heal again or blocks on the write. */
  lemma SelfHealConverges(canonical: Option<SnapshotFile>, legacy: Option<SnapshotFile>, cfg: Config, runDate: string,
                          fetch: BrokerFetch, w: World, nextDate: string, next: World)
    requires cfg.paper && ClassifyStep(canonical, legacy, cfg, runDate, fetch, w).1.decision == SelfHeal
    ensures var (healed, _) := ClassifyStep(canonical, legacy, cfg, runDate, fetch, w);
            var (after, c) := ClassifyStep(healed, legacy, cfg, nextDate, fetch, next);
            var held := FetchBroker(true, fetch).account.positions;
            && (c.decision == DecidePass <==>
                  (cfg.maxQuantityDiff >= 0.0 || held == map[]) && Text.Leq(nextDate, w.today))
            && (c.decision == DecidePass ==> after == healed)
            && (c.decision != DecidePass ==> c.decision == if next.writable then SelfHeal else Block)
  {
    var b := FetchBroker(true, fetch);
    HealedSnapshot(canonical, legacy, cfg, runDate, fetch, w);
    FetchedIsNormal(true, fetch);
    WrittenLoads(b.account, w.today, SELF_HEALED, true);
    var m := Loaded(b.account.positions, b.account.cash, b.account.equity, Some(w.today), "");
    ClassifyHealed(legacy, cfg, nextDate, fetch, w.today, next);
    SelfDriftIsNothing(b.account);
    var d := Compare(b.account.positions, b.account.positions, cfg.maxQuantityDiff);
    CleanIffAgree(b.account.positions, b.account.positions, cfg.maxQuantityDiff);
    AgreesWithItself(b.account.positions, cfg.maxQuantityDiff);
    NoErrorsYet(b.account.positions, b.account.positions, cfg.maxQuantityDiff);
    NoHealsMeansClean(m, d, nextDate);
    hide ClassifyStep, FetchBroker, Compare, Agree, SelfHeals, HardBlocks, Warnings, Text.Leq, LoadFile, Written;
  }

  lemma HealedSnapshot(canonical: Option<SnapshotFile>, legacy: Option<SnapshotFile>, cfg: Config, runDate: string,
                       fetch: BrokerFetch, w: World)
    requires cfg.paper && ClassifyStep(canonical, legacy, cfg, runDate, fetch, w).1.decision == SelfHeal
    ensures ClassifyStep(canonical, legacy, cfg, runDate, fetch, w).0
            == Some(Written(FetchBroker(true, fetch).account, w.today, SELF_HEALED))
    ensures HardBlocks(FetchBroker(true, fetch)) == []
  {
    hide FetchBroker, LoadStep, Compare, SelfHeals, HardBlocks, Warnings, Written;
  }

  lemma ClassifyHealed(legacy: Option<SnapshotFile>, cfg: Config, runDate: string, fetch: BrokerFetch, today: string,
                       w: World)
    requires cfg.paper
    requires var a := FetchBroker(true, fetch).account;
             LoadFile(Written(a, today, SELF_HEALED), true) == Loaded(a.positions, a.cash, a.equity, Some(today), "")
    ensures var b := FetchBroker(true, fetch); var healed := Some(Written(b.account, today, SELF_HEALED));
            var m := Loaded(b.account.positions, b.account.cash, b.account.equity, Some(today), "");
            var c := Classify(b, m, Compare(b.account.positions, b.account.positions, cfg.maxQuantityDiff), runDate);
            ClassifyStep(healed, legacy, cfg, runDate, fetch, w) ==
            if c.decision != SelfHeal then (healed, c)
            else if w.writable then (Some(Written(b.account, w.today, SELF_HEALED)), c)
            else (healed, c.(decision := Block, hardBlocks := c.hardBlocks + [WRITE_FAILED]))
  {
    hide FetchBroker, Compare, LoadFile, Written, Classify;
  }

  // ----- Whole runs

  /** One call that may write the canonical snapshot: the gate, a plain reconcile pass (as after
      trading), the classifying path, an operator's bootstrap, and both post-trade refreshes. */
  datatype Call =
    | GateCall(cfg: Config, attempts: Reads, ledger: Ledger, w: World)
    | ReconcileCall(cfg: Config, read: BrokerRead, ledger: Ledger, w: World)
    | ClassifyCall(cfg: Config, runDate: string, fetch: BrokerFetch, w: World)
    | BootstrapCall(cfg: Config, read: BrokerRead, force: bool, w: World)
    | RefreshCall(cfg: Config, read: BrokerRead, w: World)
    | DocumentCall(document: PositionsDocument, w: World)

  function Next(canonical: Option<SnapshotFile>, legacy: Option<SnapshotFile>, call: Call): Option<SnapshotFile> {
    match call
    case GateCall(cfg, attempts, ledger, w) => GateStep(canonical, legacy, cfg, attempts, ledger, w).0
    case ReconcileCall(cfg, read, ledger, w) => ReconcileStep(canonical, legacy, cfg, read, ledger, w).0
    case ClassifyCall(cfg, runDate, fetch, w) => ClassifyStep(canonical, legacy, cfg, runDate, fetch, w).0
    case BootstrapCall(cfg, read, force, w) => BootstrapStep(canonical, cfg.paper, read, force, w).0
    case RefreshCall(cfg, read, w) => RefreshStep(canonical, cfg.paper, read, w).0
    case DocumentCall(document, w) => DocumentStep(canonical, document, w).0
  }

  function After(canonical: Option<SnapshotFile>, legacy: Option<SnapshotFile>,
                 calls: seq<Call>): Option<SnapshotFile> {
    if calls == [] then canonical
    else Next(After(canonical, legacy, calls[..|calls| - 1]), legacy, calls[|calls| - 1])
  }

  ghost predicate IsRecovery(file: Option<SnapshotFile>, legacy: Option<SnapshotFile>) {
    legacy.Some? && legacy.value.Snapshot? && exists today :: file == Some(Recovery(legacy.value, today))
  }

  ghost predicate IsReadOf(file: Option<SnapshotFile>, read: BrokerRead, today: string, reason: string) {
    read.Read? && file == Some(Written(LoadBroker(true, read).value, today, reason))
  }

  /** The file holds the account of a broker read of this call that succeeded, or of the post-trade
      document it was given. */
  ghost predicate FromSource(file: Option<SnapshotFile>, call: Call) {
    match call
    case GateCall(cfg, attempts, _, w) => cfg.paper && IsReadOf(file, attempts.bootstrap, w.today, BOOTSTRAPPED)
    case ReconcileCall(_, _, _, _) => false
    case ClassifyCall(cfg, _, fetch, w) =>
      cfg.paper && !FetchFailed(fetch) && file == Some(Written(FetchBroker(true, fetch).account, w.today, SELF_HEALED))
    case BootstrapCall(cfg, read, _, w) => cfg.paper && IsReadOf(file, read, w.today, BOOTSTRAPPED)
    case RefreshCall(cfg, read, w) => cfg.paper && IsReadOf(file, read, w.today, REFRESHED)
    case DocumentCall(document, w) =>
      document.PositionsDocument? && file == Some(Written(DocumentAccount(document), w.today, REFRESHED_FROM_DOCUMENT))
  }

  /** Outside paper mode the classifying path heals to an empty account. */
  ghost predicate IsErasure(file: Option<SnapshotFile>, call: Call) {
    && call.ClassifyCall? && !call.cfg.paper
    && file == Some(Written(Account(map[], None, None), call.w.today, SELF_HEALED))
  }

  lemma LoadKeepsOrRecovers(canonical: Option<SnapshotFile>, legacy: Option<SnapshotFile>, allowEmpty: bool, w: World)
    ensures var after := LoadStep(canonical, legacy, allowEmpty, w).0; after == canonical || IsRecovery(after, legacy)
  {
    hide LoadFile, Recovery, Normalized;
  }

  lemma ReconcileKeepsOrRecovers(canonical: Option<SnapshotFile>, legacy: Option<SnapshotFile>, cfg: Config,
                                 read: BrokerRead, ledger: Ledger, w: World)
    ensures var after := ReconcileStep(canonical, legacy, cfg, read, ledger, w).0;
            after == canonical || IsRecovery(after, legacy)
  {
    hide LoadStep, ReportFor, IsRecovery, LoadLedger;
    LoadKeepsOrRecovers(canonical, legacy, cfg.allowEmpty, w);
  }

  lemma BootstrapKeepsOrReads(canonical: Option<SnapshotFile>, paper: bool, read: BrokerRead, force: bool, w: World)
    ensures var after := BootstrapStep(canonical, paper, read, force, w).0;
            after == canonical || (paper && IsReadOf(after, read, w.today, BOOTSTRAPPED))
  {
    hide Written;
  }

  lemma ClassifyKeepsOrReads(canonical: Option<SnapshotFile>, legacy: Option<SnapshotFile>, call: Call)
    requires call.ClassifyCall?
    ensures var after := Next(canonical, legacy, call);
            after == canonical || IsRecovery(after, legacy) || FromSource(after, call) || IsErasure(after, call)
  {
    hide IsRecovery, LoadStep, Written, Classify, FetchFailed;
    LoadKeepsOrRecovers(canonical, legacy, true, call.w);
    if call.cfg.paper && FetchFailed(call.fetch) {
      FailedReadBlocks(canonical, legacy, call.cfg, call.runDate, call.fetch, call.w);
    }
  }

  lemma NextKeepsOrReads(canonical: Option<SnapshotFile>, legacy: Option<SnapshotFile>, call: Call)
    ensures var after := Next(canonical, legacy, call);
            after == canonical || IsRecovery(after, legacy) || FromSource(after, call) || IsErasure(after, call)
  {
    hide IsRecovery, ReconcileStep, BootstrapStep, ClassifyStep, Written, LoadBroker, FetchBroker, FetchFailed,
         DocumentAccount;
    match call
    case GateCall(cfg, attempts, ledger, w) =>
      ReconcileKeepsOrRecovers(canonical, legacy, cfg, attempts.first, ledger, w);
      var c1 := ReconcileStep(canonical, legacy, cfg, attempts.first, ledger, w).0;
      BootstrapKeepsOrReads(c1, cfg.paper, attempts.bootstrap, cfg.forceFlat, w);
      var (c2, ok) := BootstrapStep(c1, cfg.paper, attempts.bootstrap, cfg.forceFlat, w);
      ReconcileKeepsOrRecovers(c2, legacy, cfg, attempts.retry, ledger, w);
    case ReconcileCall(cfg, read, ledger, w) => ReconcileKeepsOrRecovers(canonical, legacy, cfg, read, ledger, w);
    case ClassifyCall(cfg, runDate, fetch, w) => ClassifyKeepsOrReads(canonical, legacy, call);
    case BootstrapCall(cfg, read, force, w) => BootstrapKeepsOrReads(canonical, cfg.paper, read, force, w);
    case RefreshCall(cfg, read, w) =>
    case DocumentCall(document, w) =>
  }

  /** Over every run, whatever reads fail in it: the canonical snapshot is the initial one, a recovery
      of the legacy one, the account of a broker read that succeeded or of a readable post-trade
      document; or else the classifying path ran outside paper mode and emptied it. */
  lemma {:induction false} SnapshotIsSourced(canonical: Option<SnapshotFile>, legacy: Option<SnapshotFile>,
                                             calls: seq<Call>)
    ensures var after := After(canonical, legacy, calls);
            after == canonical || IsRecovery(after, legacy)
            || exists i :: 0 <= i < |calls| && (FromSource(after, calls[i]) || IsErasure(after, calls[i]))
  {
    hide Next, IsRecovery, FromSource, IsErasure;
    if calls != [] {
      var front := calls[..|calls| - 1];
      assert forall i :: 0 <= i < |front| ==> front[i] == calls[i];
      SnapshotIsSourced(canonical, legacy, front);
      NextKeepsOrReads(After(canonical, legacy, front), legacy, calls[|calls| - 1]);
    }
  }

  /** A post-trade document leaves nothing held exactly when it can be read and written and none of its
      entries names a symbol with a quantity, as when it has no positions at all. */
  lemma DocumentEmptiesIff(canonical: Option<SnapshotFile>, d: PositionsDocument, w: World)
    ensures DocumentStep(canonical, d, w).1 <==> d.PositionsDocument? && w.writable
    ensures var (after, ok) := DocumentStep(canonical, d, w);
            ok ==>
              && after.Some? && after.value.Snapshot? && LoadFile(after.value, false).parseError == ""
              && (LoadFile(after.value, false).positions == map[] <==>
                    forall i :: 0 <= i < |d.entries| ==> SymbolOf(d.entries[i]) == "" || d.entries[i].quantity.None?)
  {
    if d.PositionsDocument? {
      NormalizedIsNormal(d.entries);
      WrittenLoads(DocumentAccount(d), w.today, REFRESHED_FROM_DOCUMENT, false);
      NothingCounts(d.entries);
      hide Normalized, Written, LoadFile;
    }
  }

  lemma NothingCounts(entries: seq<Entry>)
    ensures Normalized(entries) == map[] <==> forall i :: 0 <= i < |entries| ==> !Counts(entries[i])
  {
    hide Counts, SymbolOf, Total;
    if i :| 0 <= i < |entries| && Counts(entries[i]) {
      assert SymbolOf(entries[i]) in Symbols(entries);
      assert SymbolOf(entries[i]) in Normalized(entries);
    }
  }

  // ----- Outside paper mode

  /** Outside paper mode nothing is read and nothing counts as an error: the path heals exactly when
      the model is unusable, stale or holds anything, passes otherwise, and what it heals to is
      empty. */
  lemma NonPaperSelfHealErases(canonical: Option<SnapshotFile>, legacy: Option<SnapshotFile>, cfg: Config,
                               runDate: string, fetch: BrokerFetch, w: World)
    requires !cfg.paper
    ensures var (after, c) := ClassifyStep(canonical, legacy, cfg, runDate, fetch, w);
            var (loaded, m) := LoadStep(canonical, legacy, true, w);
            if m.parseError == "" && !Stale(m, runDate) && m.positions == map[]
            then c.decision == DecidePass && after == loaded
            else if w.writable
            then c.decision == SelfHeal && after == Some(Written(Account(map[], None, None), w.today, SELF_HEALED))
            else c.decision == Block && after == loaded
  {
    var m := LoadStep(canonical, legacy, true, w).1;
    var d := Compare(map[], m.positions, cfg.maxQuantityDiff);
    CleanIffAgree(map[], m.positions, cfg.maxQuantityDiff);
    NoErrorsYet(map[], m.positions, cfg.maxQuantityDiff);
    EmptyAgrees(m.positions, cfg.maxQuantityDiff);
    NoHealsMeansClean(m, d, runDate);
    NoBlocksMeansActive(FetchBroker(false, fetch));
    EmptyStatus();
    hide Compare, Written, LoadStep, Agree, SelfHeals, HardBlocks, Stale, Text.Leq;
  }

  lemma EmptyAgrees(model: Holdings, tolerance: real)
    ensures Agree(map[], model, tolerance) <==> model == map[]
  {
  }

  lemma EmptyStatus()
    ensures StatusName("") == ""
  {
    assert Text.Strip("") == "";
  }
}
