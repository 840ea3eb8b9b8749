/** The pre-trade reconciliation gate over the canonical model snapshot: comparison, verdict,
    one-shot bootstrap recovery, and the classifying self-heal (reconciliation.py). */
module Reconciliation {
  import opened Wrappers
  import opened Sequences
  import opened Grid
  import opened Positions
  import Text

  // ----- Comparing two position maps

  datatype Mismatch = Mismatch(symbol: string, brokerQuantity: real, modelQuantity: real, gap: real)

  datatype Diffs = Diffs(missingInModel: seq<string>, missingInBroker: seq<string>, mismatches: seq<Mismatch>,
                         maxGap: real, errors: seq<string>)

  /** How far apart the two quantities of a symbol are; nothing unless both sides hold it. */
  function Gap(broker: Holdings, model: Holdings, s: string): real {
    if s in broker && s in model then Abs(broker[s] - model[s]) else 0.0
  }

  predicate Mismatched(broker: Holdings, model: Holdings, tolerance: real, s: string) {
    s in broker && s in model && Gap(broker, model, s) > tolerance
  }

  function MismatchFor(broker: Holdings, model: Holdings, s: string): Mismatch {
    Mismatch(s, if s in broker then broker[s] else 0.0, if s in model then model[s] else 0.0, Gap(broker, model, s))
  }

  function MaxGap(broker: Holdings, model: Holdings, symbols: seq<string>): real {
    if symbols == [] then 0.0
    else Max(MaxGap(broker, model, symbols[..|symbols| - 1]), Gap(broker, model, symbols[|symbols| - 1]))
  }

  function AllSymbols(broker: Holdings, model: Holdings): seq<string> {
    SortedKeys(broker.Keys + model.Keys)
  }

  function CompareOn(broker: Holdings, model: Holdings, tolerance: real, symbols: seq<string>): Diffs {
    Diffs(Filter(s => s !in model, symbols),
          Filter(s => s in model && s !in broker, symbols),
          Map(s => MismatchFor(broker, model, s), Filter(s => Mismatched(broker, model, tolerance, s), symbols)),
          MaxGap(broker, model, symbols), [])
  }

  function Compare(broker: Holdings, model: Holdings, tolerance: real): Diffs {
    CompareOn(broker, model, tolerance, AllSymbols(broker, model))
  }

  lemma CompareOnSnoc(broker: Holdings, model: Holdings, tolerance: real, symbols: seq<string>, s: string)
    ensures var before := CompareOn(broker, model, tolerance, symbols);
            var after := CompareOn(broker, model, tolerance, symbols + [s]);
            && after.missingInModel == before.missingInModel + (if s !in model then [s] else [])
            && after.missingInBroker == before.missingInBroker + (if s in model && s !in broker then [s] else [])
            && after.mismatches == before.mismatches
                                   + (if Mismatched(broker, model, tolerance, s) then [MismatchFor(broker, model, s)]
                                      else [])
            && after.maxGap == Max(before.maxGap, Gap(broker, model, s)) && after.errors == []
  {
    hide Mismatched, Gap, MismatchFor, Max;
    FilterAppend(s => s !in model, symbols, [s]);
    FilterAppend(s => s in model && s !in broker, symbols, [s]);
    FilterAppend(s => Mismatched(broker, model, tolerance, s), symbols, [s]);
    assert (symbols + [s])[..|symbols|] == symbols;
    var f := Filter(s => Mismatched(broker, model, tolerance, s), symbols);
    assert Map(s => MismatchFor(broker, model, s), f + [s])
        == Map(s => MismatchFor(broker, model, s), f) + [MismatchFor(broker, model, s)];
  }

  /** `compare_positions` */
  method ComparePositions(broker: Holdings, model: Holdings, tolerance: real) returns (d: Diffs)
    ensures d == Compare(broker, model, tolerance)
  {
    hide CompareOn, AllSymbols;
    var symbols := AllSymbols(broker, model);
    var missingInModel: seq<string>, missingInBroker: seq<string>, mismatches: seq<Mismatch> := [], [], [];
    var maxGap := 0.0;
    NothingCompared(broker, model, tolerance);
    for i := 0 to |symbols|
      invariant Diffs(missingInModel, missingInBroker, mismatches, maxGap, [])
                == CompareOn(broker, model, tolerance, symbols[..i])
      invariant maxGap >= 0.0
    {
      var s := symbols[i];
      Compared(broker, model, s);
      CompareOnSnoc(broker, model, tolerance, symbols[..i], s);
      assert symbols[..i + 1] == symbols[..i] + [s];
      if s !in model {
        missingInModel := missingInModel + [s];
      } else if s !in broker {
        missingInBroker := missingInBroker + [s];
      } else {
        var gap := Abs(broker[s] - model[s]);
        if gap > maxGap { maxGap := gap; }
        if gap > tolerance { mismatches := mismatches + [Mismatch(s, broker[s], model[s], gap)]; }
      }
    }
    assert symbols[..|symbols|] == symbols;
    return Diffs(missingInModel, missingInBroker, mismatches, maxGap, []);
  }

  lemma Compared(broker: Holdings, model: Holdings, s: string)
    requires s in AllSymbols(broker, model)
    ensures s in broker || s in model
  {
  }

  lemma NothingCompared(broker: Holdings, model: Holdings, tolerance: real)
    ensures CompareOn(broker, model, tolerance, []) == Diffs([], [], [], 0.0, [])
  {
  }

  // ----- Verdict and reason

  datatype Verdict = Pass | Warn | Fail

  datatype Reason = NoReason | StaleState | BrokerReadFailure | PositionsMismatch | QuantityMismatch
                  | EquityCashDrift | EquityOnlyDrift | CashOnlyDrift

  datatype Tolerances = Tolerances(cash: real, equityAbs: real, equityPct: real, hardFail: bool)

  predicate Clean(d: Diffs) {
    d.missingInModel == [] && d.missingInBroker == [] && d.mismatches == [] && d.errors == []
  }

  function EquityTolerance(t: Tolerances, base: Option<real>): real {
    if base.Some? then Max(t.equityAbs, Abs(base.value) * t.equityPct) else t.equityAbs
  }

  predicate Breaches(delta: Option<real>, tolerance: real) {
    delta.Some? && Abs(delta.value) > tolerance
  }

  function VerdictFromDiffs(d: Diffs, cashDelta: Option<real>, equityDelta: Option<real>, base: Option<real>,
                            t: Tolerances)
    : Verdict
  {
    if !Clean(d) then Fail
    else if !Breaches(cashDelta, t.cash) && !Breaches(equityDelta, EquityTolerance(t, base)) then Pass
    else if t.hardFail then Fail
    else Warn
  }

  predicate OccursAt(text: string, keyword: string, i: int) {
    0 <= i <= |text| - |keyword| && text[i..i + |keyword|] == keyword
  }

  /** `keyword in text` */
  predicate Contains(text: string, keyword: string) {
    exists i :: 0 <= i <= |text| && OccursAt(text, keyword, i)
  }

  function Join(errors: seq<string>): string {
    if errors == [] then "" else if |errors| == 1 then errors[0] else errors[0] + " " + Join(errors[1..])
  }

  predicate NamesStaleState(text: string) {
    Contains(text, "missing") || Contains(text, "stale") || Contains(text, "parse_error") || Contains(text, "snapshot")
  }

  predicate NamesBroker(text: string) {
    Contains(text, "broker_read") || Contains(Text.Lower(text), "broker")
  }

  function BlockReason(d: Diffs, cashBreach: bool, equityBreach: bool, parseError: string): Reason {
    if d.errors != [] || parseError != "" then
      var text := Join(d.errors) + " " + parseError;
      if NamesStaleState(text) then StaleState
      else if NamesBroker(text) then BrokerReadFailure
      else StaleState
    else if d.missingInModel != [] || d.missingInBroker != [] then PositionsMismatch
    else if d.mismatches != [] then QuantityMismatch
    else if equityBreach && cashBreach then EquityCashDrift
    else if equityBreach then EquityOnlyDrift
    else if cashBreach then CashOnlyDrift
    else NoReason
  }

  // ----- What is read

  /** A canonical snapshot file; a reason names why it was written, a date when. */
  datatype SnapshotFile =
    | Unreadable(message: string)
    | Snapshot(entries: seq<Entry>, cash: Option<real>, equity: Option<real>, date: Option<string>, reason: string)

  /** A loaded model state; a nonempty parse error means it is not usable. */
  datatype Loaded = Loaded(positions: Holdings, cash: Option<real>, equity: Option<real>, date: Option<string>,
                           parseError: string)

  datatype Ledger =
    | NoLedger | BrokenLedger | LedgerFile(json: bool, entries: seq<Entry>, cash: Option<real>, equity: Option<real>)

  datatype Account = Account(positions: Holdings, cash: Option<real>, equity: Option<real>)

  /** One attempt to read the broker, or the snapshot file that is configured in its place: it may
      raise. */
  datatype BrokerRead =
    | ReadFails(fromFile: bool)
    | Read(fromFile: bool, entries: seq<Entry>, cash: Option<real>, equity: Option<real>)

  /** A post-trade document: its position entries (none when it has no positions), and cash and equity
      at its top level or in its account. */
  datatype PositionsDocument =
    | BrokenDocument
    | PositionsDocument(entries: seq<Entry>, cash: Option<real>, equity: Option<real>,
                        accountCash: Option<real>, accountEquity: Option<real>)

  /** What a call finds around it: the date it stamps on what it writes, and whether the snapshot and
      the sent ledger can be written. */
  datatype World = World(today: string, writable: bool, sentLedgerWritable: bool)

  datatype Config = Config(enabled: bool, paper: bool, maxQuantityDiff: real, tolerances: Tolerances,
                           autoBootstrap: bool, forceFlat: bool, allowEmpty: bool)

  const MISSING := "canonical_snapshot_missing"
  const NO_POSITIONS := "no_positions_in_canonical_snapshot"
  const UNREADABLE := "canonical_snapshot_parse_error: "
  const NO_LEDGER := "ledger_path_missing"
  const NO_JSON_POSITIONS := "no_positions_found_in_json"
  const NO_CSV_POSITIONS := "no_positions_found_in_csv"
  const HINT_REST := " empty but broker has positions. Run with --bootstrap-model-ledger-from-broker "
                     + "to bootstrap from broker, or reset broker positions."
  const HINT := "Model snapshot" + HINT_REST
  const RECOVERED := "recovered_from_legacy_snapshot"
  const BOOTSTRAPPED := "bootstrap_from_broker"
  const SELF_HEALED := "pretrade_self_heal_from_broker"
  const REFRESHED := "posttrade_refresh_from_broker"
  const REFRESHED_FROM_DOCUMENT := "posttrade_refresh_from_snapshot"

  /** `_load_broker_snapshot`: without a configured file there is nothing to read outside paper mode. */
  function LoadBroker(paper: bool, read: BrokerRead): Option<Account> {
    if !paper && !read.fromFile then Some(Account(map[], None, None))
    else if read.ReadFails? then None
    else Some(Account(Normalized(read.entries), read.cash, read.equity))
  }

  /** `_write_canonical_model_snapshot` */
  function Written(a: Account, today: string, reason: string): SnapshotFile {
    Snapshot(Stored(a.positions), a.cash, a.equity, Some(today), reason)
  }

  function LoadFile(f: SnapshotFile, allowEmpty: bool): Loaded {
    match f
    case Unreadable(message) => Loaded(map[], None, None, None, UNREADABLE + message)
    case Snapshot(entries, cash, equity, date, reason) =>
      var positions := Normalized(entries);
      Loaded(positions, cash, equity, date,
             if positions == map[] && !allowEmpty && reason == "" then NO_POSITIONS else "")
  }

  predicate Recoverable(legacy: Option<SnapshotFile>, allowEmpty: bool) {
    legacy.Some? && legacy.value.Snapshot? && (Normalized(legacy.value.entries) != map[] || allowEmpty)
  }

  function Recovery(legacy: SnapshotFile, today: string): SnapshotFile
    requires legacy.Snapshot?
  {
    Written(Account(Normalized(legacy.entries), legacy.cash, legacy.equity), today,
            if legacy.reason != "" then RECOVERED + ":" + legacy.reason else RECOVERED)
  }

  /** `_load_canonical_model_snapshot`: a missing snapshot is recovered from the legacy place. */
  function LoadStep(canonical: Option<SnapshotFile>, legacy: Option<SnapshotFile>, allowEmpty: bool, w: World)
    : (Option<SnapshotFile>, Loaded)
  {
    if canonical.Some? then (canonical, LoadFile(canonical.value, allowEmpty))
    else if Recoverable(legacy, allowEmpty) && w.writable then
      (Some(Recovery(legacy.value, w.today)),
       Loaded(Normalized(legacy.value.entries), legacy.value.cash, legacy.value.equity, legacy.value.date, ""))
    else (None, Loaded(map[], None, None, None, MISSING))
  }

  /** `_load_model_snapshot`; an unreadable ledger raises. */
  function LoadLedger(l: Ledger, allowEmpty: bool): Option<Loaded> {
    match l
    case NoLedger => Some(Loaded(map[], None, None, None, NO_LEDGER))
    case BrokenLedger => None
    case LedgerFile(json, entries, cash, equity) =>
      var positions := Normalized(entries);
      Some(Loaded(positions, cash, equity, None,
                  if positions != map[] || allowEmpty then "" else if json then NO_JSON_POSITIONS
                     else NO_CSV_POSITIONS))
  }

  // ----- One reconcile pass

  datatype Report = Report(verdict: Verdict, reason: Reason, broker: Holdings, model: Holdings, parseError: string,
                           diffs: Diffs, cashDelta: Option<real>, equityDelta: Option<real>, cashBreach: bool,
                               equityBreach: bool)

  function Delta(a: Option<real>, b: Option<real>): Option<real> {
    if a.Some? && b.Some? then Some(a.value - b.value) else None
  }

  /** The parse error, and a hint when the broker holds something the model cannot explain. */
  function ModelErrors(parseError: string, fromLedger: bool, broker: Holdings): seq<string> {
    if parseError == "" then [] else [parseError] + if fromLedger && broker != map[] then [HINT] else []
  }

  function ReportFor(cfg: Config, broker: Account, model: Loaded, fromLedger: bool): Report {
    var errors := ModelErrors(model.parseError, fromLedger, broker.positions);
    var d := Compare(broker.positions, model.positions, cfg.maxQuantityDiff).(errors := errors);
    var cashDelta, equityDelta := Delta(broker.cash, model.cash), Delta(broker.equity, model.equity);
    var base := if model.equity.Some? then model.equity else broker.equity;
    var cashBreach := Breaches(cashDelta, cfg.tolerances.cash);
    var equityBreach := Breaches(equityDelta, EquityTolerance(cfg.tolerances, base));
    var verdict := VerdictFromDiffs(d, cashDelta, equityDelta, base, cfg.tolerances);
    Report(verdict, if verdict != Pass then BlockReason(d, cashBreach, equityBreach, model.parseError) else NoReason,
           broker.positions, model.positions, model.parseError, d, cashDelta, equityDelta, cashBreach, equityBreach)
  }

  /** `_reconcile`; no report when the broker or the ledger read raises. */
  function ReconcileStep(canonical: Option<SnapshotFile>, legacy: Option<SnapshotFile>, cfg: Config, read: BrokerRead,
                         ledger: Ledger, w: World)
    : (Option<SnapshotFile>, Option<Report>)
  {
    match LoadBroker(cfg.paper, read)
    case None => (canonical, None)
    case Some(broker) =>
      var (after, loaded) := LoadStep(canonical, legacy, cfg.allowEmpty, w);
      if loaded.parseError == "" then (after, Some(ReportFor(cfg, broker, loaded, false)))
      else
        match LoadLedger(ledger, cfg.allowEmpty)
        case None => (after, None)
        case Some(model) => (after, Some(ReportFor(cfg, broker, model, true)))
  }

  // ----- Bootstrap and refresh

  predicate FlatGuard(a: Account, force: bool) {
    a.positions == map[] && a.equity.Some? && a.equity.value > 100.0 && !force
  }

  /** `bootstrap_model_ledger_from_broker` */
  function BootstrapStep(canonical: Option<SnapshotFile>, paper: bool, read: BrokerRead, force: bool, w: World)
    : (Option<SnapshotFile>, bool)
  {
    if !paper || read.ReadFails? || FlatGuard(LoadBroker(paper, read).value, force) || !w.writable
    then (canonical, false)
    else (Some(Written(LoadBroker(paper, read).value, w.today, BOOTSTRAPPED)), w.sentLedgerWritable)
  }

  /** `refresh_canonical_snapshot_from_broker`, after execution. */
  function RefreshStep(canonical: Option<SnapshotFile>, paper: bool, read: BrokerRead, w: World)
    : (Option<SnapshotFile>, bool)
  {
    if !paper || read.ReadFails? || !w.writable then (canonical, false)
    else (Some(Written(LoadBroker(paper, read).value, w.today, REFRESHED)), true)
  }

  /** The account a document describes. */
  function DocumentAccount(d: PositionsDocument): Account
    requires d.PositionsDocument?
  {
    Account(Normalized(d.entries), if d.cash.Some? then d.cash else d.accountCash,
            if d.equity.Some? then d.equity else d.accountEquity)
  }

  /** `refresh_canonical_snapshot_from_posttrade_snapshot` */
  function DocumentStep(canonical: Option<SnapshotFile>, d: PositionsDocument, w: World): (Option<SnapshotFile>, bool) {
    if d.BrokenDocument? || !w.writable then (canonical, false)
    else (Some(Written(DocumentAccount(d), w.today, REFRESHED_FROM_DOCUMENT)), true)
  }

  // ----- The gate

  /** The broker reads of one gate run, in order. */
  datatype Reads = Reads(first: BrokerRead, bootstrap: BrokerRead, retry: BrokerRead)

  datatype GateResult = Skipped | Proceed(report: Report, recovered: bool) | Blocked(report: Report) | Crashed

  predicate RecoveryApplies(cfg: Config, r: Report) {
    r.verdict == Fail && r.reason == StaleState && cfg.autoBootstrap && cfg.paper
  }

  function Decide(r: Report, recovered: bool): GateResult {
    if r.verdict == Fail then Blocked(r) else Proceed(r, recovered)
  }

  /** `pre_trade_reconcile_or_exit`; `Blocked` is the exit, `Crashed` an exception that escapes. */
  function GateStep(canonical: Option<SnapshotFile>, legacy: Option<SnapshotFile>, cfg: Config, attempts: Reads,
                    ledger: Ledger, w: World)
    : (Option<SnapshotFile>, GateResult)
  {
    if !cfg.enabled then (canonical, Skipped)
    else
      var (c1, first) := ReconcileStep(canonical, legacy, cfg, attempts.first, ledger, w);
      if first.None? then (c1, Crashed)
      else if !RecoveryApplies(cfg, first.value) then (c1, Decide(first.value, false))
      else
        var (c2, ok) := BootstrapStep(c1, cfg.paper, attempts.bootstrap, cfg.forceFlat, w);
        if !ok then (c2, Blocked(first.value))
        else
          var (c3, retry) := ReconcileStep(c2, legacy, cfg, attempts.retry, ledger, w);
          (c3, if retry.None? then Crashed else Decide(retry.value, true))
  }

  // ----- The classifying path

  datatype AccountFetch =
    | AccountRaises | AccountCorrupt | AccountData(cash: Option<real>, equity: Option<real>, status: string)

  datatype PositionsFetch = PositionsRaise | PositionsCorrupt | PositionRows(entries: seq<Entry>)

  datatype BrokerFetch = AuthFails | Fetched(account: AccountFetch, positions: PositionsFetch)

  datatype BrokerState = BrokerState(account: Account, status: string, accountError: bool, positionsError: bool,
                                     errors: seq<string>)

  function AccountErrors(f: AccountFetch): seq<string> {
    match f
    case AccountRaises => ["broker_account_fetch_failure"]
    case AccountCorrupt => ["corrupt_broker_account_payload"]
    case AccountData(_, _, _) => []
  }

  function PositionsErrors(f: PositionsFetch): seq<string> {
    match f
    case PositionsRaise => ["broker_positions_fetch_failure"]
    case PositionsCorrupt => ["corrupt_broker_positions_payload"]
    case PositionRows(_) => []
  }

  /** `_load_broker_snapshot_v2`: failures become errors beside empty data. */
  function FetchBroker(paper: bool, f: BrokerFetch): BrokerState {
    if !paper then BrokerState(Account(map[], None, None), "", false, false, [])
    else
      match f
      case AuthFails => BrokerState(Account(map[], None, None), "", true, true, ["broker_auth_failure"])
      case Fetched(account, positions) =>
        BrokerState(
          Account(if positions.PositionRows? then Normalized(positions.entries) else map[],
                  if account.AccountData? then account.cash else None,
                  if account.AccountData? then account.equity else None),
          if account.AccountData? then account.status else "",
          !account.AccountData?, !positions.PositionRows?, AccountErrors(account) + PositionsErrors(positions))
  }

  predicate FetchFailed(f: BrokerFetch) {
    f.AuthFails? || !f.account.AccountData? || !f.positions.PositionRows?
  }

  function AfterLastDot(s: string): string {
    if s == "" then ""
    else if '.' in s[1..] then AfterLastDot(s[1..])
    else if s[0] == '.' then s[1..]
    else s
  }

  /** `_normalize_account_status` */
  function StatusName(status: string): string {
    AfterLastDot(Text.Upper(Text.Strip(status)))
  }

  function HardBlocks(b: BrokerState): seq<string> {
    (if b.accountError then ["broker_account_fetch_failure"] else [])
    + (if b.positionsError then ["broker_positions_fetch_failure"] else [])
    + b.errors
    + (if StatusName(b.status) !in {"", "ACTIVE"} then ["account_status_not_active:" + StatusName(b.status)] else [])
  }

  /** The snapshot is dated before the run. */
  predicate Stale(m: Loaded, runDate: string) {
    m.date.Some? && !Text.Leq(runDate, m.date.value)
  }

  predicate NamesKnownIssue(parseError: string) {
    Contains(parseError, "missing") || Contains(parseError, "stale") || Contains(parseError, "parse_error")
  }

  function SelfHeals(m: Loaded, d: Diffs, runDate: string): seq<string> {
    (if m.parseError == "" then []
     else if NamesKnownIssue(m.parseError) then [m.parseError]
     else ["canonical_snapshot_issue:" + m.parseError])
    + (if Stale(m, runDate) then ["canonical_snapshot_stale"] else [])
    + (if d.missingInModel != [] || d.missingInBroker != [] then ["symbol_set_drift"] else [])
    + (if d.mismatches != [] then ["quantity_mismatch"] else [])
  }

  function DriftWarning(delta: Option<real>, base: Option<real>, small: string, large: string): seq<string> {
    if base.None? || base.value == 0.0 || delta.None? || delta.value == 0.0 then []
    else if Abs(delta.value) / Abs(base.value) < 0.01 then [small]
    else [large]
  }

  function Warnings(cashDelta: Option<real>, equityDelta: Option<real>, base: Option<real>): seq<string> {
    DriftWarning(cashDelta, base, "cash_drift_lt_1pct_equity", "cash_drift_gte_1pct_equity")
    + DriftWarning(equityDelta, base, "equity_drift_lt_1pct_equity", "equity_drift_gte_1pct_equity")
  }

  datatype Decision = DecidePass | DecideWarn | SelfHeal | Block

  datatype Classification = Classification(decision: Decision, warnings: seq<string>, selfHeals: seq<string>,
                                           hardBlocks: seq<string>)

  /** `classify_drift` on the two snapshots and their comparison. */
  function Classify(b: BrokerState, m: Loaded, d: Diffs, runDate: string): Classification {
    var cashDelta, equityDelta := Delta(b.account.cash, m.cash), Delta(b.account.equity, m.equity);
    var warnings := Warnings(cashDelta, equityDelta, if m.equity.Some? then m.equity else b.account.equity);
    var selfHeals, hardBlocks := SelfHeals(m, d, runDate), HardBlocks(b);
    Classification(
      if hardBlocks != [] then Block
      else if selfHeals != [] then SelfHeal
      else if warnings != [] then DecideWarn
      else DecidePass,
      warnings, selfHeals, hardBlocks)
  }

  const WRITE_FAILED := "canonical_self_heal_write_failed"

  /** `pre_trade_reconcile_and_classify` */
  function ClassifyStep(canonical: Option<SnapshotFile>, legacy: Option<SnapshotFile>, cfg: Config, runDate: string,
                        fetch: BrokerFetch, w: World)
    : (Option<SnapshotFile>, Classification)
  {
    var b := FetchBroker(cfg.paper, fetch);
    var (after, m) := LoadStep(canonical, legacy, true, w);
    var c := Classify(b, m, Compare(b.account.positions, m.positions, cfg.maxQuantityDiff), runDate);
    if c.decision != SelfHeal then (after, c)
    else if w.writable then (Some(Written(b.account, w.today, SELF_HEALED)), c)
    else (after, c.(decision := Block, hardBlocks := c.hardBlocks + [WRITE_FAILED]))
  }

  lemma NoErrorsYet(broker: Holdings, model: Holdings, tolerance: real)
    ensures Compare(broker, model, tolerance).errors == []
  {
  }

  /** The part of `_reconcile` after its reads: the breach flags are computed here and again inside
      the verdict. */
  method MakeReport(cfg: Config, broker: Account, model: Loaded, fromLedger: bool) returns (r: Report)
    ensures r == ReportFor(cfg, broker, model, fromLedger)
  {
    hide Compare, BlockReason, VerdictFromDiffs;
    var d := ComparePositions(broker.positions, model.positions, cfg.maxQuantityDiff);
    NoErrorsYet(broker.positions, model.positions, cfg.maxQuantityDiff);
    if model.parseError != "" { d := d.(errors := d.errors + [model.parseError]); }
    if fromLedger && model.parseError != "" && broker.positions != map[] { d := d.(errors := d.errors + [HINT]); }
    assert d.errors == ModelErrors(model.parseError, fromLedger, broker.positions);
    var cashDelta, equityDelta := Delta(broker.cash, model.cash), Delta(broker.equity, model.equity);
    var base := if model.equity.Some? then model.equity else broker.equity;
    var equityTolerance := cfg.tolerances.equityAbs;
    if base.Some? { equityTolerance := Max(cfg.tolerances.equityAbs, Abs(base.value) * cfg.tolerances.equityPct); }
    var cashBreach, equityBreach := Breaches(cashDelta, cfg.tolerances.cash), Breaches(equityDelta, equityTolerance);
    var verdict := VerdictFromDiffs(d, cashDelta, equityDelta, base, cfg.tolerances);
    var reason := if verdict != Pass then BlockReason(d, cashBreach, equityBreach, model.parseError) else NoReason;
    return Report(verdict, reason, broker.positions, model.positions, model.parseError, d,
                  cashDelta, equityDelta, cashBreach, equityBreach);
  }

  // ----- The snapshot as mutable state

  class ModelState {
    var canonical: Option<SnapshotFile>
    const legacy: Option<SnapshotFile>
    /** How many times the snapshot was bootstrapped. */
    ghost var bootstraps: nat

    constructor (canonical: Option<SnapshotFile>, legacy: Option<SnapshotFile>)
      ensures this.canonical == canonical && this.legacy == legacy && bootstraps == 0
    {
      this.canonical := canonical;
      this.legacy := legacy;
      bootstraps := 0;
    }

    method WriteCanonical(a: Account, w: World, reason: string) returns (ok: bool)
      modifies this`canonical
      ensures ok == w.writable
      ensures canonical == if ok then Some(Written(a, w.today, reason)) else old(canonical)
    {
      ok := w.writable;
      if ok { canonical := Some(Snapshot(Stored(a.positions), a.cash, a.equity, Some(w.today), reason)); }
    }

    method LoadCanonical(allowEmpty: bool, w: World) returns (m: Loaded)
      modifies this`canonical
      ensures (canonical, m) == LoadStep(old(canonical), legacy, allowEmpty, w)
    {
      hide Normalized, Stored;
      if canonical.None? {
        if legacy.Some? && legacy.value.Snapshot? {
          var positions := NormalizePositions(legacy.value.entries);
          if positions != map[] || allowEmpty {
            var reason := if legacy.value.reason != "" then RECOVERED + ":" + legacy.value.reason else RECOVERED;
            var ok := WriteCanonical(Account(positions, legacy.value.cash, legacy.value.equity), w, reason);
            if ok { return Loaded(positions, legacy.value.cash, legacy.value.equity, legacy.value.date, ""); }
          }
        }
        return Loaded(map[], None, None, None, MISSING);
      }
      match canonical.value
      case Unreadable(message) => return Loaded(map[], None, None, None, UNREADABLE + message);
      case Snapshot(entries, cash, equity, date, reason) =>
        var positions := NormalizePositions(entries);
        var parseError := "";
        if positions == map[] && !allowEmpty && reason == "" { parseError := NO_POSITIONS; }
        return Loaded(positions, cash, equity, date, parseError);
    }

    method Reconcile(cfg: Config, read: BrokerRead, ledger: Ledger, w: World) returns (r: Option<Report>)
      modifies this`canonical
      ensures (canonical, r) == ReconcileStep(old(canonical), legacy, cfg, read, ledger, w)
    {
      hide ReportFor, LoadLedger, LoadStep, Normalized;
      var broker := LoadBroker(cfg.paper, read);
      if broker.None? { return None; }
      var model := LoadCanonical(cfg.allowEmpty, w);
      var fromLedger := model.parseError != "";
      if fromLedger {
        var fallback := LoadLedger(ledger, cfg.allowEmpty);
        if fallback.None? { return None; }
        model := fallback.value;
      }
      var report := MakeReport(cfg, broker.value, model, fromLedger);
      return Some(report);
    }

    method Bootstrap(cfg: Config, read: BrokerRead, w: World) returns (ok: bool)
      modifies this
      ensures (canonical, ok) == BootstrapStep(old(canonical), cfg.paper, read, cfg.forceFlat, w)
      ensures bootstraps == old(bootstraps) + 1
    {
      bootstraps := bootstraps + 1;
      if !cfg.paper { return false; }
      var broker := LoadBroker(cfg.paper, read);
      if broker.None? { return false; }
      if broker.value.positions == map[] && broker.value.equity.Some? && broker.value.equity.value > 100.0
         && !cfg.forceFlat {
        return false;
      }
      var written := WriteCanonical(broker.value, w, BOOTSTRAPPED);
      return written && w.sentLedgerWritable;
    }

    /** The gate bootstraps at most once, and only after a stale-state failure in paper mode with
        auto-bootstrap enabled. */
    method PreTradeGate(cfg: Config, attempts: Reads, ledger: Ledger, w: World) returns (r: GateResult)
      modifies this
      ensures (canonical, r) == GateStep(old(canonical), legacy, cfg, attempts, ledger, w)
      ensures bootstraps <= old(bootstraps) + 1
      ensures bootstraps != old(bootstraps) ==>
                cfg.enabled && cfg.autoBootstrap && cfg.paper
                && var first := ReconcileStep(old(canonical), legacy, cfg, attempts.first, ledger, w).1;
                   first.Some? && first.value.verdict == Fail && first.value.reason == StaleState
    {
      hide ReconcileStep, BootstrapStep;
      if !cfg.enabled { return Skipped; }
      var first := Reconcile(cfg, attempts.first, ledger, w);
      if first.None? { return Crashed; }
      if first.value.verdict == Fail && first.value.reason == StaleState && cfg.autoBootstrap && cfg.paper {
        var ok := Bootstrap(cfg, attempts.bootstrap, w);
        if ok {
          var retry := Reconcile(cfg, attempts.retry, ledger, w);
          if retry.None? { return Crashed; }
          if retry.value.verdict != Fail { return Proceed(retry.value, true); }
          return Blocked(retry.value);
        }
      }
      if first.value.verdict == Fail { return Blocked(first.value); }
      return Proceed(first.value, false);
    }

    method ReconcileAndClassify(cfg: Config, runDate: string, fetch: BrokerFetch, w: World) returns (c: Classification)
      modifies this`canonical
      ensures (canonical, c) == ClassifyStep(old(canonical), legacy, cfg, runDate, fetch, w)
    {
      hide Compare, LoadStep, FetchBroker, Classify;
      var b := FetchBroker(cfg.paper, fetch);
      var m := LoadCanonical(true, w);
      var d := ComparePositions(b.account.positions, m.positions, cfg.maxQuantityDiff);
      c := Classify(b, m, d, runDate);
      if c.decision == SelfHeal {
        var ok := WriteCanonical(b.account, w, SELF_HEALED);
        if !ok { c := c.(decision := Block, hardBlocks := c.hardBlocks + [WRITE_FAILED]); }
      }
    }

    method RefreshFromBroker(cfg: Config, read: BrokerRead, w: World) returns (ok: bool)
      modifies this`canonical
      ensures (canonical, ok) == RefreshStep(old(canonical), cfg.paper, read, w)
    {
      if !cfg.paper { return false; }
      var broker := LoadBroker(cfg.paper, read);
      if broker.None? { return false; }
      ok := WriteCanonical(broker.value, w, REFRESHED);
    }

    method RefreshFromDocument(d: PositionsDocument, w: World) returns (ok: bool)
      modifies this`canonical
      ensures (canonical, ok) == DocumentStep(old(canonical), d, w)
    {
      hide Normalized, Stored;
      if d.BrokenDocument? { return false; }
      var positions := NormalizePositions(d.entries);
      var cash := if d.cash.Some? then d.cash else d.accountCash;
      var equity := if d.equity.Some? then d.equity else d.accountEquity;
      ok := WriteCanonical(Account(positions, cash, equity), w, REFRESHED_FROM_DOCUMENT);
    }
  }
}
