# Verified model of the trading plan and authority core

The system decides what a trading account may do and proves the plan before sending it. This
project models the parts that carry that proof and states, for every input, what they guarantee.
Money, prices and share quantities are exact `real`s; the code's `1e-12` nudges and its tolerances
are kept as explicit constants. A hash is an uninterpreted function; where a result needs it, the
documents that are actually compared are assumed not to collide (`NoCollisions`), nothing more.

- **Plan v4** (`SleeveShares`, `LanePlan`, `LanePlanValidator`, `LanePlanAgreement`,
  `LanePlanTheorems`, `LanePlanCash`, arithmetic in `Grid`): approved weights and a broker snapshot
  become floored, collared, attributed and identified orders; an independent validator replays them.
  Builder and validator are two computations, and the main result is an equivalence: the validator
  accepts the constructed body if and only if `Compatible` holds, a condition on the source
  documents alone. Expected cash is the cash Risk requires plus a surplus read off the documents
  (exactly for market orders, up to slip and ticks for limit orders); with market orders the
  builder's cash check fires if and only if that surplus is below minus one cent.
- **Plan v3** (`Json`, `ExactOrders`, `ExactPlan`, `ExactPlanRoundTrip`, `ExactPlanExample`,
  `ExactPlanSafety`): loosely spelled orders are normalised, given identities and checked
  mechanically; a serialised plan is re-parsed by building it again. For plans built with or without
  the legacy flag the round trip holds if and only if the two constraint values the builder coerces
  were numbers where they are present. Runs of partial fills are a state machine with a safety theorem.
- **Authority chain** (`AuthorityPackages`, `AuthorityChain`, `AuthorityTotals`): Evidence, Decision,
  Risk, Execution; every built or wrapped chain validates, and a validated chain only constrains its
  Decision, row by row. What it approves in total is bounded if and only if every Decision row
  concerned carries the field, and then by a greatest total that is attained.
- **Reconciliation** (`Positions`, `Reconciliation`, `ReconciliationSafety`, `ReconciliationGate`):
  the canonical snapshot is mutable state of a class; each method equals a step function, and the
  gate's soundness, the convergence of both recoveries and the source of every snapshot over whole
  runs of all its writers are proved about the steps.
- **Ledger replay** (`LedgerReplay`): the one-pass loop against a per-date specification, and the
  decomposition of final equity.
- **Stores** (`DataStore`, `MacroStore`): bulk, trailing and filled queries against point queries and
  specifications; no query looks ahead; caching is transparent.
- **Workbook text** (`XlsxText`): column letters (section 18.18.7, ST_CellRef, of ECMA-376 Part 1)
  and escaping (predefined entities, section 4.6 of XML 1.0) with their inverses.

Shared: `Wrappers`, `Sequences` (stable sort, filters, `sorted(set(...))`, sums), `Text` (code-point
order, strip and case over ASCII).

Where the code and its documentation differ, the code is modelled, and the difference is stated:

- The v3 plan seed hashes the constraints before two of them are coerced to numbers, so a plan built
  from a numeric text there does not re-parse (`ExactPlanRoundTrip.CoercedIsRefused`, and
  `ExactPlanExample.RoundTripExample` with such a plan). A legacy plan whose adverse-fill value was
  present but unreadable does not either (`ExactPlanRoundTrip.UnreadableIsRefused`).
- The v4 floor adds a nudge before flooring, so it rounds up a quantity that lies within the nudge
  below a grid value (`LanePlanCash.RoundsUpIff`) and expected cash can fall below the Risk cash. On
  market orders both that and the cash check follow the sign of the surplus exactly
  (`LanePlanCash.CashCheckFiresIff`); `LanePlanCash.ExpectedCashCanFallShort` has documents on which
  the check fires and no other guard does.
- "Risk may constrain but not increase" is checked row by row: repeated symbols, and fields the
  Decision row does not carry, escape it in total, up to a validated Execution
  (`AuthorityTotals.EscapesValidate`); `AuthorityTotals.TotalBoundedIff` says exactly when a total is
  bounded.
- Outside paper mode a self-heal has read nothing and empties the snapshot
  (`ReconciliationGate.NonPaperSelfHealErases`), and a post-trade document without positions empties it
  in any mode (`ReconciliationGate.DocumentEmptiesIff`).
- The gate's block reason is never the broker-read failure its classifier has a branch for
  (`ReconciliationSafety.VerdictAndReasonAgree`): a failing broker read raises instead.
- A quarter end that is missing sorts after all others in the trailing sum, so it counts as the
  greatest (`DataStore.Ends`).

## Model

| member | source | states |
|---|---|---|
| `SleeveShares.PositionContributions` | authority/lane_exact_plan.py:496-531 | accepts exactly nonempty contribution lists with distinct sleeves, positive quantities and the position's sum (to 1e-8), and returns them sorted by sleeve |
| `SleeveShares.PositionContributionsIdempotent` | authority/lane_exact_plan.py:496-531 | the normalised list is accepted again for the same quantity and comes back unchanged |
| `SleeveShares.ScaledContributions` | authority/lane_exact_plan.py:587-607 | the remainder-to-last loop succeeds exactly for nonnegative bases of positive total and then gives the pro-rata slices sorted by sleeve |
| `SleeveShares.ScaledConserves` | authority/lane_exact_plan.py:587-607 | the slices sum exactly to the order quantity, none is negative, each is its share's pro-rata part, every share gets one |
| `LanePlan.AssignOrderIds` | authority/lane_exact_plan.py:662-694 | in place: ids popped, plan seeded, both ids of every order set; nothing else of an order changes |
| `LanePlan.CollectOrders` | authority/lane_exact_plan.py:825-875 | the symbol loop returns exactly the traded sells and buys in symbol order, or the notional error of the first order outside the limits: which one, and that no order before it is outside |
| `LanePlanValidator.ValidateSide` | authority/lane_exact_plan.py:1088-1179 | the per-side loop accepts exactly lists whose orders are each acceptable and whose symbols and ids are new |
| `LanePlanValidator.ValidateOrders` | authority/lane_exact_plan.py:1088-1179 | accepts exactly order sections that satisfy every per-order rule, with ids distinct across both sides |
| `LanePlanValidator.ReplayOrders` | authority/lane_exact_plan.py:1349-1363 | replays sells then buys; fails exactly when a sell exceeds what is held |
| `LanePlanValidator.Validate` | authority/lane_exact_plan.py:1182-1497 | accepts exactly plans whose targets, positions, orders, ids, replay, ownership and bindings all hold |
| `LanePlanAgreement.BodyIdsDistinct` | authority/lane_exact_plan.py:662-694 | ids of a constructed plan are pairwise distinct on both sides together |
| `LanePlanAgreement.BodyOrdersAccepted` | authority/lane_exact_plan.py:1088-1179 | the constructed order section is accepted iff every traded symbol starts near the quantity grid and trades at a positive price near the price grid |
| `LanePlanAgreement.ReplayMoves` | authority/lane_exact_plan.py:1349-1363 | distinct sells then distinct buys, each moving its symbol from current to desired, replay, and leave exactly the traded symbols at their desired quantity |
| `LanePlanAgreement.BodyReplays` | authority/lane_exact_plan.py:1349-1371 | replaying the constructed orders from the snapshot succeeds and ends in the expected cash and the desired quantities |
| `LanePlanTheorems.BodyPositionsAccepted` | authority/lane_exact_plan.py:901-917 | the constructed starting and post-trade position rows are always accepted |
| `LanePlanTheorems.BodyOwnershipAccepted` | authority/lane_exact_plan.py:1423-1436 | post-trade ownership is always derived from the approved target shares |
| `LanePlanTheorems.BodyReplayAccepted` | authority/lane_exact_plan.py:1364-1371 | the replay section is accepted iff every untraded symbol already holds what its target asks for |
| `LanePlanTheorems.ValidatorAcceptsIff` | authority/lane_exact_plan.py:1182-1497 | the validator accepts the constructed body if and only if the sources are `Compatible` |
| `LanePlanTheorems.OnTheGridsAccepted` | authority/lane_exact_plan.py:810-930 | starting quantities on the grid and marks on the price grid (market) or of at least one tick (limit) are enough for acceptance |
| `LanePlanTheorems.UntradedOnGrid` | authority/lane_exact_plan.py:837-840 | on the grid, a difference too small to trade is no difference |
| `LanePlanTheorems.AssemblePlan` | authority/lane_exact_plan.py:893-900 | running the in-place id pass over the built orders gives exactly the plan the theorems speak about |
| `LanePlanTheorems.BuildLanePlan` | authority/lane_exact_plan.py:965-1085 | with its loops and the in-place id pass, returns a plan iff the builder's own guards and `Compatible` hold; the plan is the constructed body and validates |
| `LanePlanCash.EffectBound` | authority/lane_exact_plan.py:610-620 | for all valid documents, one symbol's effect on cash is the change of value it trades away, less at most the collar times turnover plus the nudge per unit, plus at most one price tick on its turnover; exactly that change for market orders |
| `LanePlanCash.ResidueBounds` | authority/lane_exact_plan.py:837-840 | what a difference too small to trade is worth: below a thousandth of a quantity step, at most the tolerance and never negative between compatible documents, nothing with starting quantities on the grid |
| `LanePlanCash.CashIs` | authority/lane_exact_plan.py:918-930 | for all valid documents, expected cash is required cash plus the surplus (discrepancy, floor leftovers, untraded residue) exactly for market orders, and within slip and ticks for limit orders |
| `LanePlanCash.CashCheckFiresIff` | authority/lane_exact_plan.py:918-930 | with market orders expected cash is below the Risk cash iff the surplus is negative, and the cash check fires iff it is below minus one cent |
| `LanePlanCash.RoundsUpIff` | authority/lane_exact_plan.py:582-584 | the floor rounds up iff a grid value lies above the units bought, at most the nudge away |
| `LanePlanCash.LeftoverSign` | authority/lane_exact_plan.py:582-584 | flooring leaves less than nothing of a target's capital share iff its quantity is rounded up |
| `LanePlanCash.NoRoundingUpNeverBelow` | authority/lane_exact_plan.py:918-930 | with market orders, starting quantities on the grid, documents that reconcile and no target rounded up, expected cash is never below the Risk cash |
| `LanePlanCash.CashBound` | authority/lane_exact_plan.py:918-930 | for all valid documents and both order types, expected cash against required cash from both sides: discrepancy, floor nudge on one basket, untraded residue and slip below; less than one quantity step of every target and one tick on turnover above |
| `LanePlanCash.CompatibleCashBound` | authority/lane_exact_plan.py:918-930 | the same bounds for every plan that can be returned: on compatible documents the residue is at most the tolerance of each symbol |
| `LanePlanCash.CashCheckCannotFire` | authority/lane_exact_plan.py:926-927 | a check before the call: with market orders, exact equity and weights summing to one, the cash check cannot fire while the nudge on one basket and the dust are worth at most its cent |
| `LanePlanCash.ExpectedCashCanFallShort` | authority/lane_exact_plan.py:582-584 | a family of valid, exactly reconciled documents that pass every other guard and the validator's conditions, with expected cash below the Risk cash; the cash check fires on them iff a unit costs more than 2 * 10^10 |
| `ExactOrders.NormalizeContributions` | authority/exact_plan.py:164-211 | the loop accepts exactly the contribution lists of eligible, distinct, positive sleeves and returns fractions sorted by sleeve |
| `ExactOrders.NormalizeOrders` | authority/exact_plan.py:214-333 | accepts exactly lists whose rows are each acceptable with distinct symbols, and returns their numbered canonical rows with ids |
| `ExactPlan.MechanicalReplay` | authority/exact_plan.py:776-791 | the post-trade loops compute the replayed positions and cash, failing exactly on an oversized sell |
| `ExactPlan.BuildPlan` | authority/exact_plan.py:497-845 | with its loops, succeeds iff every header, number, row, authorization, constraint and post-trade check holds, with the normalised plan |
| `ExactPlanRoundTrip.ContributionsFixed` | authority/exact_plan.py:164-211 | contribution normalisation is idempotent: accepted again, same fractions, same order |
| `ExactPlanRoundTrip.OrderFixed` | authority/exact_plan.py:214-333 | a canonical order row is accepted again and is its own canonical form, whatever ids it carries |
| `ExactPlanRoundTrip.OrdersFixed` | authority/exact_plan.py:336-417 | a normalised list is accepted again, has the raw list's seed rows, and renormalises to the same rows under any seed |
| `ExactPlanRoundTrip.PositionsFixed` | authority/exact_plan.py:131-146 | position normalisation is idempotent |
| `ExactPlanRoundTrip.AuthorizationFixed` | authority/exact_plan.py:640-655 | a normalised authorization is accepted again and unchanged |
| `ExactPlanRoundTrip.SeedFixed` | authority/exact_plan.py:608-639 | the seed document of the normalised inputs equals that of the raw inputs in everything but the constraints |
| `ExactPlanRoundTrip.NormalFixed` | authority/exact_plan.py:497-845 | a normalised body normalises to itself and has the same seed document, legacy plans included |
| `ExactPlanRoundTrip.NormalAccepted` | authority/exact_plan.py:497-845 | everything the builder checks it accepts again on a normalised body, under the original or any other legacy flag that accepts its adverse-fill value |
| `ExactPlanRoundTrip.IdsOfBuilt` | authority/exact_plan.py:323-333 | ids of a built plan are present, nonempty and pairwise different |
| `ExactPlanRoundTrip.NumericRoundTrip` | authority/exact_plan.py:848-996 | with numeric constraint values a plan built under either legacy flag re-parses to the identical plan |
| `ExactPlanRoundTrip.CoercedIsRefused` | authority/exact_plan.py:672-719 | with a constraint value that had to be coerced the re-parse is refused, whatever the legacy flag |
| `ExactPlanRoundTrip.UnreadableIsRefused` | authority/exact_plan.py:700-720 | a legacy plan whose adverse-fill value is present but unreadable is refused on re-parse, which allows only an absent one |
| `ExactPlanRoundTrip.RoundTripIff` | authority/exact_plan.py:848-996 | for every legacy flag: re-parsing a built plan rebuilds the identical plan (ids, hashes, body) iff the attribution value, if present, is a number and, if there are orders, so is the adverse-fill value, nonnegative, if present; anything that re-parses at all is the identical plan |
| `ExactPlanExample.RoundTripExample` | authority/exact_plan.py:848-996 | a built plan without collisions for each side: the attribution value 5 re-parses, the text "5" builds but is refused |
| `ExactPlanSafety.RunIsSafe` | authority/exact_plan.py:776-817 | after every run of partial fills at the limit or better, sells first, no position is below -1e-9 and cash is at least -1e-6; once sold out, cash covers the planned cash to 1e-6 |
| `ExactPlanSafety.FullRunEndsAsReplayed` | authority/exact_plan.py:776-791 | a fully filled run of any safe plan ends with every symbol where the mechanical replay put it |
| `ExactPlanSafety.FullRunEndsAsPlanned` | authority/exact_plan.py:776-817 | a fully filled run of a built limit plan ends within 1e-9 of every expected position, with at least the expected cash to 1e-6 |
| `AuthorityPackages.Rows` | authority/contracts.py:66-79 | the row loop succeeds iff every row has a non-CASH symbol, with upper-cased symbol and ticker |
| `AuthorityPackages.CheckConstrains` | authority/contracts.py:298-320 | the nested loops hold iff every approved row's symbol is in Decision and its side and shared numeric fields are constrained |
| `AuthorityChain.NormalRowsFixed` | authority/contracts.py:66-79 | row normalisation is idempotent |
| `AuthorityChain.RefsElements` | authority/contracts.py:82-86 | references are exactly the stripped nonempty ones, strictly increasing |
| `AuthorityChain.RefsFixed` | authority/contracts.py:82-86 | reference normalisation is idempotent |
| `AuthorityChain.EvidenceRehydrates` | authority/pipeline.py:25-35 | an Evidence package is rehydrated exactly from its own document |
| `AuthorityChain.DecisionRehydrates` | authority/pipeline.py:38-52 | the same for Decision, and its hash is no input of its own computation |
| `AuthorityChain.RiskRehydrates` | authority/pipeline.py:55-69 | the same for Risk |
| `AuthorityChain.ExecutionRehydrates` | authority/pipeline.py:138-160 | the same for Execution, legacy schema included |
| `AuthorityChain.BuiltDecisionRebuilds` | authority/contracts.py:292-295 | a built Decision rebuilds from its own fields to itself, bound to its Evidence |
| `AuthorityChain.BuiltRiskRebuilds` | authority/contracts.py:298-324 | a built Risk rebuilds from its own fields to itself, bound to its Decision |
| `AuthorityChain.BuiltExecutionRebuilds` | authority/pipeline.py:163-175 | the handed-over Execution rehydrates, bound to its Risk |
| `AuthorityChain.BuiltChainValidates` | authority/pipeline.py:72-135 | every chain built stage by stage whose references name the required source is accepted by the chain validator |
| `AuthorityChain.WrappedChainValidates` | authority/pipeline.py:211-266 | every wrapped chain whose references name the required source survives serialisation and is accepted by the chain validator |
| `AuthorityChain.RiskRebuilt` | authority/pipeline.py:117-126 | a Risk whose hash its rebuild reproduces has the current schema, constrains Decision and does not reduce its cash weight |
| `AuthorityChain.ValidatedChainIsDerived` | authority/pipeline.py:72-135 | a validated Execution is exactly the one Risk hands over, and its rows and cash constrain Decision; legacy schemas never validate |
| `AuthorityChain.ExecutionRowConstrained` | authority/contracts.py:298-320 | each Execution row has a Decision row of its symbol that it neither reverses nor exceeds in any numeric field both carry |
| `AuthorityTotals.TotalHeld` | authority/contracts.py:298-320 | approved rows whose field their Decision rows carry total at most what their symbols are held against, a repeated symbol each time, plus a nudge for each row |
| `AuthorityTotals.DistinctHeld` | authority/contracts.py:298-320 | pairwise distinct symbols are held against at most Decision's total |
| `AuthorityTotals.AbsentFieldEscapes` | authority/contracts.py:309-311 | in any rows Risk accepts, a field the Decision row lacks can be set to any value: still accepted, and the total is at least that value |
| `AuthorityTotals.DuplicatesEscape` | authority/contracts.py:302-320 | any rows Risk accepts can be repeated: still accepted, with twice the total |
| `AuthorityTotals.CeilingIsAttained` | authority/contracts.py:298-320 | for any symbols Decision has, the greatest total is reached by rows Risk accepts, a repeated symbol counted each time |
| `AuthorityTotals.TotalBoundedIff` | authority/contracts.py:298-320 | a limit bounds every approval of given symbols iff each of their Decision rows carries the field and the limit is at least the greatest total |
| `AuthorityTotals.CeilingAgainstDecision` | authority/contracts.py:298-320 | the greatest total is at most what the symbols are held against plus a nudge each, and for distinct symbols at most Decision's total plus a nudge each |
| `AuthorityTotals.ExecutionTotalConstrained` | authority/contracts.py:298-324 | on a validated chain whose Execution fields Decision carries, the approved total is at most what its symbols are held against, repetition counted, plus a nudge for each row; for distinct symbols that is at most Decision's total |
| `AuthorityTotals.EscapesValidate` | authority/pipeline.py:72-135 | both escapes survive to Execution: from any built chain, the chain with Risk's rows repeated, and the one with an absent field set to any value, are built, validated and handed over with the same Decision |
| `Positions.NormalizePositions` | reconciliation.py:213-242 | the loop gives each canonical symbol the sum of its quantities and skips entries without symbol or quantity |
| `Positions.NormalizedIsNormal` | reconciliation.py:172-173 | normalised keys are stripped, upper-cased and nonempty |
| `Positions.StoredReadsBack` | reconciliation.py:32-50 | a written position map is read back unchanged |
| `Reconciliation.ComparePositions` | reconciliation.py:245-283 | the loop over the sorted symbols computes the comparison: missing on either side, mismatches, greatest gap |
| `Reconciliation.MakeReport` | reconciliation.py:1101-1157 | diffs, errors, deltas, breach flags, verdict and reason of one pass |
| `Reconciliation.ModelState.WriteCanonical` | reconciliation.py:32-50 | replaces the snapshot with the account, stamped with date and reason, or leaves it when it cannot be written |
| `Reconciliation.ModelState.LoadCanonical` | reconciliation.py:53-150 | loads, or recovers a missing snapshot from the legacy one, with the parse errors of the source |
| `Reconciliation.ModelState.Reconcile` | reconciliation.py:1065-1215 | one pass: new snapshot state and report, canonical first, ledger as fallback, no report when a read raises |
| `Reconciliation.ModelState.Bootstrap` | reconciliation.py:1489-1567 | writes the broker account in paper mode unless the flat guard, the read or the write stops it |
| `Reconciliation.ModelState.PreTradeGate` | reconciliation.py:1368-1433 | the gate's outcome and new state; at most one bootstrap, and only after a stale-state failure in paper mode with auto-bootstrap on |
| `Reconciliation.ModelState.ReconcileAndClassify` | reconciliation.py:948-1062 | classification and, on self-heal, the rewritten snapshot or a block when it cannot be written |
| `Reconciliation.ModelState.RefreshFromBroker` | reconciliation.py:1573-1620 | the post-trade rewrite from a successful paper read |
| `Reconciliation.ModelState.RefreshFromDocument` | reconciliation.py:743-774 | the post-trade rewrite from a positions and an account document; nothing when a document is broken or the file cannot be written |
| `ReconciliationSafety.MissingMeans` | reconciliation.py:258-265 | the two missing lists are exactly the one-sided symbols, in sorted order |
| `ReconciliationSafety.MismatchesMean` | reconciliation.py:266-277 | a mismatch is listed iff both sides hold the symbol and differ by more than the tolerance, with the right numbers |
| `ReconciliationSafety.CleanIffAgree` | reconciliation.py:309-315 | a comparison is clean iff symbols agree and every gap is within the tolerance |
| `ReconciliationSafety.MaxGapDecides` | reconciliation.py:256-269 | the running maximum bounds every gap, and with a nonnegative tolerance decides alone whether anything mismatches |
| `ReconciliationSafety.ModelErrorsAreStale` | reconciliation.py:354-360 | the keyword search classifies every model error of the gate as stale state |
| `ReconciliationSafety.BreachFlagsCoincide` | reconciliation.py:1127-1132 | the flags computed beside the verdict are the ones inside it; an equity breach exceeds both the absolute tolerance and the percentage, and that is always of the model's equity |
| `ReconciliationSafety.VerdictAndReasonAgree` | reconciliation.py:317-371 | PASS iff no reason; WARN iff a drift reason on agreeing positions without hard fail; FAIL with agreeing positions only under hard fail; each reason iff its condition; never a broker-read reason |
| `ReconciliationGate.PassedReportAgrees` | reconciliation.py:309-338 | a report that does not fail compared agreeing maps; one that fails did not, or had no usable model, or drifted under hard fail |
| `ReconciliationGate.GateSound` | reconciliation.py:1368-1433 | a run let through compared the positions of its last read with a model of the same symbols within the tolerance; a blocked one did not, or had no usable model, or drifted under hard fail |
| `ReconciliationGate.RecoveryOnlyFromStaleState` | reconciliation.py:1394-1404 | a run recovered by bootstrap had auto-bootstrap on, paper mode and an unusable model first |
| `ReconciliationGate.BootstrapConverges` | reconciliation.py:1312-1365 | after a successful bootstrap an unchanged broker makes the retry pass iff the tolerances accept a difference of nothing |
| `ReconciliationGate.NonnegativeTolerancesConverge` | reconciliation.py:1076-1080 | nonnegative tolerances are enough for that |
| `ReconciliationGate.FailedReadBlocks` | reconciliation.py:664-671 | a failed account or positions read blocks and leaves the snapshot, apart from a legacy recovery |
| `ReconciliationGate.ClassificationSound` | reconciliation.py:651-727 | passing or warning means both reads succeeded, the account is active, the snapshot is current and usable, and positions agree |
| `ReconciliationGate.DecisionMeans` | reconciliation.py:651-727 | block, self-heal, warn and pass, each by its exact condition on reads, account status, snapshot and drift |
| `ReconciliationGate.DriftWarningMeans` | reconciliation.py:690-707 | a drift warning appears iff equity is known and nonzero and the difference is not zero, and names the right side of one percent |
| `ReconciliationGate.BootstrapIsGuarded` | reconciliation.py:1515-1555 | a bootstrap that changes the snapshot writes no empty one over equity above 100 dollars unless forced |
| `ReconciliationGate.SelfHealConverges` | reconciliation.py:989-1008 | after a self-heal the same broker answer passes iff the tolerance accepts equality (or nothing is held) and the run is not dated after the snapshot |
| `ReconciliationGate.SnapshotIsSourced` | reconciliation.py:730-779 | over every run of gates, passes, classifications, operator bootstraps and both refreshes the snapshot is the initial one, a legacy recovery, the account of a read that succeeded or of a readable document, or was emptied by a self-heal outside paper mode |
| `ReconciliationGate.DocumentEmptiesIff` | reconciliation.py:743-774 | the document refresh succeeds iff document and file allow, and then leaves nothing held iff no entry has both a symbol and a quantity, as when there are no positions |
| `ReconciliationGate.NonPaperSelfHealErases` | reconciliation.py:586-598 | outside paper mode, for every snapshot: pass and keep it iff it is usable, current and empty; otherwise self-heal to an empty one, or block when it cannot be written |
| `LedgerReplay.ReplayRows` | daily_quant_report.py:1250-1294 | the loop over cash, holdings, fills, turnover and prior equity equals the row-by-row replay |
| `LedgerReplay.ComputeMetrics` | daily_quant_report.py:1206-1316 | the one pass over the chosen, sorted rows yields the metrics of the per-date specification, empty ledgers included |
| `LedgerReplay.UsedByDate` | daily_quant_report.py:1227-1248 | the rows replayed are exactly the executed ones up to the trade date, in date order |
| `LedgerReplay.ReplayedPrior` | daily_quant_report.py:1257-1270 | prior equity exists exactly for the dates seen and equals equity over the strictly earlier rows |
| `LedgerReplay.ReplayedTurnover` | daily_quant_report.py:1269-1294 | turnover exists exactly for the dates seen and equals the notional of that date's effective rows |
| `LedgerReplay.HoldingsStayNonNegative` | daily_quant_report.py:1283-1292 | holdings never go negative, whatever is sold |
| `LedgerReplay.SettleChangesEquity` | daily_quant_report.py:1272-1292 | one row changes equity by held shares times price change, minus fees, plus quantity times price minus notional for a buy, clipped sells included |
| `LedgerReplay.EquityDecomposition` | daily_quant_report.py:1250-1302 | final equity is starting cash plus the sum of those changes, for every ledger |
| `DataStore.PointIsLatest` | datastore.py:125-140 | a point query answers with the eligible filing of the greatest filing date, latest in the table among ties, nulls not skipped |
| `DataStore.BulkIsPointwise` | datastore.py:198-219 | masking the sorted subset at a date gives the point query at that date |
| `DataStore.QuarterlyMeans` | datastore.py:242-256 | the quarterly rows are exactly the tag's 10-Q filings by the cutoff, of 60 to 120 days where spans are known |
| `DataStore.KeepLastEnds` | datastore.py:258-265 | deduplication keeps every quarter end, once |
| `DataStore.KeptIsLast` | datastore.py:258-265 | what it keeps of a quarter end is its last row |
| `DataStore.QuartersMean` | datastore.py:258-265 | the pipeline yields exactly the distinct quarter ends in order, each with its latest filed row |
| `DataStore.TrailingIsSpec` | datastore.py:240-282 | the trailing value is the sum, over the four greatest eligible quarter ends, of the latest filed value, and the annual fallback exactly with fewer than four |
| `DataStore.LateRowsUnknown` | datastore.py:125-132 | rows filed after a date, inserted anywhere, change nothing known by it |
| `DataStore.NoLookAhead` | datastore.py:98-433 | tables that agree on what was filed by a date answer every point, trailing and ratio query up to it alike |
| `DataStore.Store.Load` | datastore.py:461-496 | the answer does not depend on the cache, which holds what loading again would give |
| `DataStore.Store.Get` | datastore.py:98-140 | the point query on the loaded table, nothing for an absent ticker |
| `DataStore.Store.GetSeries` | datastore.py:161-219 | the loop answers the point query at every grid date; empty for an absent ticker |
| `DataStore.Store.GetTtm` | datastore.py:221-282 | the trailing value, which is the specified one |
| `DataStore.Store.GetWithFallback` | datastore.py:142-159 | the first tag with a value, and that tag |
| `DataStore.Store.GetRevenueTtm` | datastore.py:423-433 | the first revenue tag with a trailing value |
| `DataStore.Store.GetRoe` | datastore.py:346-360 | trailing income over equity, nothing without either or at zero equity |
| `DataStore.Store.GetGrossMargin` | datastore.py:362-376 | trailing gross profit over trailing revenue |
| `DataStore.Store.GetAccrualsRatio` | datastore.py:378-404 | the accruals ratio clipped to half, nothing without positive assets |
| `DataStore.Store.GetDebtEquityRatio` | datastore.py:406-421 | debt over equity through both fallback chains |
| `MacroStore.LastObservedMoves` | macro_store.py:132-143 | between index dates the last observed value changes only to a non-null observation of the later date |
| `MacroStore.ForwardFill` | macro_store.py:139-144 | the reindex onto the union and the fill loop give every union date the last non-null observation by it |
| `MacroStore.FilledSeries` | macro_store.py:132-154 | the forward fill over the union index, reindexed and masked, is the point query at every grid date |
| `MacroStore.UnfilledSeries` | macro_store.py:132-154 | without fill each grid date gets only its own observation |
| `MacroStore.BeforeFirst` | macro_store.py:148-151 | before the first non-null observation there is nothing to see |
| `MacroStore.LaterObservationsInvisible` | macro_store.py:86-96 | series that agree up to a date answer every point query up to it alike |
| `MacroStore.AddedRowsInvisible` | macro_store.py:272-276 | rows observed later, added anywhere in a file, change no point query up to the date |
| `MacroStore.Store.Load` | macro_store.py:245-280 | the answer does not depend on the cache |
| `MacroStore.Store.Get` | macro_store.py:69-96 | the last non-null observation by the cutoff, nothing for an absent series |
| `MacroStore.Store.GetSeries` | macro_store.py:98-154 | with fill every grid date gets what the point query answers there; repeated dates cannot be reindexed |
| `XlsxText.ExcelColumn` | audit/export.py:74-80 | the loop terminates with the bijective base-26 letters of the number |
| `XlsxText.ColumnDecodes` | audit/export.py:74-80 | column letters are A to Z, nonempty for positive numbers, and decode to the number |
| `XlsxText.NumberEncodes` | audit/export.py:74-80 | every text of letters is the column of the number it decodes to |
| `XlsxText.CellRefReadsBack` | audit/export.py:119-120 | a cell reference is read back as its row and column |
| `XlsxText.DistinctCellsDistinctRefs` | audit/export.py:132-146 | two cells share a reference iff they are the same cell |
| `XlsxText.SheetRefs` | audit/export.py:132-153 | the row and column loops give no two cells of a sheet one reference, and the dimension ends at the last cell |
| `XlsxText.EscapeIsSimultaneous` | audit/export.py:83-90 | the five sequential replacements are one simultaneous escape |
| `XlsxText.NoRawMarkup` | audit/export.py:83-90 | no raw markup character remains, and each ampersand starts a predefined entity |
| `XlsxText.EscapeReadsBack` | audit/export.py:83-90 | reading the predefined entities back undoes the escape |

## Left out

- PositionContributions: does not check the format of decision ids and hashes, which are texts carried unchanged.
- ScaledContributions: does not check the format of decision ids and hashes either.
- ValidateSide: does not model the symbol pattern, the fields a row must not carry because the broker owns them, or the pattern of ids.
- ValidateOrders: the same per-row format checks are not modelled.
- ReplayOrders: does not subtract estimated fees, which only the optimizer path puts on an order.
- Validate: does not model header texts, timestamps, hash formats or the optimizer's realization proof.
- BuildLanePlan: starts from normalised documents (`Valid`); the normalisers that make them, freshness included, are not part of this model.
- BuildPlan: the lineage document and the regime document are carried as one opaque value each; their normalisers are not part of this model.
- GetSeries: in both stores takes the date grid as its argument; the calendar that makes it from a frequency is not part of this model. In `MacroStore` a repeated observation date always raises, while a reindex onto an identical index would not.
- IEEE rounding, NaN, infinities and the int or float spelling of JSON numbers; `real` arithmetic is exact.
- SHA-256 and HMAC beyond uninterpreted functions, and the truncation of hashes inside ids.
- The cash-aware optimizer path of plan v4, its realization proof and estimated fees.
- Plan v4's Risk, policy and snapshot normalisers (identifier patterns, timestamps, freshness, policy hashes, time in force and extended hours): their results are the valid sources the builder starts from.
- The committed regime event and the lineage normalisation of plan v3; source ids and hashes are carried as one unchanged document.
- Which of several failing checks is reported first, beside the notional limits of plan v4, and the text of most errors.
- The row steps that `_order_seed_rows` and `_normalize_orders` share are modelled once, as `Canonical`.
- Case folding and stripping outside ASCII.
- Audit packages, reports and artifacts written beside a decision, and logging.
- Reading and writing of files as text: a file is its parsed content, unreadable, or missing.
- The choice of columns and of the latest date in a CSV model ledger: the ledger enters as its entries, cash and equity.
- The deduplication of the execution ledger before its replay.
- Ties of a table sort, which the library leaves open, are resolved stably.
- Quarterly series, cross sections, frames and coverage reports of the stores, which repeat the point queries.
- Numeric cells, dates and the surrounding sheet and package XML of the workbook.
