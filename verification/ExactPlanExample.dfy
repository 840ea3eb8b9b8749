/** A plan v3 on which the round trip can be seen to succeed and to fail: it holds nothing, trades
    nothing, and carries one constraint value that is a number or its text. */
module ExactPlanExample {
  import opened Wrappers
  import opened Sequences
  import opened Grid
  import opened Json
  import opened ExactOrders
  import opened ExactPlan
  import opened ExactPlanRoundTrip
  import Text

  /** A runtime that reads one number. */
  function SmallPython(): Python {
    Python((s: string) => if s == "5" then Some(5.0) else None, (s: string) => None, (x: real) => "0",
           (s: string) => true)
  }

  function Timing(bps: Value): Constraints {
    Constraints(Some(Num(0.0)), Some(Num(1.0)), None, Some(bps), None, None, None, None, map[])
  }

  function EmptyInputs(bps: Value): Inputs {
    Inputs("r", "d", "d", "v", "m", "", Regime(true, false, ""),
           [AllocationRow(Some(Str("core")), None, Some(Bool(true)), map[])],
           Num(0.0), [], Num(0.0), seq(64, _ => '0'), "", [], [], [], Num(0.0), Timing(bps),
           Authorization(Some(Str("AUTHORIZED")), Some(Str("CAERUS_ORCHESTRATOR")), Some(Str("d")), Some(Str("d")),
           None, map[]), "core", "PAPER")
  }

  /** Hashes that tell the two spellings apart. */
  function SmallDigests(): Digests {
    Digests((d: SeedDocument) => if d.constraints.attributionBps == Some(Num(5.0)) then "number" else "text",
            OrderDigests((i: Identity) => "o", (i: Identity) => "c"),
            (positions: seq<(string, real)>, cash: real) => "state",
                (planId: string, state: string, body: Inputs) => "content")
  }

  lemma PlainText(s: string)
    requires s != ""
    requires forall i :: 0 <= i < |s| ==>
               'a' <= s[i] <= 'z' || 'A' <= s[i] <= 'Z' || '0' <= s[i] <= '9' || s[i] == '_'
    ensures Text.Strip(s) == s
  {
  }

  lemma Texts()
    ensures Text.Strip("r") == "r" && Text.Strip("d") == "d" && Text.Strip("v") == "v" && Text.Strip("m") == "m"
    ensures Text.Strip("core") == "core" && Text.Lower("core") == "core"
    ensures Text.Strip("PAPER") == "PAPER" && Text.Upper("PAPER") == "PAPER"
    ensures Text.Strip("AUTHORIZED") == "AUTHORIZED" && Text.Upper("AUTHORIZED") == "AUTHORIZED"
    ensures Text.Strip("CAERUS_ORCHESTRATOR") == "CAERUS_ORCHESTRATOR"
            && Text.Upper("CAERUS_ORCHESTRATOR") == "CAERUS_ORCHESTRATOR"
    ensures Text.Strip(seq(64, _ => '0')) == seq(64, _ => '0') == Text.Lower(seq(64, _ => '0'))
  {
    PlainText("r");
    PlainText("d");
    PlainText("v");
    PlainText("m");
    PlainText("core");
    PlainText("PAPER");
    PlainText("AUTHORIZED");
    PlainText("CAERUS_ORCHESTRATOR");
    PlainText(seq(64, _ => '0'));
  }

  lemma EmptyHeader(bps: Value)
    ensures HeaderAccepts(SmallPython(), EmptyInputs(bps), None)
    ensures AuthorizationAccepts(SmallPython(), EmptyInputs(bps).authorization)
  {
    Texts();
    hide Text.Strip, Text.Upper, Text.Lower;
    var py, inputs := SmallPython(), EmptyInputs(bps);
    var row := inputs.allocations[0];
    assert Filter((r: AllocationRow) => Truthy(Get(r.capitalEligible)), inputs.allocations) == [row] by {
      assert inputs.allocations[1..] == [];
    }
    assert AllocationSleeve(py, row) == "core";
    assert EligibleSleeves(py, inputs.allocations) == ["core"];
    assert Eligible(py, inputs.allocations) == ["core"] by { assert ["core"][1..] == []; }
  }

  lemma EmptyRows(bps: Value)
    ensures var py, h, inputs := SmallPython(), SmallDigests(), EmptyInputs(bps); var n := Normal(py, h, inputs);
            && RowsAccept(py, inputs) && NumbersAccept(py, inputs)
            && n.starting == [] && n.expected == [] && n.sells == [] && n.buys == []
            && n.startingCash == n.expectedCash == Num(0.0) && n.regime == inputs.regime
  {
    hide Eligible, SeedOf, NormalizedAuthorization, CoercedConstraints, Text.Strip, Text.Lower;
  }

  lemma NothingMoves()
    ensures MechanicalAccepts([], 0.0, [], [], [], 0.0, false)
  {
    var l := Ledger(PositionsOf([]), 0.0);
    assert PositionsOf([]) == map[];
    assert Mechanical([], 0.0, [], []) == Some(l);
    assert OpenPositions(map[]) == map[];
  }

  lemma EmptyConstraints(bps: Value)
    requires bps == Num(5.0) || bps == Str("5")
    ensures ConstraintsAccept(SmallPython(), Timing(bps), Regime(true, false, ""), [], [], false)
  {
    assert NotionalTotal([]) == 0.0;
    var none: seq<OrderRow> := [];
    assert none + none == [];
  }

  lemma EmptyCoerced(bps: Value)
    requires bps == Num(5.0) || bps == Str("5")
    ensures Normal(SmallPython(), SmallDigests(), EmptyInputs(bps)).constraints == Timing(Num(5.0))
    ensures SeedOf(SmallPython(), EmptyInputs(bps)).constraints == Timing(bps)
  {
    hide Eligible, NormalizedAuthorization, Text.Strip, Text.Lower, NormalizedPositions, NormalizedOrders;
    var none: seq<OrderRow> := [];
    assert none + none == [];
  }

  lemma EmptyBuilds(bps: Value)
    requires bps == Num(5.0) || bps == Str("5")
    ensures BuildAccepts(SmallPython(), SmallDigests(), EmptyInputs(bps), None, false)
  {
    hide HeaderAccepts, RowsAccept, NumbersAccept, AuthorizationAccepts, ConstraintsAccept, MechanicalAccepts, SeedOf,
         Normal;
    EmptyHeader(bps);
    EmptyRows(bps);
    NothingMoves();
    EmptyConstraints(bps);
  }

  lemma EmptyDigests(bps: Value)
    ensures SmallDigests().order.WellFormed()
    ensures Identities(SmallPython(), EmptyInputs(bps).sells, EmptyInputs(bps).buys,
                       SmallDigests().seed(SeedOf(SmallPython(), EmptyInputs(bps))),
                           Eligible(SmallPython(), EmptyInputs(bps).allocations)) == {}
  {
    PlainText("o");
    PlainText("c");
    hide Text.Strip, SeedOf, Eligible;
  }

  lemma EmptyDoesNotCollide(bps: Value)
    requires bps == Num(5.0) || bps == Str("5")
    ensures NoCollisions(SmallPython(), SmallDigests(), EmptyInputs(bps))
  {
    hide BuildAccepts, SeedOf, Normal, Eligible, Identities;
    EmptyBuilds(bps);
    EmptyCoerced(bps);
    EmptyDigests(bps);
    SeedFixed(SmallPython(), SmallDigests(), EmptyInputs(bps), None, false);
    assert "number" != "text";
  }

  /** The builder accepts these inputs with the constraint as a number and as its text, without a
      collision; the plan built from the number re-parses to itself, the one built from the text is
      refused. */
  lemma RoundTripExample(bps: Value)
    requires bps == Num(5.0) || bps == Str("5")
    ensures var py, h, inputs := SmallPython(), SmallDigests(), EmptyInputs(bps);
            && NoCollisions(py, h, inputs) && Build(py, h, inputs, None, false).Ok?
            && var plan := Build(py, h, inputs, None, false).value;
               if bps == Num(5.0) then FromDict(py, h, plan) == Ok(plan) else FromDict(py, h, plan).Err?
  {
    hide BuildAccepts, NoCollisions, FromDict, PlanFor;
    EmptyBuilds(bps);
    EmptyDoesNotCollide(bps);
    RoundTripIff(SmallPython(), SmallDigests(), EmptyInputs(bps), None, false);
  }
}
