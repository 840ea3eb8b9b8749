/** Decimal grids: rounding to a number of decimals down, up and to nearest, with the nudge the
    source adds before it floors. */
module Grid {

  /** The 1e-12 nudge of `_floor_quantity` and `_enforcement_price`. */
  const NUDGE := 0.000000000001

  function Pow10(n: nat): (r: real)
    ensures r >= 1.0
  {
    if n == 0 then 1.0 else 10.0 * Pow10(n - 1)
  }

  function Abs(x: real): real {
    if x < 0.0 then -x else x
  }

  function Max(x: real, y: real): real {
    if x < y then y else x
  }

  function Min(x: real, y: real): real {
    if y < x then y else x
  }

  function Ceil(x: real): int {
    -((-x).Floor)
  }

  /** Nearest integer.  Ties go up here and to even in the source; only the distance to the
      nearest integer is ever used, and a tie is at distance one half either way. */
  function Round(x: real): int {
    (x + 0.5).Floor
  }

  predicate IsInteger(x: real) {
    x.Floor as real == x
  }

  /** Distance to the nearest integer. */
  function OffInteger(x: real): real {
    Abs(x - Round(x) as real)
  }

  // Each grid operation takes the scale 10^decimals apart from the arithmetic on it.

  predicate OnScale(x: real, p: real) {
    IsInteger(x * p)
  }

  function FloorBy(x: real, p: real): real
    requires p > 0.0
  {
    ((x + NUDGE) * p).Floor as real / p
  }

  function CeilBy(x: real, p: real): real
    requires p > 0.0
  {
    Ceil((x - NUDGE) * p) as real / p
  }

  function Unit(p: real): (r: real)
    requires p >= 1.0
    ensures 0.0 < r <= 1.0
  {
    1.0 / p
  }

  predicate OnGrid(x: real, decimals: nat) {
    OnScale(x, Pow10(decimals))
  }

  function Step(decimals: nat): (r: real)
    ensures 0.0 < r <= 1.0
  {
    Unit(Pow10(decimals))
  }

  function FloorTo(x: real, decimals: nat): real {
    FloorBy(x, Pow10(decimals))
  }

  function CeilTo(x: real, decimals: nat): real {
    CeilBy(x, Pow10(decimals))
  }

  // ----- Arithmetic the solver needs one step at a time

  lemma CancelLe(a: real, b: real, p: real)
    requires p > 0.0 && a * p <= b * p
    ensures a <= b
  {
  }

  lemma CancelLt(a: real, b: real, p: real)
    requires p > 0.0 && a * p < b * p
    ensures a < b
  {
  }

  lemma Quotient(f: real, p: real)
    requires p > 0.0
    ensures f / p * p == f
    ensures f >= 0.0 ==> f / p >= 0.0
  {
  }

  lemma QuotientSplit(f: real, g: real, p: real)
    requires p > 0.0
    ensures (f + g) / p == f / p + g / p
  {
  }

  lemma FloorUnique(x: real, k: int)
    requires k as real <= x < k as real + 1.0
    ensures x.Floor == k
  {
  }

  lemma IntegerIs(x: real, k: int)
    requires x == k as real
    ensures IsInteger(x) && Round(x) == k && x.Floor == k
  {
    FloorUnique(x, k);
    FloorUnique(x + 0.5, k);
  }

  lemma Distribute(x: real, y: real, p: real)
    ensures (x + y) * p == x * p + y * p
    ensures (x - y) * p == x * p - y * p
  {
  }

  // ----- Grid facts

  lemma OnScaleQuotient(k: int, p: real)
    requires p > 0.0
    ensures OnScale(k as real / p, p)
  {
    Quotient(k as real, p);
    IntegerIs(k as real / p * p, k);
  }

  lemma QuotientAtMost(f: real, y: real, p: real)
    requires p > 0.0 && f <= y * p
    ensures f / p <= y
  {
    Quotient(f, p);
    CancelLe(f / p, y, p);
  }

  lemma QuotientAbove(f: real, y: real, p: real)
    requires p > 0.0 && y * p < f
    ensures y < f / p
  {
    Quotient(f, p);
    CancelLt(y, f / p, p);
  }

  lemma QuotientAtLeast(f: real, y: real, p: real)
    requires p > 0.0 && y * p <= f
    ensures y <= f / p
  {
    Quotient(f, p);
    CancelLe(y, f / p, p);
  }

  lemma QuotientBelow(f: real, y: real, p: real)
    requires p > 0.0 && f < y * p
    ensures f / p < y
  {
    Quotient(f, p);
    CancelLt(f / p, y, p);
  }

  lemma FloorByBounds(x: real, p: real)
    requires p >= 1.0
    ensures FloorBy(x, p) <= x + NUDGE < FloorBy(x, p) + Unit(p)
    ensures OnScale(FloorBy(x, p), p)
  {
    var k := ((x + NUDGE) * p).Floor;
    QuotientAtMost(k as real, x + NUDGE, p);
    QuotientAbove(k as real + 1.0, x + NUDGE, p);
    QuotientSplit(k as real, 1.0, p);
    OnScaleQuotient(k, p);
  }

  lemma FloorByNonnegative(x: real, p: real)
    requires p >= 1.0 && x >= 0.0
    ensures FloorBy(x, p) >= 0.0
  {
    assert (x + NUDGE) * p >= 0.0;
    Quotient(((x + NUDGE) * p).Floor as real, p);
  }

  lemma FloorToBounds(x: real, decimals: nat)
    ensures FloorTo(x, decimals) <= x + NUDGE < FloorTo(x, decimals) + Step(decimals)
    ensures OnGrid(FloorTo(x, decimals), decimals)
    ensures x >= 0.0 ==> FloorTo(x, decimals) >= 0.0
  {
    FloorByBounds(x, Pow10(decimals));
    if x >= 0.0 { FloorByNonnegative(x, Pow10(decimals)); }
  }

  lemma CeilByBounds(x: real, p: real)
    requires p >= 1.0
    ensures CeilBy(x, p) - Unit(p) < x - NUDGE <= CeilBy(x, p)
    ensures OnScale(CeilBy(x, p), p)
  {
    var k := Ceil((x - NUDGE) * p);
    QuotientAtLeast(k as real, x - NUDGE, p);
    QuotientBelow(k as real - 1.0, x - NUDGE, p);
    QuotientSplit(k as real, -1.0, p);
    OnScaleQuotient(k, p);
  }

  lemma CeilToBounds(x: real, decimals: nat)
    ensures CeilTo(x, decimals) - Step(decimals) < x - NUDGE <= CeilTo(x, decimals)
    ensures OnGrid(CeilTo(x, decimals), decimals)
  {
    CeilByBounds(x, Pow10(decimals));
  }

  /** Moving by whole steps, or to the mirror image, leaves the distance to the grid unchanged. */
  lemma OffIntegerShift(x: real, k: real)
    requires IsInteger(k)
    ensures OffInteger(x - k) == OffInteger(x) == OffInteger(k - x)
  {
    var n := k.Floor;
    var f := Round(x);
    FloorUnique(x - k + 0.5, f - n);
    var g := Round(k - x);
    assert g as real <= k - x + 0.5 < g as real + 1.0;
    assert f as real <= x + 0.5 < f as real + 1.0;
    assert f + g == n || f + g == n + 1;
  }

  lemma IntegerFromOne(y: real)
    requires y > 0.0 && IsInteger(y)
    ensures y >= 1.0
  {
  }

  lemma ScaleGap(x: real, p: real)
    requires p >= 1.0 && OnScale(x, p) && x > 0.0
    ensures x >= Unit(p)
  {
    assert x * p > 0.0;
    IntegerFromOne(x * p);
    Quotient(1.0, p);
    CancelLe(1.0 / p, x, p);
  }

  /** A grid value that is not zero is at least one step away from zero. */
  lemma GridGap(x: real, decimals: nat)
    requires OnGrid(x, decimals) && x > 0.0
    ensures x >= Step(decimals)
  {
    ScaleGap(x, Pow10(decimals));
  }

  lemma ScaleDifference(x: real, y: real, p: real)
    requires OnScale(x, p) && OnScale(y, p)
    ensures OnScale(x - y, p)
  {
    Distribute(x, y, p);
    var m, n := (x * p).Floor, (y * p).Floor;
    IntegerIs((x - y) * p, m - n);
  }

  lemma GridDifference(x: real, y: real, decimals: nat)
    requires OnGrid(x, decimals) && OnGrid(y, decimals)
    ensures OnGrid(x - y, decimals)
  {
    ScaleDifference(x, y, Pow10(decimals));
  }

  /** Finer grids have smaller steps. */
  lemma {:induction false} StepMonotone(m: nat, n: nat)
    requires m <= n
    ensures Step(n) <= Step(m)
    decreases n - m
  {
    if m < n {
      StepMonotone(m + 1, n);
      UnitTenth(Pow10(m));
    }
  }

  lemma UnitTenth(p: real)
    requires p >= 1.0
    ensures Unit(10.0 * p) <= Unit(p)
  {
  }
}
