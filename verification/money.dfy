/**
 Money is integers: ledger amounts in ticks of 10^-8 USDC, token amounts in units of
 10^-6 USDC. Rounding is half-up; converting a ledger amount to token units truncates.
 */
module Money {
  const TICKS_PER_UNIT: nat := 100

  const BPS: nat := 10_000

  function ToUnits(ticks: nat): nat { ticks / TICKS_PER_UNIT }

  function FromUnits(units: nat): nat { units * TICKS_PER_UNIT }

  /** Decimal's half-up rounding: to the nearest integer, ties away from zero. */
  function HalfUp(x: real): int {
    if x >= 0.0 then (x + 0.5).Floor else -(0.5 - x).Floor
  }

  /** Half-up rounding is the nearest integer with ties away from zero, and nothing else. */
  lemma HalfUpIs(x: real, n: int)
    ensures n == HalfUp(x) <==>
      if x >= 0.0 then n as real - 0.5 <= x < n as real + 0.5 else n as real - 0.5 < x <= n as real + 0.5
  {
    var f := if x >= 0.0 then (x + 0.5).Floor else (0.5 - x).Floor;
    assert f as real <= (if x >= 0.0 then x + 0.5 else 0.5 - x) < f as real + 1.0;
    var m := HalfUp(x);
    if m < n { assert m as real + 1.0 <= n as real; }
    if n < m { assert n as real + 1.0 <= m as real; }
  }

  lemma HalfUpMonotone(x: real, y: real)
    requires x <= y
    ensures HalfUp(x) <= HalfUp(y)
  {
    HalfUpIs(x, HalfUp(x));
    HalfUpIs(y, HalfUp(y));
  }

  lemma HalfUpOfInt(n: int)
    ensures HalfUp(n as real) == n
  {
    HalfUpIs(n as real, n);
  }

  /** A fee of `bps` basis points of an integer cost, rounded half-up. */
  function Fee(cost: nat, bps: nat): int { HalfUp(cost as real * bps as real / BPS as real) }

  /** The fee is the nearest integer to `cost * bps / 10,000`, a half counting up. */
  lemma FeeIs(cost: nat, bps: nat, fee: int)
    ensures fee == Fee(cost, bps) <==> 20_000 * fee - 10_000 <= 2 * cost * bps < 20_000 * fee + 10_000
  {
    var raw := cost as real * bps as real / BPS as real;
    var n := cost * bps;
    assert n as real == cost as real * bps as real && raw == n as real / 10_000.0;
    HalfUpIs(raw, fee);
  }

  /** Token units drop the fraction of a ledger amount, and the way back is exact. */
  lemma UnitsIs(ticks: nat, n: nat)
    ensures n == ToUnits(ticks) <==> 100 * n <= ticks < 100 * n + 100
    ensures FromUnits(n) == 100 * n && ToUnits(FromUnits(n)) == n
  {}

  lemma FeeBounds(cost: nat, bps: nat)
    requires bps <= BPS
    ensures 0 <= Fee(cost, bps) <= cost
  {
    var raw := cost as real * bps as real / BPS as real;
    assert 0.0 <= cost as real * bps as real <= cost as real * BPS as real;
    HalfUpMonotone(0.0, raw);
    HalfUpMonotone(raw, cost as real);
    HalfUpOfInt(cost);
    HalfUpOfInt(0);
  }
}
