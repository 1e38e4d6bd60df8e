// Decimal rounding as the robot's host language does it: to the nearest
// grid point, ties to the even multiple of the grid unit.
module Rounding {

  /** The integer nearest to `x`; a tie goes to the even neighbour. */
  function RoundInt(x: real): (n: int)
    ensures x - 0.5 <= n as real <= x + 0.5
  {
    var f := x.Floor;
    var rest := x - f as real;
    if rest < 0.5 then f
    else if rest > 0.5 then f + 1
    else if f % 2 == 0 then f
    else f + 1
  }

  lemma RoundIntMonotone(x: real, y: real)
    requires x <= y
    ensures RoundInt(x) <= RoundInt(y)
  {
    if x.Floor == y.Floor {
    } else {
      assert x.Floor + 1 <= y.Floor;
    }
  }

  lemma RoundIntExact(n: int)
    ensures RoundInt(n as real) == n
  {
  }

  /** Half-even rounding commutes with a reflection about an even centre. */
  lemma RoundIntReflect(x: real, m: int)
    ensures RoundInt((2 * m) as real - x) == 2 * m - RoundInt(x)
  {
    var f := x.Floor;
    var rest := x - f as real;
    var y := (2 * m) as real - x;
    if rest == 0.0 {
      assert y == (2 * m - f) as real;
    } else {
      assert y.Floor == 2 * m - f - 1;
    }
  }

  /** `x` rounded to two decimals, the grid of gold prices. */
  function Round2(x: real): (r: real)
    ensures x - 0.005 <= r <= x + 0.005
    ensures OnCents(r)
  {
    RoundIntExact(RoundInt(x * 100.0));
    RoundInt(x * 100.0) as real / 100.0
  }

  /** `x` rounded to three decimals. */
  function Round3(x: real): (r: real)
    ensures x - 0.0005 <= r <= x + 0.0005
  {
    RoundInt(x * 1000.0) as real / 1000.0
  }

  /** `x` rounded to four decimals. */
  function Round4(x: real): (r: real)
    ensures x - 0.00005 <= r <= x + 0.00005
  {
    RoundInt(x * 10000.0) as real / 10000.0
  }

  /** `x` rounded to eight decimals, the finest price grid the robot keeps. */
  function Round8(x: real): (r: real)
    ensures x - 0.000000005 <= r <= x + 0.000000005
  {
    RoundInt(x * 100000000.0) as real / 100000000.0
  }

  /** The least multiple of the eighth decimal at or above `x`. */
  function Ceil8(x: real): real {
    (-(-x * 100000000.0).Floor) as real / 100000000.0
  }

  /** What prices just below `y` round to: the limit of `Round2` from the left. */
  function Round2Below(y: real): real {
    (CeilInt(y * 100.0 + 0.5) - 1) as real / 100.0
  }

  function CeilInt(x: real): (n: int)
    ensures x <= n as real < x + 1.0
  {
    -(-x).Floor
  }

  lemma RoundIntBetween(t: real, n: int)
    requires n as real - 0.5 < t < n as real + 0.5
    ensures RoundInt(t) == n
  {
  }

  lemma Round2BelowBounds(y: real, s: real)
    requires s < y
    ensures Round2(s) <= Round2Below(y)
  {
    RoundIntBelow(s * 100.0, y * 100.0);
  }

  lemma RoundIntBelow(t: real, z: real)
    requires t < z
    ensures RoundInt(t) <= CeilInt(z + 0.5) - 1
  {
    var n, m := RoundInt(t), CeilInt(z + 0.5);
    assert n as real < m as real;
  }

  /** Every neighbourhood below `y` holds a price that rounds to the limit. */
  lemma Round2BelowReached(y: real, delta: real) returns (s: real)
    requires delta > 0.0
    ensures y - delta < s < y && Round2(s) == Round2Below(y)
  {
    var n := CeilInt(y * 100.0 + 0.5) - 1;
    var low := if n as real - 0.5 >= (y - delta) * 100.0 then n as real - 0.5 else (y - delta) * 100.0;
    s := (low + y * 100.0) / 200.0;
    RoundIntBetween(s * 100.0, n);
  }

  /** Multiples of one cent are exactly the fixed points of two-decimal rounding. */
  predicate OnCents(x: real) {
    RoundInt(x * 100.0) as real == x * 100.0
  }

  lemma Round2Monotone(x: real, y: real)
    requires x <= y
    ensures Round2(x) <= Round2(y)
  {
    RoundIntMonotone(x * 100.0, y * 100.0);
  }

  lemma Round2Fixed(x: real)
    ensures OnCents(x) <==> Round2(x) == x
  {
  }

  /** `x` rounded to a multiple of `unit`. */
  function RoundTo(x: real, unit: real): (r: real)
    requires unit > 0.0
    ensures x - unit / 2.0 <= r <= x + unit / 2.0
    ensures OnGrid(r, unit)
  {
    var n := RoundInt(x / unit);
    RoundToWithin(x, unit);
    OnGridMultiple(n, unit);
    n as real * unit
  }

  lemma RoundToWithin(x: real, unit: real)
    requires unit > 0.0
    ensures x - unit / 2.0 <= RoundInt(x / unit) as real * unit <= x + unit / 2.0
  {
    var q := x / unit;
    var n := RoundInt(q) as real;
    assert q * unit == x;
    var below, above := n - q + 0.5, q - n + 0.5;
    assert below * unit >= 0.0 && above * unit >= 0.0;
    assert below * unit == n * unit - q * unit + unit / 2.0;
    assert above * unit == q * unit - n * unit + unit / 2.0;
  }

  ghost predicate OnGrid(x: real, unit: real) {
    exists n: int :: IsMultiple(x, n, unit)
  }

  predicate IsMultiple(x: real, n: int, unit: real) {
    x == n as real * unit
  }

  lemma OnGridMultiple(n: int, unit: real)
    ensures OnGrid(n as real * unit, unit)
  {
    assert IsMultiple(n as real * unit, n, unit);
  }

  lemma RoundToFixed(x: real, unit: real)
    requires unit > 0.0 && OnGrid(x, unit)
    ensures RoundTo(x, unit) == x
  {
    var n :| IsMultiple(x, n, unit);
    assert x / unit == n as real;
    RoundIntExact(n);
  }
}
