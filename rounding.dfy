/**
 * Python's `round(x, d)` on the exact value of `x`: to the nearest multiple of `10^-d`,
 * a tie going to the even neighbour.
 */
module Rounding {

  function Pow10(d: nat): (r: nat)
    ensures r >= 1
  {
    if d == 0 then 1 else 10 * Pow10(d - 1)
  }

  /** Whether `x` already lies on the grid of multiples of `10^-d`. */
  predicate OnGrid(x: real, d: nat) {
    (x * (Pow10(d) as real)).Floor as real == x * (Pow10(d) as real)
  }

  lemma {:induction false} GridPoint(n: int, d: nat)
    ensures OnGrid(n as real / (Pow10(d) as real), d)
  {
    var s := Pow10(d) as real;
    var r := n as real / s;
    assert r * s == n as real;
    assert (r * s).Floor == n;
  }

  /** The integer nearest to `y`; a tie goes to the even one. */
  function NearestEven(y: real): (n: int)
    ensures -0.5 <= n as real - y <= 0.5
    ensures y.Floor as real == y ==> n as real == y
  {
    var f := y.Floor;
    var frac := y - f as real;
    if frac > 0.5 then f + 1
    else if frac < 0.5 then f
    else if f % 2 == 0 then f
    else f + 1
  }

  /**
   * `round(x, d)`: a point of the grid of multiples of `10^-d`, at most half a step
   * from `x`.
   */
  function Round(x: real, d: nat): (r: real)
    ensures OnGrid(r, d)
    ensures -0.5 <= (r - x) * (Pow10(d) as real) <= 0.5
  {
    var s := Pow10(d) as real;
    var n := NearestEven(x * s);
    GridPoint(n, d);
    n as real / s
  }

  /** Rounding leaves a value that is already on the grid alone, so it is idempotent. */
  lemma {:induction false} RoundOnGrid(x: real, d: nat)
    requires OnGrid(x, d)
    ensures Round(x, d) == x
  {
    var y := x * (Pow10(d) as real);
    assert y.Floor as real == y;
    var n := NearestEven(y);
    assert n as real == y;
    assert n as real / (Pow10(d) as real) == x;
  }

  lemma {:induction false} RoundIdempotent(x: real, d: nat)
    ensures Round(Round(x, d), d) == Round(x, d)
  {
    RoundOnGrid(Round(x, d), d);
  }

  /**
   * A grid point `r` (`r * s` whole) within half a unit of a non-negative `x` at scale
   * `s >= 1` is not negative.
   */
  lemma GridNonNegative(r: real, x: real, s: real)
    requires s >= 1.0 && x >= 0.0
    requires (r * s).Floor as real == r * s && -0.5 <= (r - x) * s
    ensures r >= 0.0
  {
    assert (r - x) * s == r * s - x * s && x * s >= 0.0;
  }

  /** Rounding a non-negative value to one decimal place never gives a negative one. */
  lemma RoundTenthsNonNegative(x: real)
    requires x >= 0.0
    ensures Round(x, 1) >= 0.0
  {
    assert Pow10(1) == 10;
    GridNonNegative(Round(x, 1), x, 10.0);
  }

  /** Ties go to the even neighbour: `round(0.125, 2)` is `0.12`, `round(0.375, 2)` is `0.38`. */
  lemma RoundHalfEven()
    ensures Round(0.125, 2) == 0.12 && Round(0.375, 2) == 0.38
    ensures Round(2.5, 0) == 2.0 && Round(-0.5, 0) == 0.0
  {
    assert Pow10(2) == 100;
    assert (12.5).Floor == 12;
    assert (37.5).Floor == 37;
    assert (-0.5).Floor == -1;
  }
}
