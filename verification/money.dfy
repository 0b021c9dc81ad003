/** Whole-unit arithmetic on money amounts.
    Amounts are exact reals; the two integer conversions the payroll uses are
    the ceiling (`math.ceil`) and rounding to 0 decimals (`round(x, 0)`), which
    breaks ties towards the even neighbour. */
module Money {

  /** True when `x` is a whole number of currency units. */
  predicate IsWhole(x: real) {
    x == x.Floor as real
  }

  /** `r` is a whole number of units within half a unit of `x`. */
  predicate RoundsTo(x: real, r: real) {
    IsWhole(r) && -0.5 <= r - x <= 0.5
  }

  /** The smallest whole number not below `x`. */
  function Ceil(x: real): (c: int)
    ensures x <= c as real < x + 1.0
  {
    -((-x).Floor)
  }

  /** The whole number nearest to `x`; a tie goes to the even neighbour. */
  function RoundHalfEven(x: real): (r: int)
    ensures -0.5 <= r as real - x <= 0.5
    ensures r as real - x == 0.5 || x - r as real == 0.5 ==> r % 2 == 0
  {
    var f := x.Floor;
    var frac := x - f as real;
    if frac < 0.5 then f
    else if frac > 0.5 then f + 1
    else if f % 2 == 0 then f
    else f + 1
  }

  /** Rounding leaves whole amounts alone, and the rounded value is the
      only whole number within half a unit (when there is no tie). */
  lemma {:induction false} RoundHalfEvenNearest(x: real, n: int)
    requires -0.5 < n as real - x < 0.5
    ensures RoundHalfEven(x) == n
  {
    var r := RoundHalfEven(x);
    assert -1.0 < r as real - n as real < 1.0;
  }

  function Max(a: real, b: real): (m: real)
    ensures m >= a && m >= b && (m == a || m == b)
  {
    if a >= b then a else b
  }

  function Abs(x: real): (m: real)
    ensures m >= 0.0 && (m == x || m == -x)
  {
    if x >= 0.0 then x else -x
  }
}
