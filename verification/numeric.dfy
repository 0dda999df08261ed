/** Python's `round(x, n)` over exact real numbers. */
module Numeric {

  /** 10^n, as a real scale factor. */
  function Pow10(n: nat): (r: real)
    ensures r >= 1.0
  {
    if n == 0 then 1.0 else 10.0 * Pow10(n - 1)
  }

  /** The integer nearest to `y`; a tie goes to the even neighbour, as Python's `round` does. */
  function RoundHalfEven(y: real): (k: int)
    ensures -0.5 <= k as real - y <= 0.5
    ensures (k as real - y == 0.5 || y - k as real == 0.5) ==> k % 2 == 0
  {
    var f := y.Floor;
    var frac := y - f as real;
    if frac < 0.5 then f
    else if frac > 0.5 then f + 1
    else if f % 2 == 0 then f else f + 1
  }

  /** Rounding to the nearest multiple of 1/scale, ties to even. */
  function RoundTo(x: real, scale: real): real
    requires scale > 0.0
  {
    RoundHalfEven(x * scale) as real / scale
  }

  /** `round(x, digits)`: the nearest multiple of 10^-digits, ties to even. */
  function Round(x: real, digits: nat): real {
    RoundTo(x, Pow10(digits))
  }

  lemma RoundToError(x: real, scale: real)
    requires scale > 0.0
    ensures -0.5 <= (RoundTo(x, scale) - x) * scale <= 0.5
  {
    var y := x * scale;
    var k := RoundHalfEven(y);
    calc {
      (RoundTo(x, scale) - x) * scale;
      (k as real / scale - x) * scale;
      k as real / scale * scale - x * scale;
      { assert k as real / scale * scale == k as real; }
      k as real - y;
    }
  }

  /** Rounding moves a value by at most half a unit in the last kept place. */
  lemma RoundError(x: real, digits: nat)
    ensures -0.5 <= (Round(x, digits) - x) * Pow10(digits) <= 0.5
  {
    RoundToError(x, Pow10(digits));
  }

  /** Zero rounds to zero; so a rounded field is zero only when the value is within half a unit of zero. */
  lemma RoundZero(x: real, digits: nat)
    ensures Round(0.0, digits) == 0.0
    ensures Round(x, digits) == 0.0 ==> -0.5 <= x * Pow10(digits) <= 0.5
  {
    assert RoundHalfEven(0.0 * Pow10(digits)) == 0;
    RoundError(x, digits);
    var p := Pow10(digits);
    if Round(x, digits) == 0.0 {
      assert (Round(x, digits) - x) * p == -(x * p);
    }
  }
}
