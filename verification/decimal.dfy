/**
 * The arithmetic of .NET `decimal` and integer conversions that the model needs,
 * over Dafny's exact `real` and unbounded `int`.
 */
module Decimal {

  /** 10^d. */
  function Pow10(d: nat): (p: nat)
    ensures p >= 1
  {
    if d == 0 then 1 else 10 * Pow10(d - 1)
  }

  /**
   * Rounds `y` to an integer, a tie (a fractional part of exactly one half)
   * going to the even neighbour: .NET's default `MidpointRounding.ToEven`.
   */
  function RoundToEven(y: real): (r: int)
    ensures y - 0.5 <= r as real <= y + 0.5
    ensures (r as real - y == 0.5 || y - r as real == 0.5) ==> r % 2 == 0
  {
    var f := y.Floor;
    var frac := y - f as real;
    if frac < 0.5 then f
    else if frac > 0.5 then f + 1
    else if f % 2 == 0 then f
    else f + 1
  }

  /** An integral value is its own rounding. */
  lemma RoundToEvenIntegral(k: int)
    ensures RoundToEven(k as real) == k
  {
    assert (k as real).Floor == k;
  }

  /** Rounding never reverses the order of two values. */
  lemma RoundToEvenMonotone(x: real, y: real)
    requires x <= y
    ensures RoundToEven(x) <= RoundToEven(y)
  {
    var fx, fy := x.Floor, y.Floor;
    assert fx <= fy;
    if fx == fy {
      assert x - fx as real <= y - fy as real;
    }
  }

  /** `Math.Round(x, digits)` on a `decimal`: rounding to `digits` decimals, ties to even. */
  function Round(x: real, digits: nat): (r: real)
    ensures -0.5 / Scale(digits) <= r - x <= 0.5 / Scale(digits)
  {
    var y := x * Scale(digits);
    var n := RoundToEven(y);
    assert y - 0.5 <= n as real <= y + 0.5;
    RoundBoundScaled(x, n as real, Scale(digits));
    n as real / Scale(digits)
  }

  lemma RoundUnfold(x: real, digits: nat)
    ensures Round(x, digits) == RoundToEven(x * Scale(digits)) as real / Scale(digits)
  {
  }

  /** 10^d as a real. */
  function Scale(d: nat): (p: real)
    ensures p >= 1.0
  {
    Pow10(d) as real
  }

  lemma RoundBoundScaled(x: real, n: real, p: real)
    requires p >= 1.0
    requires x * p - 0.5 <= n <= x * p + 0.5
    ensures -0.5 / p <= n / p - x <= 0.5 / p
  {
    assert n / p - x == (n - x * p) / p;
  }

  /** A value that already has at most `digits` decimals is unchanged by rounding. */
  lemma RoundExact(k: int, digits: nat)
    ensures Round(k as real / Scale(digits), digits) == k as real / Scale(digits)
  {
    var x := k as real / Scale(digits);
    assert x * Scale(digits) == k as real;
    RoundToEvenIntegral(k);
    RoundUnfold(x, digits);
  }

  /** Whole numbers are unchanged by rounding, at any number of decimals. */
  lemma RoundInteger(k: int, digits: nat)
    ensures Round(k as real, digits) == k as real
  {
    var m := k * Pow10(digits);
    assert m as real == k as real * Scale(digits);
    assert m as real / Scale(digits) == k as real;
    RoundExact(m, digits);
  }

  /** Rounding is monotone. */
  lemma RoundMonotone(x: real, y: real, digits: nat)
    requires x <= y
    ensures Round(x, digits) <= Round(y, digits)
  {
    MultiplyMonotone(x, y, Scale(digits));
    RoundToEvenMonotone(x * Scale(digits), y * Scale(digits));
    DivideMonotone(RoundToEven(x * Scale(digits)) as real, RoundToEven(y * Scale(digits)) as real, Scale(digits));
    RoundUnfold(x, digits);
    RoundUnfold(y, digits);
  }

  lemma MultiplyMonotone(x: real, y: real, p: real)
    requires x <= y && p >= 0.0
    ensures x * p <= y * p
  {
    assert y * p - x * p == (y - x) * p;
  }

  lemma DivideMonotone(x: real, y: real, p: real)
    requires x <= y && p > 0.0
    ensures x / p <= y / p
  {
    assert y / p - x / p == (y - x) / p;
  }

  /**
   * C#'s integer division `a / b` for a positive divisor: the quotient
   * truncated toward zero (Dafny's own `/` is Euclidean).
   */
  function TruncDiv(a: int, b: int): int
    requires b > 0
  {
    if a >= 0 then a / b else -((-a) / b)
  }

  /** The truncated quotient times the divisor lies within one divisor of `a`, on the side of zero. */
  lemma TruncDivBounds(a: int, b: int)
    requires b > 0
    ensures var q := TruncDiv(a, b);
      && (a >= 0 ==> 0 <= q * b <= a < q * b + b)
      && (a < 0 ==> q * b - b < a <= q * b <= 0)
  {
    if a >= 0 {
      EuclideanBounds(a, b);
    } else {
      EuclideanBounds(-a, b);
      assert -((-a) / b) * b == -(((-a) / b) * b);
    }
  }

  lemma EuclideanBounds(a: nat, b: int)
    requires b > 0
    ensures 0 <= (a / b) * b <= a < (a / b) * b + b
  {
    assert a == (a / b) * b + a % b;
  }

  /** The `(int)` / `(long)` cast of a `decimal`: truncation toward zero. */
  function Truncate(x: real): (n: int)
    ensures x >= 0.0 ==> 0.0 <= n as real <= x < n as real + 1.0
    ensures x < 0.0 ==> n as real - 1.0 < x <= n as real <= 0.0
  {
    if x >= 0.0 then x.Floor else -((-x).Floor)
  }

  /** The range of C#'s 32-bit `int`. */
  const Int32Min: int := -0x8000_0000
  const Int32Max: int := 0x7FFF_FFFF

  /** The message of the `OverflowException` a `decimal`-to-`int` cast throws. */
  const Int32OverflowMessage: string := "Value was either too large or too small for an Int32."

  /** `Math.Min` on integers. */
  function Min(a: int, b: int): (m: int)
    ensures m <= a && m <= b && (m == a || m == b)
  {
    if a <= b then a else b
  }

  /** `Math.Abs` on integers. */
  function Abs(a: int): (m: nat)
    ensures m == a || m == -a
  {
    if a >= 0 then a else -a
  }
}
