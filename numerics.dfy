/** Numbers and points shared by the drawables and the rosette model.
    Java's double is modelled as real; the java.lang.Math functions that the
    model cannot compute exactly are supplied by the caller as a MathLib. */
module Numerics {

  /** A javax.vecmath.Point2d, held by value. */
  datatype Point = Point(x: real, y: real)

  datatype Option<T> = None | Some(value: T)

  /** Math.PI as a decimal literal. */
  const PI: real := 3.141592653589793

  /** The range of Math.sin and Math.cos on finite arguments. */
  type Cosine = c: real | -1.0 <= c <= 1.0

  /** The range of Math.hypot. */
  type Length = d: real | 0.0 <= d

  /** The transcendental functions of java.lang.Math used by the core.
      Only their ranges are known to the model. */
  datatype MathLib = MathLib(
    cos: real -> Cosine,
    sin: real -> Cosine,
    tan: real -> real,
    sqrt: real -> real,
    atan2: (real, real) -> real,
    hypot: (real, real) -> Length)

  function Min(a: real, b: real): (r: real)
    ensures r <= a && r <= b && (r == a || r == b)
  {
    if a <= b then a else b
  }

  function Max(a: real, b: real): (r: real)
    ensures a <= r && b <= r && (r == a || r == b)
  {
    if a >= b then a else b
  }

  /** Math.floor on a double. */
  function Floor(x: real): (r: real)
    ensures r <= x < r + 1.0
    ensures IsIntegral(r)
  {
    var k := x.Floor;
    assert (k as real).Floor == k;
    k as real
  }

  /** The whole number Math.ceil returns, as an integer. */
  function CeilInt(x: real): (k: int)
    ensures k as real - 1.0 < x <= k as real
  {
    -((-x).Floor)
  }

  /** Math.ceil on a double. */
  function Ceil(x: real): (r: real)
    ensures r - 1.0 < x <= r
    ensures IsIntegral(r)
  {
    var k := CeilInt(x);
    assert (k as real).Floor == k;
    k as real
  }

  /** True of a real with no fractional part. */
  predicate IsIntegral(x: real) {
    x.Floor as real == x
  }

  /** Adding a whole number k to n moves it by a whole number. */
  lemma WholeShift(n: real, k: int)
    ensures IsIntegral((n + k as real) - n)
  {
    assert (n + k as real) - n == k as real;
  }

  /** The (int) cast of a double, which truncates toward zero. */
  function TruncToInt(x: real): (r: int)
    ensures 0.0 <= x ==> r as real <= x < r as real + 1.0
    ensures x < 0.0 ==> r as real - 1.0 < x <= r as real
  {
    if x >= 0.0 then x.Floor else -((-x).Floor)
  }

  /** Division of doubles whose divisor is computed from the abstract
      library. The true library never makes the divisor zero where the core
      uses this; an infinite quotient cannot be a real, so zero stands for it. */
  function FDiv(a: real, b: real): (r: real)
    ensures b != 0.0 ==> r * b == a
  {
    if b == 0.0 then 0.0 else a / b
  }
}
