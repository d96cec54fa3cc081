/** Pattern: a style with a repeat count, and the evaluator that maps a
    fraction of one repeat to a normalised cutter deflection. */
module Patterns {
  import opened Numerics
  import opened Rosette

  /** The smallest repeat a style accepts. */
  function MinRepeat(st: Style): (m: int)
    ensures 1 <= m <= 3
  {
    match st
    case NSIDE | FLOWER => 3
    case BIGSMALL | BIGSMALL_ | TRIANGLE => 2
    case _ => 1
  }

  /** The repeat that setRepeat(n) stores under style st. */
  function ClampRepeat(st: Style, n: int): (r: int)
    ensures RepeatFits(st, r)
    ensures r == n || r == MinRepeat(st)
  {
    if st == NONE then 1
    else if n < MinRepeat(st) then MinRepeat(st)
    else n
  }

  /** A repeat that the style accepts as it is. */
  predicate RepeatFits(st: Style, n: int)
  {
    n >= MinRepeat(st) && (st == NONE ==> n == 1)
  }

  /** Clamping never rejects: it raises n to the style's minimum, except that
      NONE forces exactly 1. */
  lemma ClampRepeatIsMax(st: Style, n: int)
    ensures RepeatFits(st, ClampRepeat(st, n))
    ensures st != NONE ==> ClampRepeat(st, n) == if n >= MinRepeat(st) then n else MinRepeat(st)
    ensures st != NONE ==> (ClampRepeat(st, n) == n <==> n >= MinRepeat(st))
    ensures st == NONE ==> ClampRepeat(st, n) == 1
  {
  }

  /** A repeat that already fits is stored unchanged, so setRepeat(getRepeat())
      and setStyle(getStyle()) leave a pattern as it was. */
  lemma ClampRepeatFixesFit(st: Style, n: int)
    ensures ClampRepeat(st, n) == n <==> RepeatFits(st, n)
  {
  }

  /** The wrap step of getValue: n shifted by a whole number into the closed
      interval [0,1]. A value below 0 lands in [0,1), a value above 1 in (0,1]. */
  function Wrap(n: real): (w: real)
    ensures 0.0 <= w <= 1.0
    ensures IsIntegral(w - n)
    ensures 0.0 <= n <= 1.0 ==> w == n
  {
    if n < 0.0 then
      var k := CeilInt(-n);
      WholeShift(n, k);
      n + k as real
    else if n > 1.0 then
      var k := -CeilInt(n - 1.0);
      WholeShift(n, k);
      n + k as real
    else
      WholeShift(n, 0);
      n
  }

  /** The mirror shared by HEART, LOTUS and TRIANGLE: double t, then fold the
      second half back about 1. */
  function Fold(t: real): (f: real)
    ensures 0.0 <= t <= 1.0 ==> 0.0 <= f <= 1.0
  {
    if 2.0 * t > 1.0 then 2.0 - 2.0 * t else 2.0 * t
  }

  /** The styles whose value the model bounds to [0,1] for every input. */
  predicate UnitStyle(st: Style)
  {
    st == NONE || st == INDEX || st == SINE || st == TRIANGLE || st == TUDOR
  }

  /** The repeat and the argument with which BIGSMALL and BIGSMALL_ call
      FLOWER at the wrapped input t: a small flower over the first third, a
      big one over the rest. */
  function BigSmallCall(rpt: int, t: real): (int, real)
  {
    if t < 1.0 / 3.0 then (rpt * 3, t * 3.0)
    else (rpt * 3 / 2, (t - 1.0 / 3.0) * 3.0 / 2.0)
  }

  /** HEART on the folded input u. */
  function HeartShape(lib: MathLib, u: real): real
  {
    var z := lib.sin(u * 2.0 * PI);
    if u >= 0.75 then z + 1.0
    else if u > 0.25 then z + (1.0 - lib.sin(u * 2.0 * PI)) / 2.0
    else z
  }

  /** LOTUS on the folded input u: a ramp perturbed by a sine. */
  function LotusShape(lib: MathLib, u: real): (z: real)
    ensures u - 0.1 <= z <= u + 0.1
  {
    var z := lib.sin(u * 2.0 * PI);
    u + 0.1 * z
  }

  /** NSIDE: how far a regular polygon's side lies inside its circumscribed
      circle, normalised by the greatest such distance. */
  function NSideShape(lib: MathLib, rpt: int, t: real): real
    requires rpt >= 1
  {
    var alphaRad := PI / rpt as real;
    var tanTheta := lib.tan((t * 2.0 - 1.0) * alphaRad);
    var maxP := 1.0 - lib.cos(alphaRad);
    var xx := lib.cos(alphaRad);
    var yy := xx * tanTheta;
    var z := 1.0 - lib.sqrt(xx * xx + yy * yy);
    FDiv(z, maxP)
  }

  /** FLOWER: how far a circular petal bulges outside the nominal circle,
      inverted and normalised so that the petal tips give 0. */
  function FlowerShape(lib: MathLib, rpt: int, t: real): real
    requires rpt >= 1
  {
    var alphaRad := PI / rpt as real;
    var c2 := lib.sin(alphaRad);
    var tanTheta := lib.tan((t * 2.0 - 1.0) * alphaRad);
    var minS := 1.0 - lib.cos(alphaRad);
    var maxP := c2 - minS;
    var s := minS + maxP;
    var rPrime := FDiv(c2 * c2, 2.0 * s) + s / 2.0;
    var dr := (1.0 + maxP) - rPrime;
    var sec2 := 1.0 + tanTheta * tanTheta;
    var xx := (dr + lib.sqrt(dr * dr - sec2 * (dr * dr - rPrime * rPrime))) / sec2;
    var yy := xx * tanTheta;
    var z := lib.sqrt(xx * xx + yy * yy) - 1.0;
    1.0 - FDiv(z, maxP)
  }

  /** Composite styles call the evaluator on other styles; this orders them. */
  function Rank(st: Style): nat
  {
    if st == BIGSMALL || st == BIGSMALL_ || st == TUDOR then 1 else 0
  }

  /** The value of a style that does not call the evaluator again, at an
      input t already wrapped into [0,1]. The default arm of the switch is
      unreachable, since every style has an arm. */
  function Shape(lib: MathLib, st: Style, rpt: int, t: real): (z: real)
    requires rpt >= 1 && Rank(st) == 0 && 0.0 <= t <= 1.0
    ensures UnitStyle(st) ==> 0.0 <= z <= 1.0
  {
    match st
    case NONE => 0.0
    case INDEX => if t == 0.0 || t == 1.0 then 1.0 else 0.0
    case SINE => 0.5 + 0.5 * lib.cos(t * 2.0 * PI)
    case HEART => HeartShape(lib, Fold(t))
    case LOTUS => LotusShape(lib, Fold(t))
    case NSIDE => NSideShape(lib, rpt, t)
    case FLOWER => FlowerShape(lib, rpt, t)
    case TRIANGLE => Fold(t)
  }

  /** getValue(st, rpt, n): the pattern value of style st with repeat rpt at
      the fraction n of one repeat, n being wrapped into [0,1] first. The
      composite styles call it again on other styles. */
  function Value(lib: MathLib, st: Style, rpt: int, n: real): (z: real)
    requires rpt >= 1
    ensures UnitStyle(st) ==> 0.0 <= z <= 1.0
    decreases Rank(st)
  {
    var t := Wrap(n);
    match st
    case BIGSMALL =>
      var (r, u) := BigSmallCall(rpt, t);
      Value(lib, FLOWER, r, u)
    case BIGSMALL_ =>
      var (r, u) := BigSmallCall(rpt, t);
      1.0 - Value(lib, FLOWER, r, u)
    case TUDOR =>
      var z1 := 0.5 + 0.5 * lib.cos(2.0 * t * 2.0 * PI);
      var z2 := 5.0 * Value(lib, TRIANGLE, rpt, t);
      Min(z1, z2)
    case _ => Shape(lib, st, rpt, t)
  }

  class Pattern {
    var style: Style
    var repeat: int

    /** The repeat always meets the current style's minimum. */
    ghost predicate Valid()
      reads this
    {
      RepeatFits(style, repeat)
    }

    /** Pattern(st, n): setStyle(st) followed by setRepeat(n). */
    constructor (st: Style, n: int)
      ensures Valid()
      ensures style == st && repeat == ClampRepeat(st, n)
    {
      // Java reads repeat as 0 in setStyle; style is written before it is read
      style, repeat := st, 0;
      new;
      SetStyle(st);
      SetRepeat(n);
    }

    /** Changes the style and re-clamps the repeat already stored. */
    method SetStyle(st: Style)
      modifies this
      ensures Valid()
      ensures style == st && repeat == ClampRepeat(st, old(repeat))
    {
      style := st;
      SetRepeat(repeat);
    }

    /** Stores n, raised to the current style's minimum. */
    method SetRepeat(n: int)
      modifies this
      ensures Valid()
      ensures style == old(style) && repeat == ClampRepeat(style, n)
    {
      repeat := n;
      match style
      case NSIDE | FLOWER =>
        if n < 3 {
          repeat := 3;
        }
      case BIGSMALL | BIGSMALL_ | TRIANGLE =>
        if n < 2 {
          repeat := 2;
        }
      case NONE =>
        repeat := 1;
      case _ =>
        if n < 1 {
          repeat := 1;
        }
    }

    /** getValue(n): the value of this pattern at the fraction n of a repeat. */
    method GetValue(lib: MathLib, n: real) returns (z: real)
      requires Valid()
      ensures z == Value(lib, style, repeat, n)
      ensures UnitStyle(style) ==> 0.0 <= z <= 1.0
    {
      z := ValueOf(lib, style, repeat, n);
    }

    /** The two wrap loops at the head of getValue(st, rpt, n). */
    method WrapLoops(n0: real) returns (n: real)
      ensures n == Wrap(n0)
    {
      n := n0;
      ghost var k := 0;
      while n < 0.0
        invariant n == n0 + k as real
        invariant n0 < 0.0 ==> n < 1.0
        invariant n0 >= 0.0 ==> n == n0
        decreases -n.Floor
      {
        n := n + 1.0;
        k := k + 1;
      }
      while n > 1.0
        invariant n == n0 + k as real
        invariant 0.0 <= n
        invariant n0 < 0.0 ==> n < 1.0
        invariant n0 > 1.0 ==> 0.0 < n
        invariant 0.0 <= n0 <= 1.0 ==> n == n0
        decreases n.Floor
      {
        n := n - 1.0;
        k := k - 1;
      }
      WrapUnique(n0, n, k);
    }

    /** getValue(st, rpt, n): wraps n into [0,1] by whole steps, then
        dispatches on the style. The composite arms are BigSmallOf and
        TudorOf, which call getValue again; ShapeOf holds the others. */
    method ValueOf(lib: MathLib, st: Style, rpt: int, n0: real) returns (z: real)
      requires rpt >= 1
      ensures z == Value(lib, st, rpt, n0)
      decreases Rank(st), 1
    {
      var n := WrapLoops(n0);
      match st
      case BIGSMALL =>
        z := BigSmallOf(lib, rpt, n);
      case BIGSMALL_ =>
        z := BigSmallOf(lib, rpt, n);
        BigSmallInverse(lib, rpt, n);
        z := 1.0 - z;
      case TUDOR =>
        z := TudorOf(lib, rpt, n);
      case _ =>
        z := ShapeOf(lib, st, rpt, n);
    }

    /** The BIGSMALL arm at the wrapped input n: a small flower over the
        first third of the repeat and a big one over the rest. BIGSMALL_
        shares it and then takes the complement. */
    method BigSmallOf(lib: MathLib, rpt: int, n: real) returns (z: real)
      requires rpt >= 1 && 0.0 <= n <= 1.0
      ensures z == Value(lib, BIGSMALL, rpt, n)
      decreases 1, 0
    {
      var r, u;
      if n < 1.0 / 3.0 {
        r, u := rpt * 3, n * 3.0;
        z := ValueOf(lib, FLOWER, r, u);
      } else {
        r, u := rpt * 3 / 2, (n - 1.0 / 3.0) * 3.0 / 2.0;
        z := ValueOf(lib, FLOWER, r, u);
      }
      BigSmallArm(lib, rpt, n, r, u, z);
    }

    /** The TUDOR arm at the wrapped input n: a double-frequency sine clipped
        by a steep triangle. */
    method TudorOf(lib: MathLib, rpt: int, n: real) returns (z: real)
      requires rpt >= 1 && 0.0 <= n <= 1.0
      ensures z == Value(lib, TUDOR, rpt, n)
      decreases 1, 0
    {
      var z1 := 0.5 + 0.5 * lib.cos(2.0 * n * 2.0 * PI);
      var z2 := ValueOf(lib, TRIANGLE, rpt, n);
      z2 := 5.0 * z2;
      z := Min(z1, z2);
    }

    /** The arms of getValue's switch for the styles that do not call
        getValue again, at the wrapped input n. */
    method ShapeOf(lib: MathLib, st: Style, rpt: int, n0: real) returns (z: real)
      requires rpt >= 1 && Rank(st) == 0 && 0.0 <= n0 <= 1.0
      ensures z == Shape(lib, st, rpt, n0)
    {
      var n := n0;
      match st
      case NONE =>
        z := 0.0;
      case INDEX =>
        if n == 0.0 || n == 1.0 {
          z := 1.0;
        } else {
          z := 0.0;
        }
      case SINE =>
        z := 0.5 + 0.5 * lib.cos(n * 2.0 * PI);
      case HEART =>
        n := 2.0 * n;
        if n > 1.0 {
          n := 2.0 - n;
        }
        z := lib.sin(n * 2.0 * PI);
        if n >= 0.75 {
          z := z + 1.0;
        } else if n > 0.25 {
          z := z + (1.0 - lib.sin(n * 2.0 * PI)) / 2.0;
        }
      case LOTUS =>
        n := 2.0 * n;
        if n > 1.0 {
          n := 2.0 - n;
        }
        z := lib.sin(n * 2.0 * PI);
        z := n + 0.1 * z;
      case NSIDE =>
        z := NSideShape(lib, rpt, n);
      case FLOWER =>
        z := FlowerShape(lib, rpt, n);
      case TRIANGLE =>
        n := 2.0 * n;
        if n > 1.0 {
          n := 2.0 - n;
        }
        z := n;
    }
  }

  /** BIGSMALL is the FLOWER value at the repeat r and argument u that
      BigSmallCall gives for the wrapped input, and BIGSMALL_ is its
      complement. */
  lemma BigSmallValue(lib: MathLib, rpt: int, n: real, r: int, u: real)
    requires rpt >= 1
    requires (r, u) == BigSmallCall(rpt, Wrap(n))
    ensures r >= 1
    ensures Value(lib, BIGSMALL, rpt, n) == Value(lib, FLOWER, r, u)
    ensures Value(lib, BIGSMALL_, rpt, n) == 1.0 - Value(lib, FLOWER, r, u)
  {
  }

  /** A FLOWER value z read with BIGSMALL's call at n is BIGSMALL's value at n. */
  lemma BigSmallArm(lib: MathLib, rpt: int, n: real, r: int, u: real, z: real)
    requires rpt >= 1 && 0.0 <= n <= 1.0
    requires (r, u) == BigSmallCall(rpt, n) && r >= 1 && z == Value(lib, FLOWER, r, u)
    ensures z == Value(lib, BIGSMALL, rpt, n)
  {
    BigSmallValue(lib, rpt, n, r, u);
  }

  /** BIGSMALL_ is the complement of BIGSMALL at every input. */
  lemma BigSmallInverse(lib: MathLib, rpt: int, n: real)
    requires rpt >= 1
    ensures Value(lib, BIGSMALL_, rpt, n) == 1.0 - Value(lib, BIGSMALL, rpt, n)
  {
    var (r, u) := BigSmallCall(rpt, Wrap(n));
    BigSmallValue(lib, rpt, n, r, u);
  }

  /** The result of the wrap loops is Wrap(n0): below 0 the loops stop in
      [0,1), above 1 in (0,1], both a whole number k away from n0. */
  lemma WrapUnique(n0: real, n: real, k: int)
    requires n == n0 + k as real
    requires 0.0 <= n <= 1.0
    requires n0 < 0.0 ==> n < 1.0
    requires n0 > 1.0 ==> 0.0 < n
    requires 0.0 <= n0 <= 1.0 ==> n == n0
    ensures n == Wrap(n0)
  {
    var w := Wrap(n0);
    var j := (w - n0).Floor;
    assert w == n0 + j as real;
    var d := j - k;
    assert w - n == d as real;
    if n0 < 0.0 {
      assert w < 1.0;
    } else if n0 > 1.0 {
      assert 0.0 < w;
    }
    assert -1 < d < 1;
  }
}
