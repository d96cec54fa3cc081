/** What the pattern evaluator promises: the range of the wrap, periodicity,
    the mirror symmetry of the folded styles, and the shape of the
    trig-free and composite styles. */
module PatternProperties {
  import opened Numerics
  import opened Rosette
  import opened Patterns

  /** Shifting by a whole number, or negating, keeps a number whole or not whole. */
  lemma IntegralShift(x: real, k: int)
    ensures IsIntegral(x) <==> IsIntegral(x + k as real)
    ensures IsIntegral(x) <==> IsIntegral(k as real - x)
  {
    assert (x + k as real).Floor == x.Floor + k;
    if IsIntegral(x) {
      assert k as real - x == (k - x.Floor) as real;
    }
    if IsIntegral(k as real - x) {
      assert x == (k - (k as real - x).Floor) as real;
    }
  }

  /** A whole number wraps to 0 when it is at most 0 and to 1 otherwise; any
      other number wraps strictly inside (0,1). */
  lemma WrapEnds(n: real)
    ensures IsIntegral(n) ==> Wrap(n) == if n <= 0.0 then 0.0 else 1.0
    ensures !IsIntegral(n) ==> 0.0 < Wrap(n) < 1.0
  {
    var w := Wrap(n);
    var j := (w - n).Floor;
    assert w == n + j as real;
    if IsIntegral(n) {
      var d := n.Floor + j;
      assert w == d as real;
      if n <= 0.0 {
        assert n < 0.0 ==> w < 1.0;
      } else {
        assert n > 1.0 ==> 0.0 < w;
      }
    } else {
      IntegralShift(n, j);
      assert IsIntegral(0.0) && IsIntegral(1.0);
    }
  }

  /** Shifting a number that is not whole by a whole number does not change
      where it wraps to. */
  lemma WrapPeriodic(n: real, k: int)
    requires !IsIntegral(n)
    ensures Wrap(n + k as real) == Wrap(n)
  {
    var m := n + k as real;
    IntegralShift(n, k);
    WrapEnds(n);
    WrapEnds(m);
    var w1, w2 := Wrap(n), Wrap(m);
    var j1, j2 := (w1 - n).Floor, (w2 - m).Floor;
    assert w1 == n + j1 as real;
    assert w2 == n + (k + j2) as real;
    var d := k + j2 - j1;
    assert w2 - w1 == d as real;
    assert -1 < d < 1;
  }

  /** Mirroring a number that is not whole mirrors where it wraps to. */
  lemma WrapMirror(n: real)
    requires !IsIntegral(n)
    ensures Wrap(1.0 - n) == 1.0 - Wrap(n)
  {
    var m := 1.0 - n;
    IntegralShift(n, 1);
    WrapEnds(n);
    WrapEnds(m);
    var w1, w2 := Wrap(n), Wrap(m);
    var j1, j2 := (w1 - n).Floor, (w2 - m).Floor;
    assert w1 == n + j1 as real;
    assert w2 == 1.0 - n + j2 as real;
    var d := 1 + j2 + j1 - 1;
    assert w2 - (1.0 - w1) == d as real;
    assert -1 < d < 1;
  }

  /** The fold is the symmetric tent over [0,1]: 0 at both ends, 1 in the
      middle, and the same at t and 1 - t. */
  lemma FoldIsTent(t: real)
    requires 0.0 <= t <= 1.0
    ensures Fold(t) == 1.0 - (if 2.0 * t - 1.0 >= 0.0 then 2.0 * t - 1.0 else 1.0 - 2.0 * t)
    ensures 0.0 <= Fold(t) <= 1.0
    ensures Fold(1.0 - t) == Fold(t)
  {
  }

  /** The styles built on the fold see the same folded input at n and 1 - n. */
  lemma FoldedInputMirror(n: real)
    ensures Fold(Wrap(1.0 - n)) == Fold(Wrap(n))
  {
    if IsIntegral(n) {
      WrapEnds(n);
      IntegralShift(n, 1);
      WrapEnds(1.0 - n);
    } else {
      WrapMirror(n);
      FoldIsTent(Wrap(n));
    }
  }

  /** HEART, LOTUS and TRIANGLE are mirror symmetric about the middle of the
      repeat, at every input. */
  lemma FoldedStylesSymmetric(lib: MathLib, st: Style, rpt: int, n: real)
    requires rpt >= 1
    requires st == HEART || st == LOTUS || st == TRIANGLE
    ensures Value(lib, st, rpt, 1.0 - n) == Value(lib, st, rpt, n)
  {
    FoldedInputMirror(n);
  }

  /** TRIANGLE is the tent 1 - |2t - 1| over one repeat: 0 at the seam,
      1 half way. */
  lemma TriangleIsTent(lib: MathLib, rpt: int, t: real)
    requires rpt >= 1 && 0.0 <= t <= 1.0
    ensures Value(lib, TRIANGLE, rpt, t)
      == 1.0 - (if 2.0 * t - 1.0 >= 0.0 then 2.0 * t - 1.0 else 1.0 - 2.0 * t)
    ensures Value(lib, TRIANGLE, rpt, 0.0) == 0.0
    ensures Value(lib, TRIANGLE, rpt, 1.0) == 0.0
    ensures Value(lib, TRIANGLE, rpt, 0.5) == 1.0
  {
    FoldIsTent(t);
  }

  /** INDEX is a unit impulse at the seam: 1 exactly at whole numbers, 0
      everywhere else. */
  lemma IndexImpulse(lib: MathLib, rpt: int, n: real)
    requires rpt >= 1
    ensures Value(lib, INDEX, rpt, n) == 1.0 <==> IsIntegral(n)
    ensures Value(lib, INDEX, rpt, n) == 0.0 <==> !IsIntegral(n)
  {
    WrapEnds(n);
  }

  /** NONE never deflects the cutter. */
  lemma NoneIsFlat(lib: MathLib, rpt: int, n: real)
    requires rpt >= 1
    ensures Value(lib, NONE, rpt, n) == 0.0
  {
  }

  /** The styles whose value is the same at both ends of a repeat, even
      with the library's trigonometry left abstract. */
  predicate SeamlessStyle(st: Style)
  {
    st == NONE || st == INDEX || st == TRIANGLE || st == HEART || st == LOTUS || st == TUDOR
  }

  /** TUDOR is clipped by five times TRIANGLE and by its double-frequency
      sine, and so is 0 at the seam. */
  lemma TudorClipped(lib: MathLib, rpt: int, n: real)
    requires rpt >= 1
    ensures Value(lib, TUDOR, rpt, n) <= 5.0 * Value(lib, TRIANGLE, rpt, n)
    ensures Value(lib, TUDOR, rpt, n) <= 0.5 + 0.5 * lib.cos(2.0 * Wrap(n) * 2.0 * PI)
    ensures Value(lib, TUDOR, rpt, n) == 5.0 * Value(lib, TRIANGLE, rpt, n)
         || Value(lib, TUDOR, rpt, n) == 0.5 + 0.5 * lib.cos(2.0 * Wrap(n) * 2.0 * PI)
    ensures IsIntegral(n) ==> Value(lib, TUDOR, rpt, n) == 0.0
  {
    var t := Wrap(n);
    assert Wrap(t) == t;
    assert Value(lib, TRIANGLE, rpt, t) == Value(lib, TRIANGLE, rpt, n);
    if IsIntegral(n) {
      WrapEnds(n);
    }
  }

  /** getValue reads its input only through the wrap. */
  lemma ValueOfWrapped(lib: MathLib, st: Style, rpt: int, n: real, m: real)
    requires rpt >= 1 && Wrap(n) == Wrap(m)
    ensures Value(lib, st, rpt, n) == Value(lib, st, rpt, m)
  {
    match st
    case BIGSMALL | BIGSMALL_ =>
      var (r, u) := BigSmallCall(rpt, Wrap(n));
      BigSmallValue(lib, rpt, n, r, u);
      BigSmallValue(lib, rpt, m, r, u);
    case _ =>
  }

  /** A seamless style has the same value at every whole number. */
  lemma SeamValue(lib: MathLib, st: Style, rpt: int, n: real)
    requires rpt >= 1 && IsIntegral(n) && SeamlessStyle(st)
    ensures Value(lib, st, rpt, n) == Value(lib, st, rpt, 0.0)
  {
    WrapEnds(n);
    WrapEnds(0.0);
    if st == TUDOR {
      TudorClipped(lib, rpt, n);
      TudorClipped(lib, rpt, 0.0);
    }
  }

  /** Every style repeats with period one away from the seam, and the
      seamless styles repeat at the seam too. */
  lemma ValuePeriodic(lib: MathLib, st: Style, rpt: int, n: real, k: int)
    requires rpt >= 1
    requires !IsIntegral(n) || SeamlessStyle(st)
    ensures Value(lib, st, rpt, n + k as real) == Value(lib, st, rpt, n)
  {
    var m := n + k as real;
    if !IsIntegral(n) {
      WrapPeriodic(n, k);
      ValueOfWrapped(lib, st, rpt, m, n);
    } else {
      IntegralShift(n, k);
      SeamValue(lib, st, rpt, n);
      SeamValue(lib, st, rpt, m);
    }
  }

  /** BIGSMALL and BIGSMALL_ call FLOWER with an argument in [0,1], and with
      a repeat of at least 3 whenever the pattern's own repeat is at least 2. */
  lemma BigSmallCallInRange(rpt: int, t: real)
    requires rpt >= 1 && 0.0 <= t <= 1.0
    ensures BigSmallCall(rpt, t).0 >= 1
    ensures rpt >= 2 ==> BigSmallCall(rpt, t).0 >= 3
    ensures 0.0 <= BigSmallCall(rpt, t).1 <= 1.0
  {
  }
}
