/** RosetteImpl: a rose-engine rosette wheel. It holds a pattern, a
    peak-to-peak amplitude and a phase, answers amplitude queries by angle,
    and keeps a list of drawables sampled from the pattern. */
module RosetteImpls {
  import opened Numerics
  import opened Rosette
  import opened Patterns
  import opened PatternProperties

  /** The nominal (reference) radius of every rosette. */
  const NomRadius: real := 2.5

  /** The drawables of a rosette: the center mark, then one curve per repeat. */
  datatype DrawItem = CenterMark(center: Point) | Section(points: seq<Point>)

  // ---------------------------------------------------------------------
  // Angles

  /** angleCheck(a): a shifted by a whole number of turns into [0,360). */
  function Normalize(a: real): (r: real)
    ensures 0.0 <= r < 360.0
    ensures 0.0 <= a < 360.0 ==> r == a
  {
    var f := (a / 360.0).Floor;
    a - 360.0 * f as real
  }

  /** Normalize gives the only value in [0,360) a whole number of turns from a. */
  lemma NormalizeUnique(a: real, r: real, k: int)
    requires r == a + 360.0 * k as real
    requires 0.0 <= r < 360.0
    ensures r == Normalize(a)
  {
    var f := (a / 360.0).Floor;
    var d := k + f;
    assert r - Normalize(a) == 360.0 * d as real;
    assert -1 < d < 1;
  }

  /** Adding whole turns does not change the normalised angle. */
  lemma NormalizeShift(a: real, k: int)
    ensures Normalize(a + 360.0 * k as real) == Normalize(a)
  {
    var f := (a / 360.0).Floor;
    NormalizeUnique(a + 360.0 * k as real, Normalize(a), -k - f);
  }

  // ---------------------------------------------------------------------
  // The pattern as the wheel reads it

  /** pattern.getValue for a fixed style and repeat, as a function of the
      position along the pattern. The wheel only relies on two properties
      of it: that it repeats every whole unit (SameAcross) and, for the
      styles bounded to [0,1], its range (UnitRange). */
  function PatternFn(lib: MathLib, st: Style, rpt: int): real -> real
    requires rpt >= 1
  {
    x => Value(lib, st, rpt, x)
  }

  /** pat takes the same value at x and at every whole number from x. */
  ghost predicate SameAcross(pat: real -> real, x: real)
  {
    forall y :: IsIntegral(y - x) ==> pat(y) == pat(x)
  }

  /** pat stays within [0,1]. */
  ghost predicate UnitRange(pat: real -> real)
  {
    forall x :: 0.0 <= pat(x) <= 1.0
  }

  /** Away from a seam, or anywhere for a style whose ends meet, the
      pattern repeats every whole unit. */
  lemma PatternSameAcross(lib: MathLib, st: Style, rpt: int, x: real)
    requires rpt >= 1
    requires !IsIntegral(x) || SeamlessStyle(st)
    ensures SameAcross(PatternFn(lib, st, rpt), x)
  {
    forall y | IsIntegral(y - x)
      ensures Value(lib, st, rpt, y) == Value(lib, st, rpt, x)
    {
      var k := (y - x).Floor;
      assert y == x + k as real;
      ValuePeriodic(lib, st, rpt, x, k);
    }
  }

  /** The styles bounded to [0,1] give a pattern function in [0,1]. */
  lemma PatternUnitRange(lib: MathLib, st: Style, rpt: int)
    requires rpt >= 1 && UnitStyle(st)
    ensures UnitRange(PatternFn(lib, st, rpt))
  {
    forall x ensures 0.0 <= Value(lib, st, rpt, x) <= 1.0 {
    }
  }

  /** Repeating across whole units holds equally at every point a whole
      number away. */
  lemma SameAcrossShift(pat: real -> real, x: real, z: real)
    requires SameAcross(pat, x) && IsIntegral(z - x)
    ensures SameAcross(pat, z) && pat(z) == pat(x)
  {
    forall y | IsIntegral(y - z) ensures pat(y) == pat(x) {
      var k := (z - x).Floor;
      assert y - x == (y - z) + k as real;
      IntegralShift(y - z, k);
    }
  }

  // ---------------------------------------------------------------------
  // Amplitude queries

  /** Degrees of the wheel taken by one repeat of the pattern. */
  function AnglePerRepeat(rpt: int): (apr: real)
    requires rpt >= 1
    ensures 0.0 < apr
  {
    360.0 / rpt as real
  }

  /** The repeats in a turn times the degrees per repeat make a turn. */
  lemma AnglePerRepeatTurn(rpt: int)
    requires rpt >= 1
    ensures AnglePerRepeat(rpt) * rpt as real == 360.0
  {
  }

  /** Where ang falls along the pattern, measured in repeats from the seam
      and moved on by the phase: getAmplitudeAt's angle, shifted by
      anglePerRepeat * phase / 360, over anglePerRepeat. */
  function PatternPosition(rpt: int, phase: real, ang: real): real
    requires rpt >= 1
  {
    (Normalize(ang) * rpt as real + phase) / 360.0
  }

  /** The repeat window m the shifted angle falls in, by truncation. */
  function WindowIndex(rpt: int, phase: real, ang: real): int
    requires rpt >= 1
  {
    TruncToInt(PatternPosition(rpt, phase, ang))
  }

  /** partAngle / anglePerRepeat: how far into its window the shifted angle
      lies, as a fraction of the window. */
  function WindowFraction(rpt: int, phase: real, ang: real): real
    requires rpt >= 1
  {
    PatternPosition(rpt, phase, ang) - WindowIndex(rpt, phase, ang) as real
  }

  /** The pattern value getAmplitudeAt reads at ang degrees. */
  function PatternAt(pat: real -> real, rpt: int, phase: real, ang: real): real
    requires rpt >= 1
  {
    pat(WindowFraction(rpt, phase, ang))
  }

  /** getAmplitudeAt(ang): the deflection of the cutter from the nominal
      radius at ang degrees around the wheel, for the pattern pat. */
  function Amplitude(pat: real -> real, rpt: int, pToP: real, phase: real, ang: real): real
    requires rpt >= 1
  {
    pToP * PatternAt(pat, rpt, phase, ang)
  }

  /** pat is getValue of style st with repeat rpt. */
  ghost predicate ReadsPattern(pat: real -> real, lib: MathLib, st: Style, rpt: int)
  {
    rpt >= 1 && forall x {:trigger Value(lib, st, rpt, x)} :: pat(x) == Value(lib, st, rpt, x)
  }


  /** A peak-to-peak times a value in [0,1] lies between 0 and the peak-to-peak. */
  lemma ScaleUnit(p: real, v: real)
    requires 0.0 <= p && 0.0 <= v <= 1.0
    ensures 0.0 <= p * v <= p
  {
  }

  /** Dividing a shifted angle by the degrees per repeat counts repeats. */
  lemma RepeatsIn(n: real, apr: real, r: real, phase: real)
    requires 0.0 < apr && apr * r == 360.0
    ensures (n + apr * phase / 360.0) / apr == (n * r + phase) / 360.0
  {
    assert (n + apr * phase / 360.0) / apr == n / apr + phase / 360.0;
    assert n / apr == n * r / 360.0 by {
      assert n == (n * r / 360.0) * apr;
    }
  }

  /** Taking m whole windows off an angle takes m off its window count. */
  lemma WindowsOff(x: real, m: real, apr: real)
    requires 0.0 < apr
    ensures (x - m * apr) / apr == x / apr - m
  {
  }

  /** getAmplitudeAt's own steps: the normalised angle moved on by the
      phase, cut into whole windows by truncation, hands the pattern the
      window fraction. */
  lemma AmplitudeSteps(rpt: int, phase: real, ang: real, apr: real, x: real, m: int, part: real)
    requires rpt >= 1 && apr == 360.0 / rpt as real
    requires x == Normalize(ang) + apr * phase / 360.0
    requires m == TruncToInt(x / apr) && part == x - m as real * apr
    ensures m == WindowIndex(rpt, phase, ang)
    ensures part / apr == WindowFraction(rpt, phase, ang)
  {
    AnglePerRepeatTurn(rpt);
    RepeatsIn(Normalize(ang), apr, rpt as real, phase);
    assert x / apr == PatternPosition(rpt, phase, ang);
    WindowsOff(x, m as real, apr);
  }

  /** The amplitude is the peak-to-peak times the pattern value read at the
      window fraction. */
  lemma AmplitudeFromValue(pat: real -> real, rpt: int, pToP: real, phase: real, ang: real, v: real)
    requires rpt >= 1 && v == pat(WindowFraction(rpt, phase, ang))
    ensures pToP * v == Amplitude(pat, rpt, pToP, phase, ang)
  {
    assert pToP * v == pToP * PatternAt(pat, rpt, phase, ang);
  }

  /** With the phase in [0,360) the window index is between 0 and the
      repeat, and the fraction handed to the pattern lies in [0,1). */
  lemma WindowInRange(rpt: int, phase: real, ang: real)
    requires rpt >= 1 && 0.0 <= phase < 360.0
    ensures 0 <= WindowIndex(rpt, phase, ang) <= rpt
    ensures 0.0 <= WindowFraction(rpt, phase, ang) < 1.0
  {
    var n := Normalize(ang);
    var r := rpt as real;
    var nr := n * r;
    ProductBelow(n, r);
    var pos := PatternPosition(rpt, phase, ang);
    assert pos == (nr + phase) / 360.0;
    assert 0.0 <= pos < r + 1.0;
  }

  /** An angle in [0,360) times a repeat count of at least one lies in
      [0, 360 times that count). */
  lemma ProductBelow(n: real, r: real)
    requires 0.0 <= n < 360.0 && 1.0 <= r
    ensures 0.0 <= n * r < 360.0 * r
  {
    assert n * r <= 360.0 * r - (360.0 - n) * r;
  }

  /** The window fraction is a whole number away from the pattern position. */
  lemma FractionOffPosition(rpt: int, phase: real, ang: real)
    requires rpt >= 1
    ensures IsIntegral(PatternPosition(rpt, phase, ang) - WindowFraction(rpt, phase, ang))
  {
    var m := WindowIndex(rpt, phase, ang);
    var d := PatternPosition(rpt, phase, ang) - WindowFraction(rpt, phase, ang);
    assert d == m as real;
    assert d.Floor == m;
  }

  /** The pattern value read at ang is the pattern at the position of ang:
      the cut into windows changes nothing where the pattern repeats across
      whole units. */
  lemma PatternAtPosition(pat: real -> real, rpt: int, phase: real, ang: real)
    requires rpt >= 1
    requires SameAcross(pat, PatternPosition(rpt, phase, ang))
    ensures PatternAt(pat, rpt, phase, ang) == pat(PatternPosition(rpt, phase, ang))
  {
    var pos := PatternPosition(rpt, phase, ang);
    var w := WindowFraction(rpt, phase, ang);
    FractionOffPosition(rpt, phase, ang);
    IntegralShift(pos - w, 0);
    assert w - pos == 0 as real - (pos - w);
  }

  /** For a non-negative peak-to-peak and a pattern bounded to [0,1], the
      amplitude lies in [0, pToP]. */
  lemma AmplitudeRange(pat: real -> real, rpt: int, pToP: real, phase: real, ang: real)
    requires rpt >= 1 && UnitRange(pat) && 0.0 <= pToP
    ensures 0.0 <= Amplitude(pat, rpt, pToP, phase, ang) <= pToP
  {
    ScaleUnit(pToP, PatternAt(pat, rpt, phase, ang));
  }

  /** Whole turns of the wheel do not change the amplitude. */
  lemma AmplitudePeriodic(pat: real -> real, rpt: int, pToP: real, phase: real, ang: real, k: int)
    requires rpt >= 1
    ensures Amplitude(pat, rpt, pToP, phase, ang + 360.0 * k as real)
      == Amplitude(pat, rpt, pToP, phase, ang)
  {
    NormalizeShift(ang, k);
    var a2 := ang + 360.0 * k as real;
    assert PatternPosition(rpt, phase, a2) == PatternPosition(rpt, phase, ang);
    assert WindowFraction(rpt, phase, a2) == WindowFraction(rpt, phase, ang);
    assert pToP * PatternAt(pat, rpt, phase, a2) == pToP * PatternAt(pat, rpt, phase, ang);
  }

  /** Counting in repeats an angle moved by one repeat and back by j turns. */
  lemma TurnsToRepeats(n: real, apr: real, r: real, j: real)
    requires apr * r == 360.0
    ensures (n + apr - 360.0 * j) * r == n * r + 360.0 - 360.0 * (j * r)
  {
  }

  /** One repeat further round the wheel is a whole number of repeats
      further along the pattern. */
  lemma PositionAfterRepeat(rpt: int, phase: real, ang: real)
    requires rpt >= 1
    ensures IsIntegral(PatternPosition(rpt, phase, ang + AnglePerRepeat(rpt)) - PatternPosition(rpt, phase, ang))
  {
    var apr := AnglePerRepeat(rpt);
    AnglePerRepeatTurn(rpt);
    var a2 := ang + apr;
    var f1, f2 := (ang / 360.0).Floor, (a2 / 360.0).Floor;
    var j := f2 - f1;
    var n1, n2 := Normalize(ang), Normalize(a2);
    assert n2 == n1 + apr - 360.0 * j as real;
    TurnsToRepeats(n1, apr, rpt as real, j as real);
    var k := 1 - j * rpt;
    var d := PatternPosition(rpt, phase, a2) - PatternPosition(rpt, phase, ang);
    assert d == k as real;
    assert d.Floor == k;
  }

  /** Turning the wheel by one repeat does not change the amplitude: the
      rosette has rpt-fold rotational symmetry. */
  lemma AmplitudeRotation(pat: real -> real, rpt: int, pToP: real, phase: real, ang: real)
    requires rpt >= 1
    requires SameAcross(pat, PatternPosition(rpt, phase, ang))
    ensures Amplitude(pat, rpt, pToP, phase, ang + AnglePerRepeat(rpt))
      == Amplitude(pat, rpt, pToP, phase, ang)
  {
    var a2 := ang + AnglePerRepeat(rpt);
    var p1, p2 := PatternPosition(rpt, phase, ang), PatternPosition(rpt, phase, a2);
    PositionAfterRepeat(rpt, phase, ang);
    SameAcrossShift(pat, p1, p2);
    PatternAtPosition(pat, rpt, phase, ang);
    PatternAtPosition(pat, rpt, phase, a2);
    assert pToP * PatternAt(pat, rpt, phase, a2) == pToP * PatternAt(pat, rpt, phase, ang);
  }

  /** The worked example of a one-repeat SINE rosette: full deflection at
      0 degrees and none at 180, given cos 0 = 1 and cos pi = -1. */
  lemma SineScenario(lib: MathLib)
    requires lib.cos(0.0) == 1.0 && lib.cos(PI) == -1.0
    ensures Amplitude(PatternFn(lib, SINE, 1), 1, 1.0, 0.0, 0.0) == 1.0
    ensures Amplitude(PatternFn(lib, SINE, 1), 1, 1.0, 0.0, 180.0) == 0.0
  {
    assert WindowFraction(1, 0.0, 0.0) == 0.0;
    assert WindowFraction(1, 0.0, 180.0) == 0.5;
    assert 0.5 * 2.0 * PI == PI;
  }

  // ---------------------------------------------------------------------
  // Sampling

  /** nPts, the samples per curve: 360/rpt in integer division, a point
      roughly every degree. */
  function PointsPerRepeat(rpt: int): (n: int)
    requires 1 <= rpt <= 360
    ensures 1 <= n && n * rpt <= 360 < (n + 1) * rpt
  {
    360 / rpt
  }

  /** The angle of the first sample, in radians: the phase spread over the
      repeats. */
  function StartAngle(rpt: int, phase: real): real
    requires rpt >= 1
  {
    (phase / rpt as real) * PI / 180.0
  }

  /** The step between consecutive samples, in radians, for n samples per
      curve. */
  function DeltaAngle(rpt: int, n: int): real
    requires rpt >= 1 && n >= 1
  {
    (360.0 / (rpt * n) as real) * PI / 180.0
  }

  /** The angle of sample j of curve i: the accumulated angle of the loop,
      which reuses the last angle of each curve as the first of the next. */
  function SampleAngle(rpt: int, n: int, phase: real, i: int, j: int): real
    requires rpt >= 1 && n >= 1
  {
    StartAngle(rpt, phase) + (i * n + j) as real * DeltaAngle(rpt, n)
  }

  /** Where sample j of any curve reads the pattern: j/nPts. */
  function SampleFraction(n: int, j: int): real
    requires n >= 1
  {
    j as real / n as real
  }

  /** The radius of sample j of any curve. */
  function SampleRadius(pat: real -> real, n: int, pToP: real, j: int): real
    requires n >= 1
  {
    NomRadius - pToP * pat(SampleFraction(n, j))
  }

  /** The Cartesian point at radius r and angle a radians. */
  function Cartesian(lib: MathLib, r: real, a: real): Point
  {
    Point(r * lib.cos(a), r * lib.sin(a))
  }

  /** Sample j of curve i, in Cartesian coordinates. */
  function SamplePoint(lib: MathLib, pat: real -> real, rpt: int, n: int, pToP: real, phase: real, i: int, j: int): Point
    requires rpt >= 1 && n >= 1
  {
    Cartesian(lib, SampleRadius(pat, n, pToP, j), SampleAngle(rpt, n, phase, i, j))
  }

  /** The n + 1 points of curve i. */
  function SectionPoints(lib: MathLib, pat: real -> real, rpt: int, n: int, pToP: real, phase: real, i: int): (s: seq<Point>)
    requires rpt >= 1 && n >= 1
    ensures |s| == n + 1
    ensures forall j :: 0 <= j < |s| ==> s[j] == SamplePoint(lib, pat, rpt, n, pToP, phase, i, j)
  {
    seq(n + 1, j requires 0 <= j => SamplePoint(lib, pat, rpt, n, pToP, phase, i, j))
  }

  /** The first m curves, each of n + 1 points, in the order makeDrawables
      adds them. */
  function SampledCurves(lib: MathLib, pat: real -> real, rpt: int, n: int, pToP: real, phase: real, m: nat): (c: seq<DrawItem>)
    requires rpt >= 1 && n >= 1
    ensures |c| == m
    ensures forall i :: 0 <= i < m ==> c[i] == Section(SectionPoints(lib, pat, rpt, n, pToP, phase, i))
  {
    if m == 0 then [] else SampledCurves(lib, pat, rpt, n, pToP, phase, m - 1) + [Section(SectionPoints(lib, pat, rpt, n, pToP, phase, m - 1))]
  }

  /** The drawList makeDrawables builds: the center mark, then one curve of
      nPts + 1 points per repeat. */
  function DrawList(lib: MathLib, pat: real -> real, rpt: int, pToP: real, phase: real): (d: seq<DrawItem>)
    requires 1 <= rpt <= 360
    ensures |d| == rpt + 1 && d[0] == CenterMark(Point(0.0, 0.0))
    ensures forall i :: 0 <= i < rpt ==>
      d[i + 1] == Section(SectionPoints(lib, pat, rpt, PointsPerRepeat(rpt), pToP, phase, i))
  {
    [CenterMark(Point(0.0, 0.0))] + SampledCurves(lib, pat, rpt, PointsPerRepeat(rpt), pToP, phase, rpt)
  }

  /** The radius makeDrawables computes from the pattern value v read for
      sample j is that sample's radius. */
  lemma RadiusFromValue(pat: real -> real, n: int, pToP: real, j: int, v: real, r: real)
    requires n >= 1
    requires v == pat(SampleFraction(n, j)) && r == NomRadius - pToP * v
    ensures r == SampleRadius(pat, n, pToP, j)
  {
    assert pToP * v == pToP * pat(SampleFraction(n, j));
  }

  /** Curve 0 starts at phase/rpt degrees, consecutive samples are one step
      apart, and the last sample of a curve is at the angle of the first
      sample of the next. */
  lemma SampleAngles(rpt: int, n: int, phase: real, i: int, j: int)
    requires rpt >= 1 && n >= 1
    ensures SampleAngle(rpt, n, phase, 0, 0) * 180.0 / PI == phase / rpt as real
    ensures SampleAngle(rpt, n, phase, i, j + 1) == SampleAngle(rpt, n, phase, i, j) + DeltaAngle(rpt, n)
    ensures SampleAngle(rpt, n, phase, i, n) == SampleAngle(rpt, n, phase, i + 1, 0)
  {
    assert (i * n + j + 1) as real * DeltaAngle(rpt, n)
      == (i * n + j) as real * DeltaAngle(rpt, n) + DeltaAngle(rpt, n);
    assert i * n + n == (i + 1) * n;
  }

  /** makeDrawables' step from curve i to curve i + 1: the inner loop leaves
      the angle one step past the last point, and one step back is the first
      point of the next curve. */
  lemma NextCurveAngle(rpt: int, n: int, phase: real, i: int, a: real, d: real)
    requires rpt >= 1 && n >= 1
    requires a == SampleAngle(rpt, n, phase, i, n + 1) && d == DeltaAngle(rpt, n)
    ensures a - d == SampleAngle(rpt, n, phase, i + 1, 0)
  {
    SampleAngles(rpt, n, phase, i, n);
  }

  /** The samples of all the curves cover exactly one turn of the wheel. */
  lemma SamplesCloseTurn(rpt: int, n: int, phase: real)
    requires rpt >= 1 && n >= 1
    ensures SampleAngle(rpt, n, phase, rpt - 1, n) == SampleAngle(rpt, n, phase, 0, 0) + 2.0 * PI
  {
    var q := (rpt * n) as real;
    assert (rpt - 1) * n + n == rpt * n;
    assert q * (360.0 / q) == 360.0;
    assert q * DeltaAngle(rpt, n) == 360.0 * PI / 180.0;
  }

  /** A positive product with a positive factor has a positive other factor. */
  lemma PositiveFactor(x: real, b: real)
    requires 0.0 < b && 0.0 < x * b
    ensures 0.0 < x
  {
  }

  /** A quotient by a positive divisor, at and below the divisor. */
  lemma QuotientBelow(a: real, b: real)
    requires 0.0 < b
    ensures b / b == 1.0
    ensures 0.0 < a < b ==> 0.0 < a / b < 1.0
  {
    if 0.0 < a < b {
      var q := a / b;
      assert q * b == a;
      PositiveFactor(q, b);
      PositiveFactor(1.0 - q, b);
    }
  }

  /** Sample 0 reads the pattern at 0 and sample nPts at 1; the samples
      between read strictly inside the repeat. */
  lemma SampleFractionEnds(n: int, j: int)
    requires n >= 1
    ensures SampleFraction(n, 0) == 0.0 && SampleFraction(n, n) == 1.0
    ensures 0 < j < n ==> !IsIntegral(SampleFraction(n, j))
  {
    var t := SampleFraction(n, j);
    QuotientBelow(j as real, n as real);
    if 0 < j < n {
      assert 0.0 < t < 1.0;
      assert t.Floor == 0;
    }
  }

  /** Where the pattern's ends meet, the last point of each curve is the
      first point of the next, so the drawn outline has no gaps. */
  lemma SectionsJoin(lib: MathLib, pat: real -> real, rpt: int, n: int, pToP: real, phase: real, i: int)
    requires rpt >= 1 && n >= 1 && pat(1.0) == pat(0.0)
    ensures SectionPoints(lib, pat, rpt, n, pToP, phase, i)[n]
      == SectionPoints(lib, pat, rpt, n, pToP, phase, i + 1)[0]
  {
    SampleAngles(rpt, n, phase, i, 0);
    SampleFractionEnds(n, 0);
    assert SampleRadius(pat, n, pToP, n) == SampleRadius(pat, n, pToP, 0);
  }

  /** For a non-negative peak-to-peak and a pattern bounded to [0,1], every
      sample lies between nomRadius - pToP and nomRadius: the cutter is only
      ever pushed inward. */
  lemma SampleRadiusRange(pat: real -> real, n: int, pToP: real, j: int)
    requires n >= 1 && UnitRange(pat) && 0.0 <= pToP
    ensures NomRadius - pToP <= SampleRadius(pat, n, pToP, j) <= NomRadius
  {
    ScaleUnit(pToP, pat(SampleFraction(n, j)));
  }

  /** Counting in repeats an angle of t repeats turned back by phase/r
      degrees and by c turns. */
  lemma BackTurn(t: real, apr: real, r: real, phase: real, c: real)
    requires 0.0 < r && apr * r == 360.0
    ensures ((t * apr - phase / r - 360.0 * c) * r + phase) / 360.0 == t - c * r
  {
    assert (phase / r) * r == phase;
  }

  /** The angle getAmplitudeAt is asked about to find the value drawn t
      repeats round: t repeats of angle, turned back by phase/rpt degrees. */
  function QueryAngle(rpt: int, phase: real, t: real): real
    requires rpt >= 1
  {
    t * AnglePerRepeat(rpt) - phase / rpt as real
  }

  /** The query angle for t lies a whole number of repeats from t along the
      pattern. */
  lemma PositionTurnedBack(rpt: int, phase: real, t: real)
    requires rpt >= 1
    ensures IsIntegral(PatternPosition(rpt, phase, QueryAngle(rpt, phase, t)) - t)
  {
    AnglePerRepeatTurn(rpt);
    var c := (QueryAngle(rpt, phase, t) / 360.0).Floor;
    assert Normalize(QueryAngle(rpt, phase, t)) == QueryAngle(rpt, phase, t) - 360.0 * c as real;
    BackTurn(t, AnglePerRepeat(rpt), rpt as real, phase, c as real);
    var k := c * rpt;
    assert k as real == c as real * rpt as real;
    var d := PatternPosition(rpt, phase, QueryAngle(rpt, phase, t)) - t;
    assert d == (-k) as real;
    assert d.Floor == -k;
  }

  /** Where the pattern repeats across whole units, the value read at ang
      is the pattern at any t a whole number away from the position of ang. */
  lemma PatternAtShifted(pat: real -> real, rpt: int, phase: real, ang: real, t: real)
    requires rpt >= 1
    requires SameAcross(pat, t) && IsIntegral(PatternPosition(rpt, phase, ang) - t)
    ensures PatternAt(pat, rpt, phase, ang) == pat(t)
  {
    SameAcrossShift(pat, t, PatternPosition(rpt, phase, ang));
    PatternAtPosition(pat, rpt, phase, ang);
  }

  /** Where the pattern repeats across whole units, the amplitude query at
      i + t repeats round, turned back by ph/rpt degrees, reads the pattern
      at t. */
  lemma QueryReadsPattern(pat: real -> real, rpt: int, ph: real, t: real, i: int)
    requires rpt >= 1 && SameAcross(pat, t)
    ensures PatternAt(pat, rpt, ph, QueryAngle(rpt, ph, i as real + t)) == pat(t)
  {
    var a := QueryAngle(rpt, ph, i as real + t);
    PositionTurnedBack(rpt, ph, i as real + t);
    var d := PatternPosition(rpt, ph, a) - (i as real + t);
    IntegralShift(d, i);
    assert d + i as real == PatternPosition(rpt, ph, a) - t;
    PatternAtShifted(pat, rpt, ph, a, t);
  }

  /** The angle in degrees at which makeDrawables draws sample j of curve i:
      phase/rpt degrees, then one step of 360/(rpt * nPts) degrees per
      sample. */
  function DrawnAngle(rpt: int, n: int, phase: real, i: int, j: int): (d: real)
    requires rpt >= 1 && n >= 1
    ensures SampleAngle(rpt, n, phase, i, j) == d * PI / 180.0
  {
    var k := (i * n + j) as real;
    var step := 360.0 / (rpt * n) as real;
    assert (phase / rpt as real + k * step) * PI / 180.0
      == (phase / rpt as real) * PI / 180.0 + k * (step * PI / 180.0);
    phase / rpt as real + k * step
  }

  /** Sample j of curve i is drawn i + j/nPts repeats round from the
      phase's starting angle. */
  lemma DrawnAngleInRepeats(rpt: int, n: int, phase: real, i: int, j: int)
    requires rpt >= 1 && n >= 1
    ensures DrawnAngle(rpt, n, phase, i, j)
      == phase / rpt as real + (i as real + SampleFraction(n, j)) * AnglePerRepeat(rpt)
  {
    var a := 360.0 / (rpt * n) as real;
    assert a * (rpt * n) as real == 360.0;
    assert (rpt * n) as real == rpt as real * n as real;
    assert AnglePerRepeat(rpt) == a * n as real;
    assert SampleFraction(n, j) * n as real == j as real;
    assert (i as real + SampleFraction(n, j)) * (a * n as real)
      == i as real * n as real * a + (SampleFraction(n, j) * n as real) * a;
  }

  /** As written: the radius drawn at angle phi, sample j of curve i, is
      nomRadius less getAmplitudeAt(phi - 2 phase/rpt). With a zero phase
      the drawing and the amplitude query agree at every drawn angle. */
  lemma DrawnRadiusAsWritten(pat: real -> real, rpt: int, n: int, pToP: real, phase: real, i: int, j: int)
    requires rpt >= 1 && n >= 1
    requires SameAcross(pat, SampleFraction(n, j))
    ensures SampleRadius(pat, n, pToP, j)
      == NomRadius - Amplitude(pat, rpt, pToP, phase, DrawnAngle(rpt, n, phase, i, j) - 2.0 * (phase / rpt as real))
    ensures phase == 0.0 ==>
      SampleRadius(pat, n, pToP, j) == NomRadius - Amplitude(pat, rpt, pToP, phase, DrawnAngle(rpt, n, phase, i, j))
  {
    var t := SampleFraction(n, j);
    DrawnAngleInRepeats(rpt, n, phase, i, j);
    var a := QueryAngle(rpt, phase, i as real + t);
    assert DrawnAngle(rpt, n, phase, i, j) - 2.0 * (phase / rpt as real) == a;
    QueryReadsPattern(pat, rpt, phase, t, i);
    assert pToP * pat(t) == pToP * PatternAt(pat, rpt, phase, a);
  }

  /** getAmplitudeAt with the phase shift taken the other way round, so that
      a positive phase turns the pattern counter-clockwise, as makeDrawables
      turns the drawing. */
  function IntendedAmplitude(pat: real -> real, rpt: int, pToP: real, phase: real, ang: real): real
    requires rpt >= 1
  {
    Amplitude(pat, rpt, pToP, -phase, ang)
  }

  /** With the shift corrected, the radius drawn at every drawn angle is
      nomRadius less the amplitude at that angle, whatever the phase. */
  lemma DrawnRadiusIntended(pat: real -> real, rpt: int, n: int, pToP: real, phase: real, i: int, j: int)
    requires rpt >= 1 && n >= 1
    requires SameAcross(pat, SampleFraction(n, j))
    ensures SampleRadius(pat, n, pToP, j)
      == NomRadius - IntendedAmplitude(pat, rpt, pToP, phase, DrawnAngle(rpt, n, phase, i, j))
  {
    var t := SampleFraction(n, j);
    DrawnAngleInRepeats(rpt, n, phase, i, j);
    var a := QueryAngle(rpt, -phase, i as real + t);
    assert -phase / rpt as real == -(phase / rpt as real);
    assert DrawnAngle(rpt, n, phase, i, j) == a;
    QueryReadsPattern(pat, rpt, -phase, t, i);
    assert pToP * pat(t) == pToP * PatternAt(pat, rpt, -phase, a);
  }

  /** The corrected amplitude keeps the promises of the original: it agrees
      with it at phase 0, stays in [0, pToP] for a pattern in [0,1], and
      repeats every turn. */
  lemma IntendedAmplitudeProperties(pat: real -> real, rpt: int, pToP: real, phase: real, ang: real, k: int)
    requires rpt >= 1
    ensures phase == 0.0 ==> IntendedAmplitude(pat, rpt, pToP, phase, ang) == Amplitude(pat, rpt, pToP, phase, ang)
    ensures UnitRange(pat) && 0.0 <= pToP ==> 0.0 <= IntendedAmplitude(pat, rpt, pToP, phase, ang) <= pToP
    ensures IntendedAmplitude(pat, rpt, pToP, phase, ang + 360.0 * k as real)
      == IntendedAmplitude(pat, rpt, pToP, phase, ang)
  {
    if UnitRange(pat) && 0.0 <= pToP {
      AmplitudeRange(pat, rpt, pToP, -phase, ang);
    }
    AmplitudePeriodic(pat, rpt, pToP, -phase, ang, k);
  }

  /** The discrepancy on one input: TRIANGLE, one repeat, pToP 1, phase 90.
      makeDrawables draws the first point at 90 degrees on the nominal
      radius, yet getAmplitudeAt(90) reports full deflection; the corrected
      amplitude reports none. */
  lemma PhaseDirectionMismatch(lib: MathLib)
    ensures DrawnAngle(1, 360, 90.0, 0, 0) == 90.0
    ensures SampleRadius(PatternFn(lib, TRIANGLE, 1), 360, 1.0, 0) == NomRadius
    ensures Amplitude(PatternFn(lib, TRIANGLE, 1), 1, 1.0, 90.0, 90.0) == 1.0
    ensures IntendedAmplitude(PatternFn(lib, TRIANGLE, 1), 1, 1.0, 90.0, 90.0) == 0.0
  {
    assert Normalize(90.0) == 90.0;
    assert PatternPosition(1, 90.0, 90.0) == 0.5;
    assert WindowFraction(1, 90.0, 90.0) == 0.5;
    assert Value(lib, TRIANGLE, 1, 0.5) == 1.0;
    assert PatternPosition(1, -90.0, 90.0) == 0.0;
    assert WindowFraction(1, -90.0, 90.0) == 0.0;
    assert Value(lib, TRIANGLE, 1, 0.0) == 0.0;
  }

  // ---------------------------------------------------------------------
  // The wheel

  class RosetteImpl {
    /** The java.lang.Math functions of the platform. */
    const lib: MathLib
    const pattern: Pattern
    var pToP: real
    var phase: real
    var drawList: seq<DrawItem>

    /** The phase is a normalised angle, NONE forces no deflection and no
        phase, and the drawables are those of the current settings. */
    ghost predicate Valid()
      reads this, pattern
    {
      pattern.Valid() && pattern.repeat <= 360 &&
      0.0 <= phase < 360.0 &&
      (pattern.style == NONE ==> pToP == 0.0 && phase == 0.0) &&
      drawList == DrawList(lib, PatternFn(lib, pattern.style, pattern.repeat), pattern.repeat, pToP, phase)
    }

    /** RosetteImpl(st, rep, pp, ph). */
    constructor (lib: MathLib, st: Style, rep: int, pp: real, ph: real)
      requires ClampRepeat(st, rep) <= 360
      ensures Valid() && fresh(pattern) && this.lib == lib
      ensures pattern.style == st && pattern.repeat == ClampRepeat(st, rep)
      ensures pToP == (if st == NONE then 0.0 else pp)
      ensures phase == (if st == NONE then 0.0 else Normalize(ph))
    {
      this.lib := lib;
      pattern := new Pattern(st, rep);
      drawList := [];
      new;
      if pattern.style == NONE {
        pToP := 0.0;
        phase := 0.0;
      } else {
        pToP := pp;
        phase := AngleCheck(ph);
      }
      MakeDrawables();
    }

    /** RosetteImpl(): the default rosette. */
    static method MakeDefault(lib: MathLib) returns (r: RosetteImpl)
      ensures fresh(r) && fresh(r.pattern) && r.Valid()
      ensures r.pattern.style == DefaultStyle && r.pattern.repeat == DefaultRepeat
      ensures r.pToP == DefaultPToP && r.phase == DefaultPhase
    {
      r := new RosetteImpl(lib, DefaultStyle, DefaultRepeat, DefaultPToP, DefaultPhase);
    }

    /** setStyle(int s): the style at position s of the enumeration. */
    method SetStyleCode(s: int)
      requires Valid() && 0 <= s < StyleCount
      modifies this, pattern
      ensures Valid()
      ensures pattern.style == StyleAt(s) && pattern.repeat == ClampRepeat(StyleAt(s), old(pattern.repeat))
      ensures pToP == (if StyleAt(s) == NONE then 0.0 else old(pToP))
      ensures phase == (if StyleAt(s) == NONE then 0.0 else old(phase))
    {
      SetStyle(StyleAt(s));
    }

    /** setStyle(s): NONE clears the amplitude and the phase; any other
        style leaves them as they were. */
    method SetStyle(s: Style)
      requires Valid()
      modifies this, pattern
      ensures Valid()
      ensures pattern.style == s && pattern.repeat == ClampRepeat(s, old(pattern.repeat))
      ensures pToP == (if s == NONE then 0.0 else old(pToP))
      ensures phase == (if s == NONE then 0.0 else old(phase))
    {
      pattern.SetStyle(s);
      if pattern.style == NONE {
        pToP := 0.0;
        phase := 0.0;
      }
      MakeDrawables();
    }

    /** setRepeat(n): only the pattern's repeat changes. */
    method SetRepeat(n: int)
      requires Valid() && ClampRepeat(pattern.style, n) <= 360
      modifies this, pattern
      ensures Valid()
      ensures pattern.style == old(pattern.style) && pattern.repeat == ClampRepeat(pattern.style, n)
      ensures pToP == old(pToP) && phase == old(phase)
    {
      pattern.SetRepeat(n);
      MakeDrawables();
    }

    /** setPToP(p): stored as given, negatives included, unless the style
        is NONE. */
    method SetPToP(p: real)
      requires Valid()
      modifies this
      ensures Valid()
      ensures pToP == (if pattern.style == NONE then 0.0 else p)
      ensures phase == old(phase)
    {
      pToP := p;
      if pattern.style == NONE {
        pToP := 0.0;
      }
      MakeDrawables();
    }

    /** setPhase(ph): stored normalised into [0,360), unless the style is
        NONE. */
    method SetPhase(ph: real)
      requires Valid()
      modifies this
      ensures Valid()
      ensures phase == (if pattern.style == NONE then 0.0 else Normalize(ph))
      ensures pToP == old(pToP)
    {
      phase := AngleCheck(ph);
      if pattern.style == NONE {
        phase := 0.0;
      }
      MakeDrawables();
    }

    /** getAmplitudeAt(ang). */
    method GetAmplitudeAt(ang: real) returns (amp: real)
      requires pattern.Valid()
      ensures amp == Amplitude(PatternFn(lib, pattern.style, pattern.repeat), pattern.repeat, pToP, phase, ang)
    {
      var rpt, ph, pp := pattern.repeat, phase, pToP;
      var angle := AngleCheck(ang);
      var anglePerRepeat := 360.0 / rpt as real;
      angle := angle + anglePerRepeat * ph / 360.0;
      var m := TruncToInt(angle / anglePerRepeat);
      var partAngle := angle - m as real * anglePerRepeat;
      AmplitudeSteps(rpt, ph, ang, anglePerRepeat, angle, m, partAngle);
      var v := pattern.GetValue(lib, partAngle / anglePerRepeat);
      amp := pp * v;
      AmplitudeFromValue(PatternFn(lib, pattern.style, rpt), rpt, pp, ph, ang, v);
    }

    /** angleCheck(a): whole turns added or taken away until a is in [0,360). */
    static method AngleCheck(a0: real) returns (a: real)
      ensures a == Normalize(a0)
    {
      a := a0;
      ghost var k := 0;
      while a < 0.0
        invariant a == a0 + 360.0 * k as real
        decreases (-a).Floor
      {
        a := a + 360.0;
        k := k + 1;
      }
      while a >= 360.0
        invariant a == a0 + 360.0 * k as real && 0.0 <= a
        decreases a.Floor
      {
        a := a - 360.0;
        k := k - 1;
      }
      NormalizeUnique(a0, a, k);
    }

    /** makeDrawables(): rebuilds the drawList from the current settings. */
    method MakeDrawables()
      requires pattern.Valid() && pattern.repeat <= 360
      modifies this
      ensures drawList == DrawList(lib, PatternFn(lib, pattern.style, pattern.repeat), pattern.repeat, pToP, phase)
      ensures pToP == old(pToP) && phase == old(phase)
    {
      var rpt, ph, pp := pattern.repeat, phase, pToP;
      ghost var pat := PatternFn(lib, pattern.style, rpt);
      var nPts := 360 / rpt;
      assert nPts == PointsPerRepeat(rpt);
      var curves := SampleCurves(rpt, nPts, ph, pp, pat);
      drawList := [CenterMark(Point(0.0, 0.0))] + curves;
    }

    /** The outer loop of makeDrawables: curve after curve, each starting
        where the previous one ended. */
    method SampleCurves(rpt: int, nPts: int, ph: real, pp: real, ghost pat: real -> real)
      returns (curves: seq<DrawItem>)
      requires pattern.Valid() && rpt == pattern.repeat && nPts >= 1
      requires ReadsPattern(pat, lib, pattern.style, rpt)
      ensures curves == SampledCurves(lib, pat, rpt, nPts, pp, ph, rpt)
    {
      var angleRad := 0.0 + (ph / rpt as real) * PI / 180.0;
      var deltaAngleRad := (360.0 / (rpt * nPts) as real) * PI / 180.0;
      curves := [];
      var i := 0;
      while i < rpt
        invariant 0 <= i <= rpt
        invariant angleRad == SampleAngle(rpt, nPts, ph, i, 0) && deltaAngleRad == DeltaAngle(rpt, nPts)
        invariant curves == SampledCurves(lib, pat, rpt, nPts, pp, ph, i)
      {
        var pts;
        pts, angleRad := SampleSection(rpt, nPts, i, angleRad, deltaAngleRad, ph, pp, pat);
        NextCurveAngle(rpt, nPts, ph, i, angleRad, deltaAngleRad);
        angleRad := angleRad - deltaAngleRad;
        assert curves + [Section(pts)] == SampledCurves(lib, pat, rpt, nPts, pp, ph, i + 1);
        curves := curves + [Section(pts)];
        i := i + 1;
      }
    }

    /** The inner loop of makeDrawables: the nPts + 1 points of curve i,
        starting from the accumulated angle; pat is the pattern's getValue. */
    method SampleSection(rpt: int, nPts: int, i: int, angle0: real, deltaAngleRad: real, ph: real, pp: real,
                         ghost pat: real -> real)
      returns (pts: seq<Point>, angleRad: real)
      requires pattern.Valid() && rpt == pattern.repeat && nPts >= 1
      requires deltaAngleRad == DeltaAngle(rpt, nPts)
      requires ReadsPattern(pat, lib, pattern.style, rpt)
      requires angle0 == SampleAngle(rpt, nPts, ph, i, 0)
      ensures pts == SectionPoints(lib, pat, rpt, nPts, pp, ph, i)
      ensures angleRad == SampleAngle(rpt, nPts, ph, i, nPts + 1)
    {
      var arr := new Point[nPts + 1];
      angleRad := angle0;
      var j := 0;
      while j <= nPts
        invariant 0 <= j <= nPts + 1
        invariant angleRad == SampleAngle(rpt, nPts, ph, i, j)
        invariant forall k :: 0 <= k < j ==> arr[k] == SamplePoint(lib, pat, rpt, nPts, pp, ph, i, k)
      {
        var r := SampleRadiusOf(rpt, nPts, j, pp, pat);
        arr[j] := Cartesian(lib, r, angleRad);
        SampleAngles(rpt, nPts, ph, i, j);
        angleRad := angleRad + deltaAngleRad;
        j := j + 1;
      }
      pts := arr[..];
    }

    /** The radius of point j in makeDrawables' inner loop: the nominal
        radius less pToP times the pattern value at j/nPts. */
    method SampleRadiusOf(rpt: int, nPts: int, j: int, pp: real, ghost pat: real -> real) returns (r: real)
      requires pattern.Valid() && rpt == pattern.repeat && nPts >= 1
      requires ReadsPattern(pat, lib, pattern.style, rpt)
      ensures r == SampleRadius(pat, nPts, pp, j)
    {
      var v := pattern.GetValue(lib, j as real / nPts as real);
      r := NomRadius - pp * v;
      RadiusFromValue(pat, nPts, pp, j, v, r);
    }
  }
}
