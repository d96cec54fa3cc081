# PenChuck rosette model

PenChuck simulates an ornamental-turning rose engine. Its rosette is a cam
wheel whose rim pushes the cutter in from a nominal radius. A rosette has a
**pattern** and two more settings. The pattern is a style plus a repeat count:
how many times the style occurs in one turn. The two settings are a
peak-to-peak amplitude and a phase, given in degrees of one repeat. The
rosette answers two kinds of request:

- the cutter deflection at a given angle (`getAmplitudeAt`);
- a list of drawables, rebuilt by `makeDrawables` whenever a setting changes.
  The list holds a center mark, then one curve per repeat, sampled about
  once per degree.

The drawing layer supplies two things:

- `Curve`, a polyline over an array of points, with nearest-point search,
  sub-ranges, mirroring, offsetting, a bounding box and its length;
- `BoundingBox`, which can be combined, scaled and rounded.

The project models five source files:

- `Rosette`: the style enumeration and the defaults.
- `Pattern`: the repeat clamping and the evaluator `getValue`. The evaluator
  wraps its input into one repeat, then dispatches on the style. BIGSMALL,
  BIGSMALL_ and TUDOR call it again on other styles.
- `RosetteImpl`: the settings, with their invariants, `angleCheck`,
  `getAmplitudeAt` and `makeDrawables`.
- `Curve`: the curve operations listed above.
- `Drawable.BoundingBox`.

Files:

| file | module | models |
|---|---|---|
| `numerics.dfy` | `Numerics` | points, the `java.lang.Math` functions as a parameter, floor, ceiling and `(int)` truncation |
| `rosette.dfy` | `Rosette` | the `Styles` enumeration, its ordinals and the defaults |
| `pattern.dfy` | `Patterns` | repeat clamping, the wrap, every style's formula, and the `Pattern` class |
| `pattern_properties.dfy` | `PatternProperties` | what the evaluator guarantees: wrap ends, periodicity, symmetry, impulses, the seam |
| `drawable.dfy` | `Drawables` | boxes as values and the `BoundingBox` class |
| `curve.dfy` | `Curves` | the `Curve` class over an `array<Point>`, and the functions that specify it |
| `rosette_impl.dfy` | `RosetteImpls` | the `RosetteImpl` class, the amplitude query, and the sampled drawables |

How the model is built:

- `double` is `real`.
- The trigonometric, square-root, `atan2` and `hypot` functions are the
  fields of a `MathLib` value. Every operation that uses them takes that
  value, so every result is stated for *whatever* the platform computes.
- Each Java method that loops is a Dafny `method` with its loop. Each one is
  proved equal to a function that defines its result, and the source's promises are
  then proved as lemmas about that function.
- `Curve`, `BoundingBox`, `Pattern` and `RosetteImpl` are classes, with the
  fields the Java code updates in place.

## Model

| member | source | states |
|---|---|---|
| Rosette.Ordinal | RosetteModel/src/billooms/penchuck/rosettemodel/api/Rosette.java:30-41 | every style has a position below 11 in the enumeration, and the position is 0 exactly for NONE |
| Rosette.OrdinalRoundTrip | RosetteModel/src/billooms/penchuck/rosettemodel/api/Rosette.java:30-41 | the positions 0..10 and the styles are in one-to-one correspondence, so `Styles.values()[s]` reaches every style exactly once |
| Rosette.StyleAt | RosetteModel/src/billooms/penchuck/rosettemodel/api/Rosette.java:30-41 | definition of `Styles.values()[k]`; that it inverts the ordinal is stated by OrdinalRoundTrip |
| Patterns.MinRepeat | RosetteModel/src/billooms/penchuck/rosettemodel/Pattern.java:80-102 | the smallest repeat a style accepts is between 1 and 3 |
| Patterns.ClampRepeat | RosetteModel/src/billooms/penchuck/rosettemodel/Pattern.java:78-104 | the clamped repeat fits the style and is either n itself or the style's minimum repeat |
| Patterns.ClampRepeatIsMax | RosetteModel/src/billooms/penchuck/rosettemodel/Pattern.java:78-104 | the stored repeat always fits the style; a repeat below the style's minimum is raised to the minimum, any other repeat is kept, and NONE forces 1 |
| Patterns.ClampRepeatFixesFit | RosetteModel/src/billooms/penchuck/rosettemodel/Pattern.java:78-104 | clamping leaves n unchanged exactly when n already fits the style, so re-setting the current repeat or style changes nothing |
| Patterns.Wrap | RosetteModel/src/billooms/penchuck/rosettemodel/Pattern.java:131-136 | the wrapped input lies in [0,1], differs from n by a whole number, and is n itself when n is already in [0,1] |
| Patterns.WrapUnique | RosetteModel/src/billooms/penchuck/rosettemodel/Pattern.java:131-136 | a value a whole number from n0, in [0,1], below 1 when n0 was negative and above 0 when n0 was above 1, is the wrap of n0 |
| Patterns.Fold | RosetteModel/src/billooms/penchuck/rosettemodel/Pattern.java:152-155 | folding a wrapped input about the middle keeps it in [0,1]; FoldIsTent states its shape |
| Patterns.BigSmallCall | RosetteModel/src/billooms/penchuck/rosettemodel/Pattern.java:195-201 | definition of the repeat and argument BIGSMALL hands to FLOWER; their range is stated by BigSmallCallInRange |
| Patterns.HeartShape | RosetteModel/src/billooms/penchuck/rosettemodel/Pattern.java:151-162 | definition of HEART on the folded input; no range is claimed, see Left out |
| Patterns.LotusShape | RosetteModel/src/billooms/penchuck/rosettemodel/Pattern.java:163-170 | LOTUS stays within 0.1 of the folded input, since the sine term is scaled by 0.1 |
| Patterns.NSideShape | RosetteModel/src/billooms/penchuck/rosettemodel/Pattern.java:171-180 | definition of NSIDE, with the division by maxP total; no range is claimed, see Left out |
| Patterns.FlowerShape | RosetteModel/src/billooms/penchuck/rosettemodel/Pattern.java:181-194 | definition of FLOWER, with the divisions total; no range is claimed, see Left out |
| Patterns.Shape | RosetteModel/src/billooms/penchuck/rosettemodel/Pattern.java:137-212 | for a wrapped input, NONE, INDEX, SINE and TRIANGLE give a value in [0,1] |
| Patterns.Value | RosetteModel/src/billooms/penchuck/rosettemodel/Pattern.java:129-223 | for any input, NONE, INDEX, SINE, TRIANGLE and TUDOR give a value in [0,1] |
| Patterns.BigSmallValue | RosetteModel/src/billooms/penchuck/rosettemodel/Pattern.java:195-205 | BIGSMALL is FLOWER at triple the repeat over the first third of a repeat and at one and a half times the repeat over the rest; BIGSMALL_ is one minus that |
| Patterns.BigSmallArm | RosetteModel/src/billooms/penchuck/rosettemodel/Pattern.java:197-201 | proof step for the loop method: the FLOWER value read with the arguments of either arm of BIGSMALL is BIGSMALL's value |
| Patterns.BigSmallInverse | RosetteModel/src/billooms/penchuck/rosettemodel/Pattern.java:202-204 | BIGSMALL_ is the complement of BIGSMALL at every input |
| Patterns.Pattern.constructor | RosetteModel/src/billooms/penchuck/rosettemodel/Pattern.java:36-39 | the new pattern has style st and repeat n clamped for st |
| Patterns.Pattern.SetStyle | RosetteModel/src/billooms/penchuck/rosettemodel/Pattern.java:61-64 | the style becomes st and the stored repeat is clamped again for st |
| Patterns.Pattern.SetRepeat | RosetteModel/src/billooms/penchuck/rosettemodel/Pattern.java:78-104 | the repeat becomes n clamped for the current style, and the style is unchanged |
| Patterns.Pattern.GetValue | RosetteModel/src/billooms/penchuck/rosettemodel/Pattern.java:114-116 | the result is the evaluator's value for this pattern's style and repeat, and lies in [0,1] for the bounded styles |
| Patterns.Pattern.WrapLoops | RosetteModel/src/billooms/penchuck/rosettemodel/Pattern.java:131-136 | the two loops stop at the wrap of the input |
| Patterns.Pattern.ValueOf | RosetteModel/src/billooms/penchuck/rosettemodel/Pattern.java:129-223 | the private evaluator computes the value of style st with repeat rpt at n0 |
| Patterns.Pattern.BigSmallOf | RosetteModel/src/billooms/penchuck/rosettemodel/Pattern.java:195-201 | the two recursive FLOWER calls give BIGSMALL's value |
| Patterns.Pattern.TudorOf | RosetteModel/src/billooms/penchuck/rosettemodel/Pattern.java:213-217 | the minimum of the double sine and five times TRIANGLE, the latter read through a recursive call, is TUDOR's value |
| Patterns.Pattern.ShapeOf | RosetteModel/src/billooms/penchuck/rosettemodel/Pattern.java:137-212 | the non-recursive arms of the switch compute each style's formula at the wrapped input |
| PatternProperties.WrapEnds | RosetteModel/src/billooms/penchuck/rosettemodel/Pattern.java:131-136 | a whole number wraps to 0 when it is at most 0 and to 1 when it is above 0; anything else wraps strictly inside (0,1) |
| PatternProperties.WrapPeriodic | RosetteModel/src/billooms/penchuck/rosettemodel/Pattern.java:131-136 | away from whole numbers, shifting the input by whole units does not change the wrap |
| PatternProperties.WrapMirror | RosetteModel/src/billooms/penchuck/rosettemodel/Pattern.java:131-136 | away from whole numbers, the wrap of 1 - n is 1 minus the wrap of n |
| PatternProperties.FoldIsTent | RosetteModel/src/billooms/penchuck/rosettemodel/Pattern.java:207-211 | doubling and folding back is the tent 1 - abs(2t - 1), lies in [0,1], and is symmetric about the middle |
| PatternProperties.FoldedInputMirror | RosetteModel/src/billooms/penchuck/rosettemodel/Pattern.java:152-155 | the folded wrapped input is the same at n and at 1 - n, at the seam as well |
| PatternProperties.FoldedStylesSymmetric | RosetteModel/src/billooms/penchuck/rosettemodel/Pattern.java:151-212 | HEART, LOTUS and TRIANGLE take the same value at n and at 1 - n |
| PatternProperties.TriangleIsTent | RosetteModel/src/billooms/penchuck/rosettemodel/Pattern.java:206-212 | TRIANGLE is the tent over one repeat: 0 at both ends and 1 in the middle |
| PatternProperties.IndexImpulse | RosetteModel/src/billooms/penchuck/rosettemodel/Pattern.java:141-147 | INDEX is 1 exactly at whole numbers and 0 everywhere else |
| PatternProperties.NoneIsFlat | RosetteModel/src/billooms/penchuck/rosettemodel/Pattern.java:138-140 | NONE is 0 everywhere |
| PatternProperties.TudorClipped | RosetteModel/src/billooms/penchuck/rosettemodel/Pattern.java:213-217 | TUDOR is the smaller of its double sine and five times TRIANGLE, and so is 0 at the seam |
| PatternProperties.ValueOfWrapped | RosetteModel/src/billooms/penchuck/rosettemodel/Pattern.java:129-136 | two inputs with the same wrap give the same value, whatever the style |
| PatternProperties.SeamValue | RosetteModel/src/billooms/penchuck/rosettemodel/Pattern.java:131-147 | for the styles whose two ends agree, every whole number gives the value at 0 |
| PatternProperties.ValuePeriodic | RosetteModel/src/billooms/penchuck/rosettemodel/Pattern.java:106-136 | the value repeats every whole unit: off the seam for every style, and everywhere for the styles whose ends agree |
| PatternProperties.BigSmallCallInRange | RosetteModel/src/billooms/penchuck/rosettemodel/Pattern.java:195-201 | BIGSMALL passes FLOWER a repeat of at least 1 (at least 3 once its own repeat is 2 or more) and an argument in [0,1] |
| Drawables.UnionIsLeastEnclosing | Drawables/src/billooms/penchuck/drawables/Drawable.java:49-52 | the combined box contains both boxes, is contained in every box that contains both, and does not depend on their order |
| Drawables.ScaledSize | Drawables/src/billooms/penchuck/drawables/Drawable.java:58-71 | scaling by f multiplies the width and the height by f |
| Drawables.RoundedEnclosesAndSettles | Drawables/src/billooms/penchuck/drawables/Drawable.java:76-81 | the rounded box contains the original, has whole-number corners, and rounding again changes nothing |
| Drawables.FloorCeilFixIntegral | Drawables/src/billooms/penchuck/drawables/Drawable.java:76-81 | floor and ceiling leave a whole number unchanged |
| Drawables.Width | Drawables/src/billooms/penchuck/drawables/Drawable.java:65-67 | definition of the width; ScaledSize states how scaling changes it |
| Drawables.Height | Drawables/src/billooms/penchuck/drawables/Drawable.java:69-71 | definition of the height; ScaledSize states how scaling changes it |
| Drawables.Union | Drawables/src/billooms/penchuck/drawables/Drawable.java:49-52 | the combined box contains both boxes; UnionIsLeastEnclosing adds that it is the least such box |
| Drawables.Scaled | Drawables/src/billooms/penchuck/drawables/Drawable.java:58-63 | definition of scaling; ScaledSize states that the width and height scale by f |
| Drawables.Rounded | Drawables/src/billooms/penchuck/drawables/Drawable.java:76-81 | the rounded box contains the original; RoundedEnclosesAndSettles adds whole-number corners and idempotence |
| Drawables.BoundingBox.constructor | Drawables/src/billooms/penchuck/drawables/Drawable.java:39-42 | the corners are (xmin, ymin) and (xmax, ymax) |
| Drawables.BoundingBox.Enclosing | Drawables/src/billooms/penchuck/drawables/Drawable.java:49-52 | the new box is the union of the two and contains both |
| Drawables.BoundingBox.Scale | Drawables/src/billooms/penchuck/drawables/Drawable.java:58-63 | every corner coordinate is multiplied by f in place, so the width and the height are too |
| Drawables.BoundingBox.GetWidth | Drawables/src/billooms/penchuck/drawables/Drawable.java:65-67 | the width of the box |
| Drawables.BoundingBox.GetHeight | Drawables/src/billooms/penchuck/drawables/Drawable.java:69-71 | the height of the box |
| Drawables.BoundingBox.Round | Drawables/src/billooms/penchuck/drawables/Drawable.java:76-81 | the box is rounded outward in place and still contains the old box |
| Curves.NearestIndex | Drawables/src/billooms/penchuck/drawables/Curve.java:156-171 | -1 exactly for no points; otherwise the first index whose point is at least as near as every other point |
| Curves.FirstNearestUnique | Drawables/src/billooms/penchuck/drawables/Curve.java:156-171 | there is only one first-nearest index |
| Curves.Run | Drawables/src/billooms/penchuck/drawables/Curve.java:181-200 | the run from i0 to i1 has abs(i1 - i0) + 1 points and walks up or down from i0 |
| Curves.RunIsSlice | Drawables/src/billooms/penchuck/drawables/Curve.java:186-198 | a sequence filled by either copy loop is the run |
| Curves.RunReversed | Drawables/src/billooms/penchuck/drawables/Curve.java:188-198 | swapping the two end points gives the same run reversed |
| Curves.FlippedX | Drawables/src/billooms/penchuck/drawables/Curve.java:205-210 | every point's x changes sign, y and the order are kept |
| Curves.FlipXInvolution | Drawables/src/billooms/penchuck/drawables/Curve.java:205-210 | flipping twice restores the curve |
| Curves.Neighbours | Drawables/src/billooms/penchuck/drawables/Curve.java:233-234 | the neighbours of point i are i - 1 and i + 1, held inside the curve |
| Curves.DistSq | Drawables/src/billooms/penchuck/drawables/Curve.java:141-146 | the squared distance is never negative and is 0 between a point and itself |
| Curves.OffsetPoint | Drawables/src/billooms/penchuck/drawables/Curve.java:233-243 | definition of one offset point; OffsetVertical and OffsetByZero state its two cases |
| Curves.Across | Drawables/src/billooms/penchuck/drawables/Curve.java:240-242 | moving a point across the tangent by a zero cut leaves it where it is |
| Curves.OffsetBy | Drawables/src/billooms/penchuck/drawables/Curve.java:226-246 | the offset curve has as many points as the curve |
| Curves.OffsetByZero | Drawables/src/billooms/penchuck/drawables/Curve.java:226-246 | offsetting by 0 leaves every point where it was |
| Curves.OffsetVertical | Drawables/src/billooms/penchuck/drawables/Curve.java:235-236 | where the neighbours share x, the point moves by cut along x only |
| Curves.BoxOf | Drawables/src/billooms/penchuck/drawables/Curve.java:252-273 | the box of no points is all zeros; otherwise it contains every point, and each of its four sides is reached by some point |
| Curves.PolylineLength | Drawables/src/billooms/penchuck/drawables/Curve.java:279-289 | the length of the polyline is never negative |
| Curves.PolylineLengthGrows | Drawables/src/billooms/penchuck/drawables/Curve.java:279-289 | no prefix of a polyline is longer than the whole |
| Curves.NearestIndexStep | Drawables/src/billooms/penchuck/drawables/Curve.java:161-169 | proof step for the loop method: one step of the scan keeps the first nearest: it moves to point i only when that point is strictly nearer |
| Curves.BoxOfStep | Drawables/src/billooms/penchuck/drawables/Curve.java:256-271 | proof step for the loop method: one step of the scan widens the box just enough to take point i in |
| Curves.Curve.constructor | Drawables/src/billooms/penchuck/drawables/Curve.java:40-43 | the curve holds the given array itself |
| Curves.Curve.Clear | Drawables/src/billooms/penchuck/drawables/Curve.java:108-110 | the curve gets a new empty array |
| Curves.Curve.SetPoints | Drawables/src/billooms/penchuck/drawables/Curve.java:116-118 | the curve holds the given array itself |
| Curves.Curve.NearestPoint | Drawables/src/billooms/penchuck/drawables/Curve.java:135-149 | nothing exactly when there are no points; otherwise the first nearest point, which is no farther than any point of the curve |
| Curves.Curve.IdxOfNearestPoint | Drawables/src/billooms/penchuck/drawables/Curve.java:156-171 | -1 exactly for no points; otherwise the first nearest index |
| Curves.Curve.SubsetPoints | Drawables/src/billooms/penchuck/drawables/Curve.java:181-200 | null exactly for no points; otherwise a new array holding the run between the points nearest p0 and p1, in the direction from p0 to p1 |
| Curves.Curve.CopyRun | Drawables/src/billooms/penchuck/drawables/Curve.java:186-198 | the copy loops fill a new array with the run from i0 to i1 |
| Curves.Curve.FlipX | Drawables/src/billooms/penchuck/drawables/Curve.java:205-210 | the points become the flipped points, in place |
| Curves.Curve.PtsOffsetBy | Drawables/src/billooms/penchuck/drawables/Curve.java:226-246 | a curve of at most one point returns its own array; a longer curve returns a new array with every point offset by cut |
| Curves.Curve.OffsetPts | Drawables/src/billooms/penchuck/drawables/Curve.java:216-218 | the curve's points become the offset points |
| Curves.Curve.GetBoundingBox | Drawables/src/billooms/penchuck/drawables/Curve.java:252-273 | a new box equal to the box of the points |
| Curves.Curve.GetLength | Drawables/src/billooms/penchuck/drawables/Curve.java:279-289 | the sum of the segment lengths, which is never negative |
| RosetteImpls.Normalize | RosetteModel/src/billooms/penchuck/rosettemodel/RosetteImpl.java:239-250 | the normalised angle lies in [0,360) and leaves an angle already there unchanged |
| RosetteImpls.NormalizeUnique | RosetteModel/src/billooms/penchuck/rosettemodel/RosetteImpl.java:244-250 | the only angle in [0,360) a whole number of turns from a is its normalisation |
| RosetteImpls.NormalizeShift | RosetteModel/src/billooms/penchuck/rosettemodel/RosetteImpl.java:244-250 | whole turns added to an angle do not change its normalisation |
| RosetteImpls.PatternFn | RosetteModel/src/billooms/penchuck/rosettemodel/Pattern.java:114-116 | definition of the wheel's pattern, getValue fixed to the pattern's style and repeat; PatternSameAcross and PatternUnitRange state its properties |
| RosetteImpls.PatternSameAcross | RosetteModel/src/billooms/penchuck/rosettemodel/Pattern.java:129-136 | the pattern the wheel reads repeats every whole unit, off the seam or for the styles whose ends agree |
| RosetteImpls.PatternUnitRange | RosetteModel/src/billooms/penchuck/rosettemodel/Pattern.java:106-116 | the bounded styles give the wheel a pattern in [0,1] |
| RosetteImpls.AnglePerRepeat | RosetteModel/src/billooms/penchuck/rosettemodel/RosetteImpl.java:232 | the degrees taken by one repeat are positive |
| RosetteImpls.AnglePerRepeatTurn | RosetteModel/src/billooms/penchuck/rosettemodel/RosetteImpl.java:232 | the repeat count times the degrees per repeat is one full turn of 360 degrees |
| RosetteImpls.PatternPosition | RosetteModel/src/billooms/penchuck/rosettemodel/RosetteImpl.java:231-233 | definition of the shifted angle over anglePerRepeat; AmplitudeSteps ties it to the Java steps |
| RosetteImpls.WindowIndex | RosetteModel/src/billooms/penchuck/rosettemodel/RosetteImpl.java:234 | definition of m; WindowInRange bounds it |
| RosetteImpls.WindowFraction | RosetteModel/src/billooms/penchuck/rosettemodel/RosetteImpl.java:235-236 | definition of partAngle / anglePerRepeat; WindowInRange and FractionOffPosition state its range and meaning |
| RosetteImpls.PatternAt | RosetteModel/src/billooms/penchuck/rosettemodel/RosetteImpl.java:236 | definition of the value read; PatternAtPosition and PatternAtShifted state which pattern point it is |
| RosetteImpls.Amplitude | RosetteModel/src/billooms/penchuck/rosettemodel/RosetteImpl.java:230-237 | definition of getAmplitudeAt; AmplitudeRange, AmplitudePeriodic and AmplitudeRotation state its promises |
| Numerics.TruncToInt | RosetteModel/src/billooms/penchuck/rosettemodel/RosetteImpl.java:234 | the `(int)` cast truncates toward zero: the whole number at or below a non-negative x and at or above a negative x, less than one away |
| Numerics.Floor | Drawables/src/billooms/penchuck/drawables/Drawable.java:77-78 | Math.floor gives the whole number at or below x, less than one away |
| Numerics.Ceil | Drawables/src/billooms/penchuck/drawables/Drawable.java:79-80 | Math.ceil gives the whole number at or above x, less than one away |
| Numerics.Min | Drawables/src/billooms/penchuck/drawables/Drawable.java:50-51 | Math.min is one of its arguments and no greater than either |
| Numerics.Max | Drawables/src/billooms/penchuck/drawables/Drawable.java:50-51 | Math.max is one of its arguments and no less than either |
| Numerics.FDiv | RosetteModel/src/billooms/penchuck/rosettemodel/Pattern.java:179 | for a non-zero divisor the quotient times the divisor is the dividend; zero divisors are in Left out |
| RosetteImpls.AmplitudeSteps | RosetteModel/src/billooms/penchuck/rosettemodel/RosetteImpl.java:231-235 | getAmplitudeAt's m is the repeat window of the shifted angle, and partAngle / anglePerRepeat is how far into that window it lies |
| RosetteImpls.AmplitudeFromValue | RosetteModel/src/billooms/penchuck/rosettemodel/RosetteImpl.java:236 | proof step for the loop method: pToP times the value read at the window fraction is the amplitude |
| RosetteImpls.WindowInRange | RosetteModel/src/billooms/penchuck/rosettemodel/RosetteImpl.java:234-235 | for a normalised phase, the window index is between 0 and the repeat, and the fraction is in [0,1) |
| RosetteImpls.FractionOffPosition | RosetteModel/src/billooms/penchuck/rosettemodel/RosetteImpl.java:233-235 | the window fraction is a whole number from the angle's position along the pattern |
| RosetteImpls.PatternAtPosition | RosetteModel/src/billooms/penchuck/rosettemodel/RosetteImpl.java:230-236 | where the pattern repeats, the value read is the pattern at the angle's position along the pattern |
| RosetteImpls.AmplitudeRange | RosetteModel/src/billooms/penchuck/rosettemodel/RosetteImpl.java:224-237 | for a pattern in [0,1] and a non-negative pToP, the amplitude lies in [0, pToP] |
| RosetteImpls.AmplitudePeriodic | RosetteModel/src/billooms/penchuck/rosettemodel/RosetteImpl.java:230-237 | the amplitude at ang + 360k equals the amplitude at ang |
| RosetteImpls.PositionAfterRepeat | RosetteModel/src/billooms/penchuck/rosettemodel/RosetteImpl.java:232-235 | turning by one repeat's angle moves the position along the pattern by a whole number |
| RosetteImpls.AmplitudeRotation | RosetteModel/src/billooms/penchuck/rosettemodel/RosetteImpl.java:230-237 | where the pattern repeats, turning by 360/repeat degrees leaves the amplitude unchanged |
| RosetteImpls.SineScenario | RosetteModel/src/billooms/penchuck/rosettemodel/RosetteImpl.java:230-236 | a one-repeat SINE rosette with pToP 1 deflects fully at 0 degrees and not at all at 180 |
| RosetteImpls.PointsPerRepeat | RosetteModel/src/billooms/penchuck/rosettemodel/RosetteImpl.java:259 | nPts is at least 1, and nPts curves-worth of samples fit in a turn while one more would not |
| RosetteImpls.StartAngle | RosetteModel/src/billooms/penchuck/rosettemodel/RosetteImpl.java:261 | definition of the first angle; SampleAngles states it is sample 0's angle |
| RosetteImpls.DeltaAngle | RosetteModel/src/billooms/penchuck/rosettemodel/RosetteImpl.java:262 | definition of the step; SampleAngles and SamplesCloseTurn state its effect |
| RosetteImpls.SampleAngle | RosetteModel/src/billooms/penchuck/rosettemodel/RosetteImpl.java:261-270 | definition of the accumulated angle; DrawnAngle states it in degrees |
| RosetteImpls.SampleRadius | RosetteModel/src/billooms/penchuck/rosettemodel/RosetteImpl.java:266 | definition of a sample's radius; SampleRadiusRange bounds it |
| RosetteImpls.SampleFraction | RosetteModel/src/billooms/penchuck/rosettemodel/RosetteImpl.java:266 | definition of j/nPts, where sample j reads the pattern; SampleFractionEnds states its range |
| RosetteImpls.Cartesian | RosetteModel/src/billooms/penchuck/rosettemodel/RosetteImpl.java:267 | definition of the polar-to-Cartesian point |
| RosetteImpls.SamplePoint | RosetteModel/src/billooms/penchuck/rosettemodel/RosetteImpl.java:266-267 | definition of sample j of curve i; SectionPoints collects them |
| RosetteImpls.SectionPoints | RosetteModel/src/billooms/penchuck/rosettemodel/RosetteImpl.java:264-269 | curve i has nPts + 1 points, point j at its sampled radius and angle |
| RosetteImpls.SampledCurves | RosetteModel/src/billooms/penchuck/rosettemodel/RosetteImpl.java:263-272 | the first m curves, curve i at position i |
| RosetteImpls.DrawList | RosetteModel/src/billooms/penchuck/rosettemodel/RosetteImpl.java:255-273 | the list has repeat + 1 items: the center mark at the origin, then curve i at position i + 1 |
| RosetteImpls.RadiusFromValue | RosetteModel/src/billooms/penchuck/rosettemodel/RosetteImpl.java:266 | proof step for the loop method: the radius computed from the value read for sample j is that sample's radius |
| RosetteImpls.SampleAngles | RosetteModel/src/billooms/penchuck/rosettemodel/RosetteImpl.java:261-270 | the first sample is at phase/repeat degrees, samples are one step apart, and the last sample of a curve is at the angle of the first sample of the next |
| RosetteImpls.NextCurveAngle | RosetteModel/src/billooms/penchuck/rosettemodel/RosetteImpl.java:268-270 | proof step for the loop method: stepping back once after the inner loop gives the first angle of the next curve |
| RosetteImpls.SamplesCloseTurn | RosetteModel/src/billooms/penchuck/rosettemodel/RosetteImpl.java:261-272 | the last sample of the last curve is one full turn past the first sample |
| RosetteImpls.SampleFractionEnds | RosetteModel/src/billooms/penchuck/rosettemodel/RosetteImpl.java:266 | sample 0 reads the pattern at 0, sample nPts at 1, and every sample between strictly inside the repeat |
| RosetteImpls.SectionsJoin | RosetteModel/src/billooms/penchuck/rosettemodel/RosetteImpl.java:263-272 | where the pattern's ends agree, each curve ends at the point where the next begins |
| RosetteImpls.SampleRadiusRange | RosetteModel/src/billooms/penchuck/rosettemodel/RosetteImpl.java:266 | for a pattern in [0,1] and a non-negative pToP, every sample's radius lies between nomRadius - pToP and nomRadius |
| RosetteImpls.PositionTurnedBack | RosetteModel/src/billooms/penchuck/rosettemodel/RosetteImpl.java:230-235 | the query angle for t repeats, turned back by phase/repeat degrees, is a whole number of repeats from t along the pattern |
| RosetteImpls.PatternAtShifted | RosetteModel/src/billooms/penchuck/rosettemodel/RosetteImpl.java:230-236 | where the pattern repeats, the value read at an angle is the pattern at any t a whole number from the angle's position |
| RosetteImpls.QueryAngle | RosetteModel/src/billooms/penchuck/rosettemodel/RosetteImpl.java:230-235 | definition of the angle at which getAmplitudeAt reads t repeats round; PositionTurnedBack states where that lands |
| RosetteImpls.QueryReadsPattern | RosetteModel/src/billooms/penchuck/rosettemodel/RosetteImpl.java:230-236 | where the pattern repeats, getAmplitudeAt at the query angle of i + t repeats reads the pattern at t |
| RosetteImpls.DrawnAngle | RosetteModel/src/billooms/penchuck/rosettemodel/RosetteImpl.java:261-270 | sample j of curve i is drawn at this many degrees, the radian angle of the loop times 180/pi |
| RosetteImpls.DrawnAngleInRepeats | RosetteModel/src/billooms/penchuck/rosettemodel/RosetteImpl.java:261-270 | sample j of curve i is drawn phase/repeat degrees plus i + j/nPts repeats round |
| RosetteImpls.DrawnRadiusAsWritten | RosetteModel/src/billooms/penchuck/rosettemodel/RosetteImpl.java:233 | as written, the radius drawn at angle phi is nomRadius less getAmplitudeAt(phi - 2 phase/repeat); the two agree at the drawn angle itself only for phase 0 |
| RosetteImpls.IntendedAmplitude | RosetteModel/src/billooms/penchuck/rosettemodel/RosetteImpl.java:233 | definition of getAmplitudeAt with the phase shift subtracted, so +phase turns the pattern counter-clockwise |
| RosetteImpls.DrawnRadiusIntended | RosetteModel/src/billooms/penchuck/rosettemodel/RosetteImpl.java:261-266 | with the shift subtracted, the radius drawn at every drawn angle is nomRadius less the amplitude at that angle, for every phase |
| RosetteImpls.IntendedAmplitudeProperties | RosetteModel/src/billooms/penchuck/rosettemodel/RosetteImpl.java:224-237 | the corrected amplitude equals getAmplitudeAt at phase 0, lies in [0, pToP] for a pattern in [0,1], and repeats every turn |
| RosetteImpls.PhaseDirectionMismatch | RosetteModel/src/billooms/penchuck/rosettemodel/RosetteImpl.java:233 | TRIANGLE, repeat 1, pToP 1, phase 90: the drawing puts the nominal radius at 90 degrees, getAmplitudeAt(90) reports 1, the corrected amplitude 0 |
| RosetteImpls.RosetteImpl.constructor | RosetteModel/src/billooms/penchuck/rosettemodel/RosetteImpl.java:66-78 | the pattern is st with the clamped repeat; pToP and phase are those given, the phase normalised, or both 0 for NONE; the drawables match the settings |
| RosetteImpls.RosetteImpl.MakeDefault | RosetteModel/src/billooms/penchuck/rosettemodel/RosetteImpl.java:83-85 | a valid rosette with style NSIDE, repeat 4, pToP 0.1 and phase 0 |
| RosetteImpls.RosetteImpl.SetStyleCode | RosetteModel/src/billooms/penchuck/rosettemodel/RosetteImpl.java:110-112 | setting the style by position sets the style at that position |
| RosetteImpls.RosetteImpl.SetStyle | RosetteModel/src/billooms/penchuck/rosettemodel/RosetteImpl.java:119-128 | the style changes, the repeat is clamped again, NONE zeroes pToP and phase, any other style keeps them, and the drawables are rebuilt |
| RosetteImpls.RosetteImpl.SetRepeat | RosetteModel/src/billooms/penchuck/rosettemodel/RosetteImpl.java:144-149 | only the repeat changes, clamped for the style, and the drawables are rebuilt |
| RosetteImpls.RosetteImpl.SetPToP | RosetteModel/src/billooms/penchuck/rosettemodel/RosetteImpl.java:165-173 | pToP becomes p, or 0 under NONE; the phase is kept |
| RosetteImpls.RosetteImpl.SetPhase | RosetteModel/src/billooms/penchuck/rosettemodel/RosetteImpl.java:189-197 | the phase becomes ph normalised, or 0 under NONE; pToP is kept |
| RosetteImpls.RosetteImpl.GetAmplitudeAt | RosetteModel/src/billooms/penchuck/rosettemodel/RosetteImpl.java:230-237 | the result is pToP times the pattern read at the window fraction of the phase-shifted angle |
| RosetteImpls.RosetteImpl.AngleCheck | RosetteModel/src/billooms/penchuck/rosettemodel/RosetteImpl.java:244-250 | the two loops stop at the normalised angle |
| RosetteImpls.RosetteImpl.MakeDrawables | RosetteModel/src/billooms/penchuck/rosettemodel/RosetteImpl.java:255-273 | the drawList becomes the center mark followed by one sampled curve per repeat; pToP and phase are unchanged |
| RosetteImpls.RosetteImpl.SampleCurves | RosetteModel/src/billooms/penchuck/rosettemodel/RosetteImpl.java:261-272 | the outer loop produces the repeat curves, each one starting at the angle where the previous one ended |
| RosetteImpls.RosetteImpl.SampleSection | RosetteModel/src/billooms/penchuck/rosettemodel/RosetteImpl.java:264-269 | the inner loop produces curve i's points and leaves the angle one step past its last point |
| RosetteImpls.RosetteImpl.SampleRadiusOf | RosetteModel/src/billooms/penchuck/rosettemodel/RosetteImpl.java:266 | the radius of point j is nomRadius less pToP times the pattern at j/nPts |

## Left out

- The `java.lang.Math` functions (`cos`, `sin`, `tan`, `sqrt`, `atan2`, `hypot`) are parameters. The model knows only that `cos` and `sin` lie in [-1,1] and that `hypot` is non-negative. As a result, no range is proved for the formula styles HEART, LOTUS, NSIDE and FLOWER, nor for the BIGSMALL styles built on FLOWER.
- Patterns.Value: proved to lie in [0,1] only for NONE, INDEX, SINE, TRIANGLE and TUDOR, because the bound for the other styles depends on trigonometric identities that the abstract math functions do not carry.
- `double` is modelled as exact `real`, so IEEE rounding, infinities and NaN are not modelled.
  - The Java division by zero, which would yield an infinity or NaN, becomes a total division that gives 0. This applies to FLOWER's `rPrime` and to the two normalisations by `maxP`.
  - `distance` is compared as a squared distance. Under exact arithmetic this picks the same point, but not necessarily under rounding.
- Java's 32-bit `int` is unbounded here. Overflow of the repeat and of `rpt*3` in BIGSMALL is not modelled.
- Patterns.Wrap follows the code: its loops map into the closed [0,1]. An input of 1 stays 1, and 2 becomes 1, not 0. A half-open [0,1) wrap is not what the code does. So INDEX is 1 at every whole number, and SINE/NSIDE/FLOWER/BIGSMALL agree across the seam only where their formula gives equal values at 0 and 1.
- RosetteImpls.RosetteImpl.SetStyleCode: requires 0 <= s < 11. For any other s the Java array access throws, and that exception is not modelled.
- RosetteImpls.RosetteImpl.constructor: requires that the clamped repeat is at most 360, and so do SetStyle and Valid. Above 360, `nPts` is 0, so makeDrawables divides by zero and draws NaN points, which the exact-real model cannot represent.
- RosetteImpls.RosetteImpl.SetRepeat: requires the clamped repeat to be at most 360. The Java method accepts any repeat, but above 360 `nPts` is 0 and makeDrawables divides by zero, which the exact-real model cannot represent.
- RosetteImpls.AmplitudeRange: proved only for a pattern bounded to [0,1] and a non-negative pToP. The code accepts a negative pToP, and then the amplitude lies in [pToP, 0]. The interface's claim of a value "from 0.0 to pToP" holds only in that case.
- RosetteImpls.RosetteImpl.GetAmplitudeAt: states its result through the amplitude function, and its range through AmplitudeRange. It requires only a valid pattern. It models the code as written, with the phase shift added; the corrected direction is IntendedAmplitude (see Findings).
- The window index `m` of getAmplitudeAt can equal the repeat when the phase shift carries the angle past the last window. The source's comment says it runs from 0 to repeat-1. Only the fraction is used, so the value is unaffected; WindowInRange states the true range.
- Points are values. A Java `Point2d` is a mutable object that several arrays can share. Three consequences are not modelled:
  - subsetPoints hands back the same point objects, so a later flipX of the curve also moves the subset's points;
  - nearestPoint returns a copy;
  - flipX negates each `Point2d` in place, so a point object stored in two slots of the array is flipped twice; the model flips each slot once.
- RosetteImpls.RosetteImpl.MakeDrawables: builds the new list in a local sequence and assigns it once, where the Java code clears the list and adds to it. The inner and outer loops are separate methods.
  - Each curve is the value `Section(points)`, not a `Curve` object with a colour.
  - The center mark is the value `CenterMark(origin)`, not a `Plus` object.
- Left out as presentation or I/O:
  - property-change listeners and their events;
  - `draw` and `paint`, strokes, colours and the pixel scaling (`scaleXInchToPix`, `scaleYInchToPix`);
  - `getName`, the plain getters, `getPoints` and `getSize`;
  - the unused private `aboutEqual`;
  - the colour and stroke arguments of the `Curve` constructors.
- The default pump amplitude and pump phase (`Rosette.java` lines 54-55) are not modelled, because no operation of the core reads them.
- The `Styles` display texts are not modelled; only the order of the enumeration matters to the core.

## Findings

| source | as written | input that shows it | evidently intended | confidence | as-written member | corrected member |
|---|---|---|---|---|---|---|
| RosetteModel/src/billooms/penchuck/rosettemodel/RosetteImpl.java:233 | getAmplitudeAt adds anglePerRepeat * phase / 360 to the angle, turning the pattern clockwise, while makeDrawables starts the drawing at +phase/repeat degrees (line 261) and the field comment at line 46 says +phase is counter-clockwise | TRIANGLE, repeat 1, pToP 1, phase 90: the drawing puts the nominal radius at 90 degrees, but getAmplitudeAt(90) returns 1 | subtract the shift, so that the drawn radius at every angle is nomRadius less getAmplitudeAt there, as already holds for phase 0 | medium, not executed | RosetteImpls.PhaseDirectionMismatch, RosetteImpls.DrawnRadiusAsWritten | RosetteImpls.DrawnRadiusIntended, RosetteImpls.IntendedAmplitude |
