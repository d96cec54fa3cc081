/** Curve: an ordered array of points with nearest-point search, subsets,
    mirroring, offsetting, bounding box and length. */
module Curves {
  import opened Numerics
  import opened Drawables

  /** The squared Euclidean distance. Point2d.distance is its square root,
      and the core only compares distances, so the order is the same. */
  function DistSq(p: Point, q: Point): (d: real)
    ensures 0.0 <= d
    ensures p == q ==> d == 0.0
  {
    var dx, dy := p.x - q.x, p.y - q.y;
    SquareNonNegative(dx);
    SquareNonNegative(dy);
    dx * dx + dy * dy
  }

  /** A square is never negative. */
  lemma SquareNonNegative(x: real)
    ensures 0.0 <= x * x
  {
    if x < 0.0 {
      assert x * x == (-x) * (-x);
    }
  }

  /** k is a point of s nearest to p, and no earlier point is as near. */
  predicate IsFirstNearest(s: seq<Point>, p: Point, k: int)
  {
    0 <= k < |s| &&
    (forall i :: 0 <= i < |s| ==> DistSq(s[k], p) <= DistSq(s[i], p)) &&
    (forall i :: 0 <= i < k ==> DistSq(s[k], p) < DistSq(s[i], p))
  }

  /** The index idxOfNearestPoint finds: -1 for no points, otherwise the
      first of the nearest points, scanning from the start. */
  function NearestIndex(s: seq<Point>, p: Point): (k: int)
    ensures k == -1 <==> |s| == 0
    ensures |s| > 0 ==> IsFirstNearest(s, p, k)
    decreases |s|
  {
    if |s| <= 1 then |s| - 1
    else
      var k := NearestIndex(s[..|s| - 1], p);
      assert forall i :: 0 <= i < |s| - 1 ==> s[..|s| - 1][i] == s[i];
      if DistSq(s[|s| - 1], p) < DistSq(s[k], p) then |s| - 1 else k
  }

  /** At most one index is the first nearest. */
  lemma FirstNearestUnique(s: seq<Point>, p: Point, k1: int, k2: int)
    requires IsFirstNearest(s, p, k1) && IsFirstNearest(s, p, k2)
    ensures k1 == k2
  {
    assert DistSq(s[k1], p) <= DistSq(s[k2], p) && DistSq(s[k2], p) <= DistSq(s[k1], p);
  }

  /** The points of s from index i0 to index i1 inclusive, walking up when
      i0 < i1 and down otherwise. */
  function Run(s: seq<Point>, i0: int, i1: int): (r: seq<Point>)
    requires 0 <= i0 < |s| && 0 <= i1 < |s|
    ensures |r| == (if i0 <= i1 then i1 - i0 else i0 - i1) + 1
    ensures forall k :: 0 <= k < |r| ==> r[k] == s[if i0 <= i1 then i0 + k else i0 - k]
    decreases if i0 <= i1 then i1 - i0 else i0 - i1
  {
    if i0 == i1 then [s[i0]]
    else [s[i0]] + Run(s, if i0 < i1 then i0 + 1 else i0 - 1, i1)
  }

  /** A sequence holding the points from i0 to i1 in that order is the run. */
  lemma RunIsSlice(s: seq<Point>, i0: int, i1: int, r: seq<Point>)
    requires 0 <= i0 < |s| && 0 <= i1 < |s|
    requires |r| == (if i0 <= i1 then i1 - i0 else i0 - i1) + 1
    requires i0 < i1 ==> forall m :: 0 <= m < |r| ==> r[m] == s[i0 + m]
    requires i1 <= i0 ==> forall m :: 0 <= m < |r| ==> r[m] == s[i0 - m]
    ensures r == Run(s, i0, i1)
  {
  }

  /** The run from i1 back to i0 is the run from i0 to i1 read backwards. */
  lemma {:induction false} RunReversed(s: seq<Point>, i0: int, i1: int, k: int)
    requires 0 <= i0 < |s| && 0 <= i1 < |s|
    requires 0 <= k < |Run(s, i0, i1)|
    ensures |Run(s, i1, i0)| == |Run(s, i0, i1)|
    ensures Run(s, i1, i0)[k] == Run(s, i0, i1)[|Run(s, i0, i1)| - 1 - k]
  {
  }

  /** Every x negated, every y kept. */
  function FlippedX(s: seq<Point>): (r: seq<Point>)
    ensures |r| == |s|
    ensures forall i :: 0 <= i < |s| ==> r[i] == Point(-s[i].x, s[i].y)
  {
    if s == [] then [] else [Point(-s[0].x, s[0].y)] + FlippedX(s[1..])
  }

  /** Flipping twice restores the curve. */
  lemma FlipXInvolution(s: seq<Point>)
    ensures FlippedX(FlippedX(s)) == s
  {
    assert forall i :: 0 <= i < |s| ==> FlippedX(FlippedX(s))[i] == s[i];
  }

  /** The neighbours of point i used to estimate the tangent: the points
      before and after it, clamped to the ends of a curve of n points. */
  function Neighbours(n: int, i: int): (nb: (int, int))
    requires 0 <= i < n
    ensures 0 <= nb.0 <= i <= nb.1 < n
    ensures nb.0 == (if i == 0 then 0 else i - 1)
    ensures nb.1 == (if i == n - 1 then n - 1 else i + 1)
  {
    (if i - 1 > 0 then i - 1 else 0, if i + 1 < n - 1 then i + 1 else n - 1)
  }

  /** Point i moved by cut across the local tangent. Where the neighbours
      share x the tangent is vertical and the point moves along x only. */
  function OffsetPoint(lib: MathLib, s: seq<Point>, i: int, cut: real): Point
    requires 0 <= i < |s|
  {
    var (im1, ip1) := Neighbours(|s|, i);
    if s[im1].x == s[ip1].x then Point(s[i].x + cut, s[i].y)
    else
      Across(lib, s[i], lib.atan2(s[ip1].y - s[im1].y, s[ip1].x - s[im1].x), cut)
  }

  /** p moved by cut at right angles to a tangent of direction theta. */
  function Across(lib: MathLib, p: Point, theta: real, cut: real): (q: Point)
    ensures cut == 0.0 ==> q == p
  {
    Point(p.x + cut * lib.sin(theta), p.y - cut * lib.cos(theta))
  }

  /** The points ptsOffsetBy returns for a curve of two or more points. */
  function OffsetBy(lib: MathLib, s: seq<Point>, cut: real): (r: seq<Point>)
    ensures |r| == |s|
  {
    seq(|s|, i requires 0 <= i < |s| => OffsetPoint(lib, s, i, cut))
  }

  /** A zero cut leaves every point where it is. */
  lemma OffsetByZero(lib: MathLib, s: seq<Point>)
    ensures OffsetBy(lib, s, 0.0) == s
  {
    forall i | 0 <= i < |s|
      ensures OffsetBy(lib, s, 0.0)[i] == s[i]
    {
    }
  }

  /** Where the neighbours of a point share x, the offset point is the point
      moved by cut along x. */
  lemma OffsetVertical(lib: MathLib, s: seq<Point>, cut: real, i: int)
    requires 0 <= i < |s|
    requires s[Neighbours(|s|, i).0].x == s[Neighbours(|s|, i).1].x
    ensures OffsetBy(lib, s, cut)[i] == Point(s[i].x + cut, s[i].y)
  {
  }

  /** The box with corner x and y the least and greatest over all points:
      the zero box at the origin for no points. */
  function BoxOf(s: seq<Point>): (b: Box)
    ensures |s| == 0 ==> b == Box(Point(0.0, 0.0), Point(0.0, 0.0))
    ensures forall i :: 0 <= i < |s| ==> ContainsPoint(b, s[i])
    ensures |s| > 0 ==> exists i :: 0 <= i < |s| && s[i].x == b.min.x
    ensures |s| > 0 ==> exists i :: 0 <= i < |s| && s[i].x == b.max.x
    ensures |s| > 0 ==> exists i :: 0 <= i < |s| && s[i].y == b.min.y
    ensures |s| > 0 ==> exists i :: 0 <= i < |s| && s[i].y == b.max.y
  {
    if |s| == 0 then Box(Point(0.0, 0.0), Point(0.0, 0.0))
    else if |s| == 1 then Box(s[0], s[0])
    else
      var b := BoxOf(s[..|s| - 1]);
      var p := s[|s| - 1];
      assert forall i :: 0 <= i < |s| - 1 ==> s[..|s| - 1][i] == s[i];
      Box(Point(Min(b.min.x, p.x), Min(b.min.y, p.y)), Point(Max(b.max.x, p.x), Max(b.max.y, p.y)))
  }

  /** The sum of the lengths of the segments between consecutive points. */
  function PolylineLength(lib: MathLib, s: seq<Point>): (len: real)
    ensures len >= 0.0
  {
    if |s| < 2 then 0.0
    else
      var p0, p1 := s[|s| - 2], s[|s| - 1];
      PolylineLength(lib, s[..|s| - 1]) + lib.hypot(p0.x - p1.x, p0.y - p1.y)
  }

  /** Cutting points off the end of a curve never makes it longer. */
  lemma {:induction false} PolylineLengthGrows(lib: MathLib, s: seq<Point>, j: int)
    requires 0 <= j <= |s|
    ensures PolylineLength(lib, s[..j]) <= PolylineLength(lib, s)
    decreases |s|
  {
    if j < |s| {
      assert s[..|s| - 1][..j] == s[..j];
      PolylineLengthGrows(lib, s[..|s| - 1], j);
    } else {
      assert s[..j] == s;
    }
  }

  class Curve {
    var points: array<Point>

    /** Curve(pts, ...) keeps the caller's array. */
    constructor (pts: array<Point>)
      ensures points == pts
    {
      points := pts;
    }

    /** Replaces the points by an empty array. */
    method Clear()
      modifies this
      ensures fresh(points) && points.Length == 0
    {
      points := new Point[0];
    }

    method SetPoints(pts: array<Point>)
      modifies this
      ensures points == pts
    {
      points := pts;
    }

    /** A copy of the first point nearest to p, or nothing for an empty curve. */
    method NearestPoint(p: Point) returns (r: Option<Point>)
      ensures r.None? <==> points.Length == 0
      ensures r.Some? ==> r.value == points[NearestIndex(points[..], p)]
      ensures r.Some? ==> forall i :: 0 <= i < points.Length ==> DistSq(r.value, p) <= DistSq(points[i], p)
    {
      if points.Length == 0 {
        return None;
      }
      if points.Length == 1 {
        return Some(points[0]);
      }
      var closePt := points[0];
      var closeIdx := 0;
      var dist := DistSq(closePt, p);
      var i := 0;
      while i < points.Length
        invariant 0 <= i <= points.Length
        invariant closeIdx == NearestIndex(points[..if i == 0 then 1 else i], p)
        invariant closePt == points[closeIdx] && dist == DistSq(closePt, p)
      {
        var pt := points[i];
        if DistSq(pt, p) < dist {
          dist := DistSq(pt, p);
          closePt := pt;
          closeIdx := i;
        }
        NearestIndexStep(points[..], p, i);
        i := i + 1;
      }
      assert points[..points.Length] == points[..];
      return Some(closePt);
    }

    /** The index of the first point nearest to p, or -1 for an empty curve. */
    method IdxOfNearestPoint(p: Point) returns (idx: int)
      ensures idx == NearestIndex(points[..], p)
      ensures idx == -1 <==> points.Length == 0
      ensures idx != -1 ==> IsFirstNearest(points[..], p, idx)
    {
      if points.Length == 0 {
        return -1;
      }
      if points.Length == 1 {
        return 0;
      }
      var dist := DistSq(points[0], p);
      var closeIdx := 0;
      var i := 0;
      while i < points.Length
        invariant 0 <= i <= points.Length
        invariant closeIdx == NearestIndex(points[..if i == 0 then 1 else i], p)
        invariant dist == DistSq(points[closeIdx], p)
      {
        var pt := points[i];
        if DistSq(pt, p) < dist {
          dist := DistSq(pt, p);
          closeIdx := i;
        }
        NearestIndexStep(points[..], p, i);
        i := i + 1;
      }
      assert points[..points.Length] == points[..];
      return closeIdx;
    }

    /** The points between the ones nearest to p0 and to p1, inclusive and in
        the direction from p0 to p1; null for an empty curve. */
    method SubsetPoints(p0: Point, p1: Point) returns (pts: array?<Point>)
      ensures pts == null <==> points.Length == 0
      ensures pts != null ==> fresh(pts)
      ensures pts != null ==> pts[..] == Run(points[..], NearestIndex(points[..], p0), NearestIndex(points[..], p1))
    {
      var i0 := IdxOfNearestPoint(p0);
      var i1 := IdxOfNearestPoint(p1);
      if i0 == -1 || i1 == -1 {
        return null;
      }
      pts := CopyRun(i0, i1);
    }

    /** The copying loops of subsetPoints: the points from index i0 to i1,
        in that order, into a new array. */
    method CopyRun(i0: int, i1: int) returns (pts: array<Point>)
      requires 0 <= i0 < points.Length && 0 <= i1 < points.Length
      ensures fresh(pts) && pts[..] == Run(points[..], i0, i1)
    {
      ghost var s := points[..];
      pts := new Point[if i1 - i0 >= 0 then i1 - i0 + 1 else i0 - i1 + 1];
      var idx := 0;
      if i0 < i1 {
        var i := i0;
        while i <= i1
          invariant i0 <= i <= i1 + 1 && idx == i - i0
          invariant forall m :: 0 <= m < idx ==> pts[m] == s[i0 + m]
        {
          pts[idx] := points[i];
          idx := idx + 1;
          i := i + 1;
        }
      } else {
        var i := i0;
        while i >= i1
          invariant i1 - 1 <= i <= i0 && idx == i0 - i
          invariant forall m :: 0 <= m < idx ==> pts[m] == s[i0 - m]
        {
          pts[idx] := points[i];
          idx := idx + 1;
          i := i - 1;
        }
      }
      RunIsSlice(s, i0, i1, pts[..]);
    }

    /** Negates the x of every point, in place. */
    method FlipX()
      modifies points
      ensures points[..] == FlippedX(old(points[..]))
    {
      var i := 0;
      while i < points.Length
        invariant 0 <= i <= points.Length
        invariant forall k :: 0 <= k < i ==> points[k] == Point(-old(points[k]).x, old(points[k]).y)
        invariant forall k :: i <= k < points.Length ==> points[k] == old(points[k])
      {
        points[i] := Point(-points[i].x, points[i].y);
        i := i + 1;
      }
    }

    /** The points offset by cut across the local tangent. A curve of at most
        one point is returned as it is; otherwise a new array, leaving the
        curve's own points alone. */
    method PtsOffsetBy(lib: MathLib, cut: real) returns (newPts: array<Point>)
      ensures points.Length <= 1 ==> newPts == points
      ensures points.Length > 1 ==> fresh(newPts) && newPts[..] == OffsetBy(lib, points[..], cut)
    {
      if points.Length <= 1 {
        return points;
      }
      ghost var s := points[..];
      newPts := new Point[points.Length];
      var i := 0;
      while i < points.Length
        invariant 0 <= i <= points.Length
        invariant points[..] == s
        invariant forall k :: 0 <= k < i ==> newPts[k] == OffsetPoint(lib, s, k, cut)
      {
        var im1 := if i - 1 > 0 then i - 1 else 0;
        var ip1 := if i + 1 < points.Length - 1 then i + 1 else points.Length - 1;
        assert (im1, ip1) == Neighbours(|s|, i);
        var p := points[i];
        var a, b := points[im1], points[ip1];
        assert p == s[i] && a == s[im1] && b == s[ip1];
        if a.x == b.x {
          newPts[i] := Point(p.x + cut, p.y);
        } else {
          newPts[i] := Across(lib, p, lib.atan2(b.y - a.y, b.x - a.x), cut);
        }
        i := i + 1;
      }
    }

    /** Replaces the points by the offset ones. */
    method OffsetPts(lib: MathLib, cut: real)
      modifies this
      ensures old(points.Length) <= 1 ==> points == old(points)
      ensures old(points.Length) > 1 ==> fresh(points) && points[..] == OffsetBy(lib, old(points[..]), cut)
    {
      var pts := PtsOffsetBy(lib, cut);
      SetPoints(pts);
    }

    /** The least box holding every point; the zero box for no points. */
    method GetBoundingBox() returns (bb: BoundingBox)
      ensures fresh(bb) && bb.Value() == BoxOf(points[..])
    {
      if points.Length == 0 {
        bb := new BoundingBox(0.0, 0.0, 0.0, 0.0);
        return;
      }
      var p0 := points[0];
      var minX, maxX, minY, maxY := p0.x, p0.x, p0.y, p0.y;
      var i := 0;
      while i < points.Length
        invariant 0 <= i <= points.Length
        invariant Box(Point(minX, minY), Point(maxX, maxY)) == BoxOf(points[..if i == 0 then 1 else i])
      {
        var p := points[i];
        if p.y < minY {
          minY := p.y;
        }
        if p.y > maxY {
          maxY := p.y;
        }
        if p.x > maxX {
          maxX := p.x;
        }
        if p.x < minX {
          minX := p.x;
        }
        BoxOfStep(points[..], i);
        i := i + 1;
      }
      assert points[..points.Length] == points[..];
      bb := new BoundingBox(minX, minY, maxX, maxY);
    }

    /** The total length of the polyline through the points. */
    method GetLength(lib: MathLib) returns (length: real)
      ensures length == PolylineLength(lib, points[..])
      ensures length >= 0.0
    {
      if points.Length < 2 {
        return 0.0;
      }
      length := 0.0;
      var i := 0;
      while i < points.Length - 1
        invariant 0 <= i <= points.Length - 1
        invariant length == PolylineLength(lib, points[..i + 1])
      {
        var p0 := points[i];
        var p1 := points[i + 1];
        length := length + lib.hypot(p0.x - p1.x, p0.y - p1.y);
        assert points[..i + 2][..i + 1] == points[..i + 1];
        i := i + 1;
      }
      assert points[..points.Length] == points[..];
    }
  }

  /** One more step of the nearest-point scan: the index kept after looking
      at point i is the first nearest of the points up to i. */
  lemma NearestIndexStep(s: seq<Point>, p: Point, i: int)
    requires 0 <= i < |s|
    ensures NearestIndex(s[..i + 1], p) ==
      if i == 0 then 0
      else if DistSq(s[i], p) < DistSq(s[NearestIndex(s[..i], p)], p) then i
      else NearestIndex(s[..i], p)
  {
    if i > 0 {
      assert s[..i + 1][..i] == s[..i];
    }
  }

  /** One more step of the bounding-box scan. */
  lemma BoxOfStep(s: seq<Point>, i: int)
    requires 0 <= i < |s|
    ensures i > 0 ==> (BoxOf(s[..i + 1]) ==
      var b := BoxOf(s[..i]);
      Box(Point(Min(b.min.x, s[i].x), Min(b.min.y, s[i].y)), Point(Max(b.max.x, s[i].x), Max(b.max.y, s[i].y))))
    ensures i == 0 ==> BoxOf(s[..1]) == Box(s[0], s[0])
  {
    if i > 0 {
      assert s[..i + 1][..i] == s[..i];
    }
  }
}
