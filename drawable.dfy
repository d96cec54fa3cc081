/** Drawable.BoundingBox: an axis-aligned box given by its lower and upper
    corners, with union, size, scaling and outward rounding. */
module Drawables {
  import opened Numerics

  /** The corners of a bounding box, held by value. */
  datatype Box = Box(min: Point, max: Point)

  function Width(b: Box): real
  {
    b.max.x - b.min.x
  }

  function Height(b: Box): real
  {
    b.max.y - b.min.y
  }

  /** Every coordinate of inner lies within outer. */
  predicate Contains(outer: Box, inner: Box)
  {
    outer.min.x <= inner.min.x && outer.min.y <= inner.min.y &&
    inner.max.x <= outer.max.x && inner.max.y <= outer.max.y
  }

  predicate ContainsPoint(b: Box, p: Point)
  {
    b.min.x <= p.x <= b.max.x && b.min.y <= p.y <= b.max.y
  }

  /** The box of the union constructor: componentwise least of the lower
      corners, greatest of the upper ones. */
  function Union(b1: Box, b2: Box): (u: Box)
    ensures Contains(u, b1) && Contains(u, b2)
  {
    Box(Point(Min(b1.min.x, b2.min.x), Min(b1.min.y, b2.min.y)),
        Point(Max(b1.max.x, b2.max.x), Max(b1.max.y, b2.max.y)))
  }

  /** Every coordinate multiplied by f. */
  function Scaled(b: Box, f: real): Box
  {
    Box(Point(b.min.x * f, b.min.y * f), Point(b.max.x * f, b.max.y * f))
  }

  /** The lower corner floored and the upper corner ceiled. */
  function Rounded(b: Box): (r: Box)
    ensures Contains(r, b)
  {
    Box(Point(Floor(b.min.x), Floor(b.min.y)), Point(Ceil(b.max.x), Ceil(b.max.y)))
  }

  /** The union holds both boxes and lies within any box that holds both,
      whatever the order of its arguments. */
  lemma UnionIsLeastEnclosing(b1: Box, b2: Box, c: Box)
    ensures Contains(Union(b1, b2), b1) && Contains(Union(b1, b2), b2)
    ensures Contains(c, b1) && Contains(c, b2) ==> Contains(c, Union(b1, b2))
    ensures Union(b1, b2) == Union(b2, b1)
  {
  }

  /** Scaling multiplies the width and the height by the same factor. */
  lemma ScaledSize(b: Box, f: real)
    ensures Width(Scaled(b, f)) == f * Width(b)
    ensures Height(Scaled(b, f)) == f * Height(b)
  {
  }

  /** Rounding moves every corner outward to whole numbers, and a second
      rounding changes nothing. */
  lemma RoundedEnclosesAndSettles(b: Box)
    ensures Contains(Rounded(b), b)
    ensures IsIntegral(Rounded(b).min.x) && IsIntegral(Rounded(b).min.y)
    ensures IsIntegral(Rounded(b).max.x) && IsIntegral(Rounded(b).max.y)
    ensures Rounded(Rounded(b)) == Rounded(b)
  {
    var r := Rounded(b);
    FloorCeilFixIntegral(r.min.x);
    FloorCeilFixIntegral(r.min.y);
    FloorCeilFixIntegral(r.max.x);
    FloorCeilFixIntegral(r.max.y);
  }

  /** Floor and ceiling leave a whole number where it is. */
  lemma FloorCeilFixIntegral(x: real)
    requires IsIntegral(x)
    ensures Floor(x) == x && Ceil(x) == x
  {
    assert (-x).Floor == -x.Floor by {
      assert -x == (-x.Floor) as real;
    }
  }

  class BoundingBox {
    var min: Point
    var max: Point

    /** The box this object currently describes. */
    function Value(): Box
      reads this
    {
      Box(min, max)
    }

    /** BoundingBox(xmin, ymin, xmax, ymax) stores the corners as given. */
    constructor (xmin: real, ymin: real, xmax: real, ymax: real)
      ensures min == Point(xmin, ymin) && max == Point(xmax, ymax)
    {
      min := Point(xmin, ymin);
      max := Point(xmax, ymax);
    }

    /** BoundingBox(b1, b2): the box enclosing both. */
    constructor Enclosing(b1: BoundingBox, b2: BoundingBox)
      ensures Value() == Union(b1.Value(), b2.Value())
      ensures Contains(Value(), b1.Value()) && Contains(Value(), b2.Value())
    {
      min := Point(Min(b1.min.x, b2.min.x), Min(b1.min.y, b2.min.y));
      max := Point(Max(b1.max.x, b2.max.x), Max(b1.max.y, b2.max.y));
    }

    /** Multiplies every coordinate by f, in place. */
    method Scale(f: real)
      modifies this
      ensures Value() == Scaled(old(Value()), f)
      ensures Width(Value()) == f * Width(old(Value()))
      ensures Height(Value()) == f * Height(old(Value()))
    {
      min := Point(min.x * f, min.y * f);
      max := Point(max.x * f, max.y * f);
      ScaledSize(old(Value()), f);
    }

    /** getWidth: the width of the box, which scaling multiplies by f (ScaledSize). */
    function GetWidth(): (w: real)
      reads this
      ensures w == Width(Value())
    {
      max.x - min.x
    }

    /** getHeight: the height of the box, which scaling multiplies by f (ScaledSize). */
    function GetHeight(): (h: real)
      reads this
      ensures h == Height(Value())
    {
      max.y - min.y
    }

    /** Floors the lower corner and ceils the upper one, in place. */
    method Round()
      modifies this
      ensures Value() == Rounded(old(Value()))
      ensures Contains(Value(), old(Value()))
    {
      min := Point(Floor(min.x), Floor(min.y));
      max := Point(Ceil(max.x), Ceil(max.y));
      RoundedEnclosesAndSettles(old(Value()));
    }
  }
}
