/** `e2d::Rect`: an origin and a size, with equality, point containment and
    intersection over the reals.

    `Point::operator==` and `Size::operator==` are not part of this model;
    both are taken to compare their two coordinates. */
module Rects {
  import opened Vectors

  type Point = Vector2

  datatype Size = Size(width: real, height: real)

  datatype Rect = Rect(origin: Point, size: Size)

  /** `Rect()`: origin and size both zero. */
  function EmptyRect(): Rect {
    Rect(Zero, Size(0.0, 0.0))
  }

  /** `Rect(x, y, width, height)` */
  function RectAt(x: real, y: real, width: real, height: real): Rect {
    Rect(Vector2(x, y), Size(width, height))
  }

  /** `Rect(pos, size)`; the copy constructor and `operator=` copy both
      fields, which on a value is the value itself. */
  function RectOf(pos: Point, size: Size): Rect {
    Rect(pos, size)
  }

  /** `operator==` */
  predicate Equals(a: Rect, b: Rect) {
    (a.origin == b.origin) && (a.size == b.size)
  }

  /** `containsPoint(point)` as written: the upper bound for `x` is
      `origin.y + height`, not `origin.x + width`. */
  predicate ContainsPoint(r: Rect, point: Point) {
    point.x >= r.origin.x && point.x <= (r.origin.y + r.size.height)
      && point.y >= r.origin.y && point.y <= (r.origin.y + r.size.height)
  }

  /** `containsPoint` as evidently intended: the closed box of the rect. */
  predicate ContainsPointIntended(r: Rect, point: Point) {
    r.origin.x <= point.x <= r.origin.x + r.size.width
      && r.origin.y <= point.y <= r.origin.y + r.size.height
  }

  /** `intersects(rect)`: neither rect lies strictly beside, above or below
      the other. */
  predicate Intersects(a: Rect, b: Rect) {
    !((a.origin.x + a.size.width) < b.origin.x ||
      (b.origin.x + b.size.width) < a.origin.x ||
      (a.origin.y + a.size.height) < b.origin.y ||
      (b.origin.y + b.size.height) < a.origin.y)
  }

  /** The constructors agree, and `==` is exactly equality of the two fields, so
      a copy is equal to its original. */
  lemma EqualsIsFieldEquality(a: Rect, b: Rect)
    ensures Equals(a, b) <==> a == b
    ensures Equals(a, RectOf(a.origin, a.size))
    ensures RectAt(a.origin.x, a.origin.y, a.size.width, a.size.height) == a
    ensures EmptyRect() == RectAt(0.0, 0.0, 0.0, 0.0)
  {
  }

  function Max(a: real, b: real): real {
    if a < b then b else a
  }

  function Min(a: real, b: real): real {
    if a < b then a else b
  }

  /** For rects of non-negative size, `intersects` holds exactly when the
      closed extents of the two rects overlap on both axes: the larger of the
      two low edges is at most the smaller of the two high edges. */
  lemma IntersectsIffOverlap(a: Rect, b: Rect)
    requires a.size.width >= 0.0 && a.size.height >= 0.0
    requires b.size.width >= 0.0 && b.size.height >= 0.0
    ensures Intersects(a, b) <==>
      Max(a.origin.x, b.origin.x) <= Min(a.origin.x + a.size.width, b.origin.x + b.size.width) &&
      Max(a.origin.y, b.origin.y) <= Min(a.origin.y + a.size.height, b.origin.y + b.size.height)
  {
  }

  /** `intersects` is symmetric. */
  lemma IntersectsSymmetric(a: Rect, b: Rect)
    ensures Intersects(a, b) == Intersects(b, a)
  {
  }

  /** Rects of non-negative size that only touch intersect, because the
      comparisons are strict. This holds when one's right edge lies on the
      other's left edge and their vertical extents overlap. It also holds
      when one's bottom edge lies on the other's top edge and their
      horizontal extents overlap. */
  lemma TouchingIntersects(a: Rect, b: Rect)
    requires a.size.width >= 0.0 && a.size.height >= 0.0
    requires b.size.width >= 0.0 && b.size.height >= 0.0
    ensures a.origin.x + a.size.width == b.origin.x
         && b.origin.y <= a.origin.y + a.size.height && a.origin.y <= b.origin.y + b.size.height
         ==> Intersects(a, b)
    ensures a.origin.y + a.size.height == b.origin.y
         && b.origin.x <= a.origin.x + a.size.width && a.origin.x <= b.origin.x + b.size.width
         ==> Intersects(a, b)
  {
  }

  /** A rect with non-negative size intersects itself; one with a negative
      width or height does not. */
  lemma SelfIntersects(a: Rect)
    ensures Intersects(a, a) <==> a.size.width >= 0.0 && a.size.height >= 0.0
  {
  }

  /** As written, containment bounds the point's `y` by the rect's vertical
      extent, and its `x` from below by the left edge but from above by the
      rect's bottom edge. */
  lemma ContainsPointBounds(r: Rect, p: Point)
    requires ContainsPoint(r, p)
    ensures r.origin.y <= p.y <= r.origin.y + r.size.height
    ensures r.origin.x <= p.x <= r.origin.y + r.size.height
  {
  }

  /** The typo shows: the rect at (10, 0) of size 5 x 5 does not contain its
      own centre (12.5, 2.5), because 12.5 > 0 + 5. */
  lemma ContainsPointTypo()
    ensures ContainsPointIntended(RectAt(10.0, 0.0, 5.0, 5.0), Vector2(12.5, 2.5))
    ensures !ContainsPoint(RectAt(10.0, 0.0, 5.0, 5.0), Vector2(12.5, 2.5))
  {
  }

  /** The two readings agree where the typo cannot matter: on rects whose
      right edge coordinate equals their bottom edge coordinate. */
  lemma ContainsPointAgreesWhenEdgesCoincide(r: Rect, p: Point)
    requires r.origin.x + r.size.width == r.origin.y + r.size.height
    ensures ContainsPoint(r, p) <==> ContainsPointIntended(r, p)
  {
  }

  /** The intended containment is intersection with the rect of size zero
      at the point. */
  lemma ContainsIntendedIsPointIntersection(r: Rect, p: Point)
    requires r.size.width >= 0.0 && r.size.height >= 0.0
    ensures ContainsPointIntended(r, p) <==> Intersects(r, Rect(p, Size(0.0, 0.0)))
  {
  }
}
