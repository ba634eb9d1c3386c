/**
 * The integer geometry values of `src/structs.rs`: `Point`, `Size`, `Rectangle` and the
 * Win32 `RECT` it converts from. All of them are plain copyable values; the three
 * operations the source writes with `&mut self` (`inflate`, `intersect`, `offset`)
 * return the updated rectangle here.
 */
module Geometry {

  import opened RustArith

  datatype Point = Point(x: int, y: int)

  datatype Size = Size(width: int, height: int)

  /** The Win32 `RECT`: four edges. */
  datatype Rect = Rect(left: int, top: int, right: int, bottom: int)

  datatype Rectangle = Rectangle(x: int, y: int, width: int, height: int) {

    function Left(): int { x }
    function Top(): int { y }
    function Right(): int { x + width }
    function Bottom(): int { y + height }

    function Location(): (p: Point)
      ensures p.x == Left() && p.y == Top()
    {
      Point(x, y)
    }

    function GetSize(): (s: Size)
      ensures FromPoints(Location(), s) == this
    {
      Size(width, height)
    }

    /** True only for the all-zero rectangle, the value `intersect` produces for "no overlap". */
    predicate IsEmpty()
    {
      width == 0 && height == 0 && x == 0 && y == 0
    }

    /** Half-open containment: the left and top edges are inside, the right and bottom edges are not. */
    predicate Contains(px: int, py: int)
    {
      px >= x && px < Right() && py >= y && py < Bottom()
    }

    predicate ContainsPoint(p: Point)
    {
      Contains(p.x, p.y)
    }

    /** Tests the two corners `(x, y)` and `(right, bottom)` with the half-open `Contains`. */
    predicate ContainsRect(r: Rectangle)
    {
      Contains(r.x, r.y) && Contains(r.Right(), r.Bottom())
    }

    /** `inflate(w, h)`: every edge moves outward by `w` horizontally and `h` vertically. */
    function Inflate(w: int, h: int): (r: Rectangle)
      ensures r.Left() == Left() - w && r.Right() == Right() + w
      ensures r.Top() == Top() - h && r.Bottom() == Bottom() + h
    {
      Rectangle(x - w, y - h, width + 2 * w, height + 2 * h)
    }

    /** The clipped edges of the two rectangles do not cross (touching edges count as overlap). */
    predicate Overlaps(other: Rectangle)
    {
      Max(x, other.x) <= Min(Right(), other.Right()) && Max(y, other.y) <= Min(Bottom(), other.Bottom())
    }

    /** `intersect(other)`: the overlap when the clipped edges do not cross, otherwise the zero rectangle. */
    function Intersect(other: Rectangle): (r: Rectangle)
      ensures Overlaps(other) ==> r == FromLtrb(Max(x, other.x), Max(y, other.y), Min(Right(), other.Right()), Min(Bottom(), other.Bottom()))
      ensures !Overlaps(other) ==> r.IsEmpty()
    {
      var x1 := Max(x, other.x);
      var y1 := Max(y, other.y);
      var x2 := Min(Right(), other.Right());
      var y2 := Min(Bottom(), other.Bottom());
      if x2 >= x1 && y2 >= y1 then Rectangle(x1, y1, x2 - x1, y2 - y1) else Rectangle(0, 0, 0, 0)
    }

    /** `intersect_with`: `intersect` applied to a copy. */
    function IntersectWith(other: Rectangle): (r: Rectangle)
    {
      Intersect(other)
    }

    /** Strict overlap test: rectangles that only share an edge do not intersect. */
    predicate IntersectsWith(other: Rectangle)
    {
      x < other.x + other.width && other.x < x + width && y < other.y + other.height && other.y < y + height
    }

    /** The smallest rectangle spanning both. */
    function UnionWith(other: Rectangle): (r: Rectangle)
      ensures r.Left() <= Left() && r.Left() <= other.Left() && r.Top() <= Top() && r.Top() <= other.Top()
      ensures r.Right() >= Right() && r.Right() >= other.Right() && r.Bottom() >= Bottom() && r.Bottom() >= other.Bottom()
      ensures r.Left() in {Left(), other.Left()} && r.Right() in {Right(), other.Right()}
      ensures r.Top() in {Top(), other.Top()} && r.Bottom() in {Bottom(), other.Bottom()}
    {
      var x1 := Min(x, other.x);
      var y1 := Min(y, other.y);
      var x2 := Max(Right(), other.Right());
      var y2 := Max(Bottom(), other.Bottom());
      Rectangle(x1, y1, x2 - x1, y2 - y1)
    }

    /** `offset(dx, dy)`: moves the rectangle and keeps its size. */
    function Offset(dx: int, dy: int): (r: Rectangle)
      ensures r.x == x + dx && r.y == y + dy && r.GetSize() == GetSize()
    {
      Rectangle(x + dx, y + dy, width, height)
    }
  }

  function FromPoints(location: Point, size: Size): (r: Rectangle)
    ensures r.Location() == location && r.width == size.width && r.height == size.height
  {
    Rectangle(location.x, location.y, size.width, size.height)
  }

  /** `from_ltrb`: the rectangle whose four edges are the given ones. */
  function FromLtrb(left: int, top: int, right: int, bottom: int): (r: Rectangle)
    ensures r.Left() == left && r.Top() == top && r.Right() == right && r.Bottom() == bottom
  {
    Rectangle(left, top, right - left, bottom - top)
  }

  /** `impl From<RECT> for Rectangle`. */
  function FromRect(rect: Rect): (r: Rectangle)
    ensures r == FromLtrb(rect.left, rect.top, rect.right, rect.bottom)
  {
    Rectangle(rect.left, rect.top, rect.right - rect.left, rect.bottom - rect.top)
  }

  /** No rectangle contains itself: its own bottom-right corner lies outside the half-open area. */
  lemma ContainsRectNeverReflexive(r: Rectangle)
    ensures !r.ContainsRect(r)
  {
  }

  /** `intersects_with` is symmetric. */
  lemma IntersectsWithSymmetric(a: Rectangle, b: Rectangle)
    ensures a.IntersectsWith(b) <==> b.IntersectsWith(a)
  {
  }

  /**
   * For rectangles of positive size, the strict overlap test holds exactly when
   * `intersect_with` returns a rectangle of positive width and height.
   */
  lemma IntersectsWithMatchesIntersect(a: Rectangle, b: Rectangle)
    requires a.width > 0 && a.height > 0 && b.width > 0 && b.height > 0
    ensures a.IntersectsWith(b) <==> (a.IntersectWith(b).width > 0 && a.IntersectWith(b).height > 0)
  {
    var x1, x2 := Max(a.x, b.x), Min(a.Right(), b.Right());
    var y1, y2 := Max(a.y, b.y), Min(a.Bottom(), b.Bottom());
    assert a.IntersectsWith(b) <==> x1 < x2 && y1 < y2;
    var r := a.IntersectWith(b);
    if x1 <= x2 && y1 <= y2 {
      assert r == Rectangle(x1, y1, x2 - x1, y2 - y1);
    } else {
      assert r == Rectangle(0, 0, 0, 0);
    }
  }

  /** `intersect_with` is commutative. */
  lemma IntersectWithCommutes(a: Rectangle, b: Rectangle)
    ensures a.IntersectWith(b) == b.IntersectWith(a)
  {
  }

  /** A non-empty result of `intersect_with` lies inside both rectangles. */
  lemma IntersectWithInsideBoth(a: Rectangle, b: Rectangle)
    ensures var r := a.IntersectWith(b);
            !r.IsEmpty() ==>
              && r.Left() >= a.Left() && r.Left() >= b.Left() && r.Top() >= a.Top() && r.Top() >= b.Top()
              && r.Right() <= a.Right() && r.Right() <= b.Right() && r.Bottom() <= a.Bottom() && r.Bottom() <= b.Bottom()
  {
  }

  /** `union_with` is commutative. */
  lemma UnionWithCommutes(a: Rectangle, b: Rectangle)
    ensures a.UnionWith(b) == b.UnionWith(a)
  {
  }

  /**
   * Two rectangles that share only a vertical edge do not intersect, yet `intersect_with`
   * returns a zero-width strip along that edge rather than the zero rectangle.
   */
  lemma SharedEdgeIsZeroWidthStrip(a: Rectangle, b: Rectangle)
    requires a.width >= 0 && a.height > 0 && b.width >= 0
    requires b.x == a.Right() && b.y == a.y && b.height == a.height
    ensures !a.IntersectsWith(b)
    ensures a.IntersectWith(b) == Rectangle(a.Right(), a.y, 0, a.height)
  {
  }

  /** `is_empty` holds exactly for the zero rectangle. */
  lemma IsEmptyIffZero(r: Rectangle)
    ensures r.IsEmpty() <==> r == Rectangle(0, 0, 0, 0)
  {
  }

  /** Inflating and then deflating by the same amounts restores the rectangle. */
  lemma InflateDeflate(r: Rectangle, w: int, h: int)
    ensures r.Inflate(w, h).Inflate(-w, -h) == r
  {
  }
}
