/** Screen rectangles: intersection and overlap ratio. */
module BoundingBoxes {
  import opened Prelude

  datatype Point = Point(x: int, y: int)

  /** A box as accepted by its constructor. */
  type Box = b: RawBox | b.width >= 0 && b.height >= 0 witness RawBox(0, 0, 0, 0)

  datatype RawBox = RawBox(x: int, y: int, width: int, height: int)
  {
    function Left(): int { x }

    function Top(): int { y }

    function Right(): int { x + width }

    function Bottom(): int { y + height }

    function Area(): int { width * height }

    /** Borders included. */
    predicate Contains(p: Point) {
      Left() <= p.x <= Right() && Top() <= p.y <= Bottom()
    }

    predicate Intersects(other: RawBox) {
      !(Right() < other.Left() || Left() > other.Right() || Bottom() < other.Top() || Top() > other.Bottom())
    }
  }

  function Center(b: Box): Point {
    Point(b.x + b.width / 2, b.y + b.height / 2)
  }

  function Intersection(a: Box, b: Box): Option<Box> {
    if !a.Intersects(b) then None
    else
      var ix, iy := Max(a.Left(), b.Left()), Max(a.Top(), b.Top());
      var iw := Max(0, Min(a.Right(), b.Right()) - ix);
      var ih := Max(0, Min(a.Bottom(), b.Bottom()) - iy);
      Some(RawBox(ix, iy, iw, ih))
  }

  function Iou(a: Box, b: Box): real {
    var inter := Intersection(a, b);
    if inter.None? then 0.0
    else
      var common := inter.value.Area();
      var union := a.Area() + b.Area() - common;
      if union > 0 then common as real / union as real else 0.0
  }

  /** The intersection holds exactly the common points, and exists exactly when there are any. */
  lemma IntersectionIsCommonPoints(a: Box, b: Box)
    ensures Intersection(a, b).Some? <==> exists p :: a.Contains(p) && b.Contains(p)
    ensures forall p :: a.Contains(p) && b.Contains(p) <==>
              Intersection(a, b).Some? && Intersection(a, b).value.Contains(p)
  {
    if a.Intersects(b) {
      var p := Point(Max(a.Left(), b.Left()), Max(a.Top(), b.Top()));
      assert a.Contains(p) && b.Contains(p);
    }
  }

  /** The center is a point of the box, so a box always meets itself. */
  lemma CenterIsInside(b: Box)
    ensures b.Contains(Center(b)) && Intersection(b, b) == Some(b)
  {
  }

  /** The center lies midway between opposite borders, half a pixel to the left and top where there is no middle. */
  lemma CenterIsMidway(b: Box)
    ensures var c := Center(b);
            && 0 <= (b.Right() - c.x) - (c.x - b.Left()) <= 1
            && 0 <= (b.Bottom() - c.y) - (c.y - b.Top()) <= 1
  {
  }

  lemma IntersectionLaws(a: Box, b: Box)
    ensures Intersection(a, b) == Intersection(b, a)
    ensures Intersection(a, b).Some? ==>
              var i := Intersection(a, b).value;
              i.width <= a.width && i.height <= a.height && i.width <= b.width && i.height <= b.height
  {
  }

  lemma AreaMonotone(small: Box, large: Box)
    requires small.width <= large.width && small.height <= large.height
    ensures 0 <= small.Area() <= large.Area()
  {
    assert small.width * small.height <= large.width * small.height <= large.width * large.height;
  }

  /** Overlap is symmetric and a ratio. */
  lemma IouIsRatio(a: Box, b: Box)
    ensures Iou(a, b) == Iou(b, a) && 0.0 <= Iou(a, b) <= 1.0
  {
    IntersectionLaws(a, b);
    if a.Intersects(b) {
      var i := Intersection(a, b).value;
      AreaMonotone(i, a);
      AreaMonotone(i, b);
      var union := a.Area() + b.Area() - i.Area();
      if union > 0 {
        RatioBounds(i.Area(), union);
      }
    }
  }

  lemma RatioBounds(part: int, whole: int)
    requires 0 <= part <= whole && whole > 0
    ensures 0.0 <= part as real / whole as real <= 1.0
    ensures part as real / whole as real == 1.0 <==> part == whole
  {
    var r := part as real / whole as real;
    assert r * whole as real == part as real;
  }

  /** Within a box of positive area, a box that falls short in either direction has less area. */
  lemma ShorterIsSmaller(small: Box, large: Box)
    requires small.width <= large.width && small.height <= large.height && large.Area() > 0
    requires small.width < large.width || small.height < large.height
    ensures small.Area() < large.Area()
  {
    if small.width < large.width {
      assert small.width * small.height <= small.width * large.height < large.width * large.height;
    } else {
      assert small.width * small.height < large.width * large.height;
    }
  }

  /** For boxes of positive area, complete overlap means equality. */
  lemma IouOneIffEqual(a: Box, b: Box)
    requires a.Area() > 0 && b.Area() > 0
    ensures Iou(a, b) == 1.0 <==> a == b
  {
    IntersectionLaws(a, b);
    if a == b {
      CenterIsInside(a);
      RatioBounds(a.Area(), a.Area());
    } else if a.Intersects(b) {
      var i := Intersection(a, b).value;
      AreaMonotone(i, a);
      AreaMonotone(i, b);
      RatioBounds(i.Area(), a.Area() + b.Area() - i.Area());
      if i.width < a.width || i.height < a.height {
        ShorterIsSmaller(i, a);
      } else {
        ShorterIsSmaller(i, b);
      }
    }
  }

  /** Positive overlap exactly when the intersection has an interior. */
  lemma IouPositiveIffInterior(a: Box, b: Box)
    ensures Iou(a, b) > 0.0 <==> Intersection(a, b).Some? && Intersection(a, b).value.Area() > 0
  {
    IntersectionLaws(a, b);
    if a.Intersects(b) {
      var i := Intersection(a, b).value;
      AreaMonotone(i, a);
      AreaMonotone(i, b);
      var union := a.Area() + b.Area() - i.Area();
      if union > 0 {
        var r := i.Area() as real / union as real;
        assert r * union as real == i.Area() as real;
      }
    }
  }

  // ---------- counted in pixels ----------

  /** The unit cells of a box. */
  ghost function CellsOf(x: int, y: int, width: nat, height: nat): set<(int, int)> {
    set i, j | x <= i < x + width && y <= j < y + height :: (i, j)
  }

  ghost function Cells(b: Box): set<(int, int)> {
    CellsOf(b.x, b.y, b.width, b.height)
  }

  lemma {:induction false} RowCount(x: int, y: int, width: nat)
    ensures |CellsOf(x, y, width, 1)| == width
  {
    if width == 0 {
      assert CellsOf(x, y, 0, 1) == {};
    } else {
      RowCount(x, y, width - 1);
      assert CellsOf(x, y, width, 1) == CellsOf(x, y, width - 1, 1) + {(x + width - 1, y)};
    }
  }

  lemma {:induction false} CellCount(x: int, y: int, width: nat, height: nat)
    ensures |CellsOf(x, y, width, height)| == width * height
  {
    if height == 0 {
      assert CellsOf(x, y, width, 0) == {};
    } else {
      CellCount(x, y, width, height - 1);
      RowCount(x, y + height - 1, width);
      var above, row := CellsOf(x, y, width, height - 1), CellsOf(x, y + height - 1, width, 1);
      assert CellsOf(x, y, width, height) == above + row && above * row == {};
      assert width * (height - 1) + width == width * height;
    }
  }

  lemma SharedCells(a: Box, b: Box)
    ensures Cells(a) * Cells(b) == if Intersection(a, b).Some? then Cells(Intersection(a, b).value) else {}
  {
  }

  /** The overlap ratio is the share of common cells among all cells either box covers. */
  lemma IouCountsCells(a: Box, b: Box)
    ensures var common, covered := |Cells(a) * Cells(b)|, |Cells(a) + Cells(b)|;
            Iou(a, b) == if covered == 0 then 0.0 else common as real / covered as real
  {
    CellCount(a.x, a.y, a.width, a.height);
    CellCount(b.x, b.y, b.width, b.height);
    SharedCells(a, b);
    if a.Intersects(b) {
      var i := Intersection(a, b).value;
      CellCount(i.x, i.y, i.width, i.height);
    }
  }
}
