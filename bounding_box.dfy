/**
 * The bounding box the classifier grows over every emitted shape's unscaled
 * screen coordinates: the abstract extent, the per-point extension and the
 * mutable box that is passed by reference.
 */
module BoundingBoxes {
  import opened Shapes

  datatype Extent = Extent(minX: real, maxX: real, minY: real, maxY: real)

  datatype Axis = X | Y

  function Min(a: real, b: real): real { if a <= b then a else b }

  function Max(a: real, b: real): real { if a <= b then b else a }

  function Coord(p: ScreenPoint, a: Axis): real {
    match a
    case X => p.x
    case Y => p.y
  }

  function Low(e: Extent, a: Axis): real {
    match a
    case X => e.minX
    case Y => e.minY
  }

  function High(e: Extent, a: Axis): real {
    match a
    case X => e.maxX
    case Y => e.maxY
  }

  /** One step of the extension loop: each field takes the min (or max) of itself and the point. */
  function Include(e: Extent, p: ScreenPoint): Extent {
    Extent(Min(e.minX, p.x), Max(e.maxX, p.x), Min(e.minY, p.y), Max(e.maxY, p.y))
  }

  /** The extent after the loop has visited every point of `pts`, in order. */
  function Extended(e: Extent, pts: seq<ScreenPoint>): Extent
    decreases |pts|
  {
    if pts == [] then e
    else Include(Extended(e, pts[..|pts| - 1]), pts[|pts| - 1])
  }

  /**
   * On each axis the extended low bound is the minimum of the old low bound and
   * every point's coordinate (below all of them and equal to one of them), and
   * the high bound the maximum; so the low bounds never grow and the high
   * bounds never shrink.
   */
  lemma {:induction false} ExtendedIsTight(e: Extent, pts: seq<ScreenPoint>, a: Axis)
    ensures Low(Extended(e, pts), a) <= Low(e, a)
    ensures High(Extended(e, pts), a) >= High(e, a)
    ensures forall i :: 0 <= i < |pts| ==>
      Low(Extended(e, pts), a) <= Coord(pts[i], a) <= High(Extended(e, pts), a)
    ensures Low(Extended(e, pts), a) == Low(e, a) ||
      exists i :: 0 <= i < |pts| && Low(Extended(e, pts), a) == Coord(pts[i], a)
    ensures High(Extended(e, pts), a) == High(e, a) ||
      exists i :: 0 <= i < |pts| && High(Extended(e, pts), a) == Coord(pts[i], a)
    decreases |pts|
  {
    if pts != [] {
      var n := |pts| - 1;
      var init := pts[..n];
      ExtendedIsTight(e, init, a);
      assert forall i :: 0 <= i < n ==> init[i] == pts[i];
      var prev := Extended(e, init);
      if Low(Extended(e, pts), a) != Low(e, a) && Low(Extended(e, pts), a) != Coord(pts[n], a) {
        var i :| 0 <= i < |init| && Low(prev, a) == Coord(init[i], a);
        assert Low(Extended(e, pts), a) == Coord(pts[i], a);
      }
      if High(Extended(e, pts), a) != High(e, a) && High(Extended(e, pts), a) != Coord(pts[n], a) {
        var i :| 0 <= i < |init| && High(prev, a) == Coord(init[i], a);
        assert High(Extended(e, pts), a) == Coord(pts[i], a);
      }
    }
  }

  /** Extending by two point sequences in turn is extending by their concatenation. */
  lemma {:induction false} ExtendedAppend(e: Extent, p: seq<ScreenPoint>, q: seq<ScreenPoint>)
    ensures Extended(Extended(e, p), q) == Extended(e, p + q)
    decreases |q|
  {
    if q == [] {
      assert p + q == p;
    } else {
      var n := |q| - 1;
      assert (p + q)[..|p + q| - 1] == p + q[..n];
      assert (p + q)[|p + q| - 1] == q[n];
      ExtendedAppend(e, p, q[..n]);
    }
  }

  /** The bounding box that Tessellate updates in place. */
  class BoundingBox {
    var minX: real
    var maxX: real
    var minY: real
    var maxY: real

    constructor (minX: real, maxX: real, minY: real, maxY: real)
      ensures Value() == Extent(minX, maxX, minY, maxY)
    {
      this.minX, this.maxX, this.minY, this.maxY := minX, maxX, minY, maxY;
    }

    function Value(): Extent
      reads this
    {
      Extent(minX, maxX, minY, maxY)
    }

    /** Widens the box, point by point, to cover every point of `pts`. */
    method Extend(pts: seq<ScreenPoint>)
      modifies this
      ensures Value() == Extended(old(Value()), pts)
    {
      for j := 0 to |pts|
        invariant Value() == Extended(old(Value()), pts[..j])
      {
        assert pts[..j + 1][..j] == pts[..j];
        minX := Min(minX, pts[j].x);
        maxX := Max(maxX, pts[j].x);
        minY := Min(minY, pts[j].y);
        maxY := Max(maxY, pts[j].y);
      }
      assert pts[..|pts|] == pts;
    }
  }
}
