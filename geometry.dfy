/**
 * Points and axis-aligned boxes in the window's logical coordinates, with
 * exact real arithmetic standing for the source's floats.
 */
module Geometry {

  datatype Point = Point(x: real, y: real)

  /** A closed axis-aligned box. */
  datatype Box = Box(xmin: real, xmax: real, ymin: real, ymax: real) {
    /** Inclusive on all four edges. */
    predicate Contains(p: Point) {
      xmin <= p.x <= xmax && ymin <= p.y <= ymax
    }
  }

  function Abs(r: real): real {
    if r < 0.0 then -r else r
  }

  /** The box `center ± width/2` by `center ± height/2`. */
  function BoxAround(center: Point, width: real, height: real): (b: Box)
    ensures b.xmax - b.xmin == width && b.ymax - b.ymin == height
    ensures (b.xmin + b.xmax) / 2.0 == center.x && (b.ymin + b.ymax) / 2.0 == center.y
  {
    var w, h := width / 2.0, height / 2.0;
    Box(center.x - w, center.x + w, center.y - h, center.y + h)
  }

  /** A point is in the box around `center` iff it is within half the width and half the height of it. */
  lemma BoxAroundContains(center: Point, width: real, height: real, p: Point)
    ensures BoxAround(center, width, height).Contains(p)
        <==> Abs(p.x - center.x) <= width / 2.0 && Abs(p.y - center.y) <= height / 2.0
  {
  }

  /** Two boxes lying apart, along x or along y. */
  predicate Disjoint(a: Box, b: Box) {
    a.xmax < b.xmin || b.xmax < a.xmin || a.ymax < b.ymin || b.ymax < a.ymin
  }

  /** Boxes lying apart have no point in common. */
  lemma DisjointNoCommonPoint(a: Box, b: Box, p: Point)
    requires Disjoint(a, b)
    ensures !(a.Contains(p) && b.Contains(p))
  {
  }
}
