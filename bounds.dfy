/** The per-curve bounding box that ModelView::initModelGeometry computes
    from the curve's sample points. */
module Bounds {

  /** A curve sample point in model coordinates. */
  datatype Point = Point(x: real, y: real)

  /** A 2D axis-aligned box {xmi, xma, ymi, yma}. */
  datatype Box = Box(xmi: real, xma: real, ymi: real, yma: real)

  /** One step of the min/max loop: a coordinate below the current minimum
      lowers it, otherwise one above the current maximum raises it. For a
      box with min <= max on each axis this is the componentwise min/max. */
  function Include(b: Box, p: Point): (r: Box)
    requires b.xmi <= b.xma && b.ymi <= b.yma
    ensures r.xmi == (if p.x < b.xmi then p.x else b.xmi)
    ensures r.xma == (if p.x > b.xma then p.x else b.xma)
    ensures r.ymi == (if p.y < b.ymi then p.y else b.ymi)
    ensures r.yma == (if p.y > b.yma then p.y else b.yma)
  {
    var (xmi, xma) := if p.x < b.xmi then (p.x, b.xma)
                      else if p.x > b.xma then (b.xmi, p.x)
                      else (b.xmi, b.xma);
    var (ymi, yma) := if p.y < b.ymi then (p.y, b.yma)
                      else if p.y > b.yma then (b.ymi, p.y)
                      else (b.ymi, b.yma);
    Box(xmi, xma, ymi, yma)
  }

  /** The box the loop leaves after visiting every point of ps in order,
      seeded with the first point; min <= max on each axis throughout. */
  function BoundingBox(ps: seq<Point>): (b: Box)
    requires |ps| >= 1
    ensures b.xmi <= b.xma && b.ymi <= b.yma
  {
    if |ps| == 1 then Box(ps[0].x, ps[0].x, ps[0].y, ps[0].y)
    else Include(BoundingBox(ps[..|ps| - 1]), ps[|ps| - 1])
  }

  /** Soundness: the box contains every point of the curve. */
  lemma {:induction false} BoundingBoxContains(ps: seq<Point>, i: int)
    requires 0 <= i < |ps|
    ensures BoundingBox(ps).xmi <= ps[i].x <= BoundingBox(ps).xma
    ensures BoundingBox(ps).ymi <= ps[i].y <= BoundingBox(ps).yma
  {
    if i < |ps| - 1 {
      var front := ps[..|ps| - 1];
      BoundingBoxContains(front, i);
      assert front[i] == ps[i];
    }
  }

  /** Tightness: each of the four bounds is a coordinate of some point. */
  lemma {:induction false} BoundingBoxAttained(ps: seq<Point>)
    requires |ps| >= 1
    ensures exists i :: 0 <= i < |ps| && ps[i].x == BoundingBox(ps).xmi
    ensures exists i :: 0 <= i < |ps| && ps[i].x == BoundingBox(ps).xma
    ensures exists i :: 0 <= i < |ps| && ps[i].y == BoundingBox(ps).ymi
    ensures exists i :: 0 <= i < |ps| && ps[i].y == BoundingBox(ps).yma
  {
    var n := |ps| - 1;
    if n > 0 {
      var front := ps[..n];
      var b := BoundingBox(front);
      BoundingBoxAttained(front);
      var i0 :| 0 <= i0 < n && front[i0].x == b.xmi;
      var i1 :| 0 <= i1 < n && front[i1].x == b.xma;
      var i2 :| 0 <= i2 < n && front[i2].y == b.ymi;
      var i3 :| 0 <= i3 < n && front[i3].y == b.yma;
      assert front[i0] == ps[i0] && front[i1] == ps[i1];
      assert front[i2] == ps[i2] && front[i3] == ps[i3];
      var r := BoundingBox(ps);
      assert ps[if r.xmi == ps[n].x then n else i0].x == r.xmi;
      assert ps[if r.xma == ps[n].x then n else i1].x == r.xma;
      assert ps[if r.ymi == ps[n].y then n else i2].y == r.ymi;
      assert ps[if r.yma == ps[n].y then n else i3].y == r.yma;
    } else {
      assert ps[0].x == BoundingBox(ps).xmi;
    }
  }

  /** Visiting one more point extends the box of the prefix by Include. */
  lemma BoundingBoxStep(ps: seq<Point>, i: int)
    requires 1 <= i < |ps|
    ensures BoundingBox(ps[..i + 1]) == Include(BoundingBox(ps[..i]), ps[i])
  {
    assert ps[..i + 1][..i] == ps[..i];
  }
}
