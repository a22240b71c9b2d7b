/** What ModelView::compute2DScaleTrans computes, as a function of the region
    of interest, the aspect-ratio-preservation flag and the viewport aspect
    ratio, and what that transform guarantees about the curves it draws. */
module Fitting {
  import opened Mapping
  import opened Bounds

  /** The inputs for which every division compute2DScaleTrans performs is
      defined, for vAR > 0 and with signed zeros aside. With preservation on,
      a zero-width region of positive height is still fitted (the IEEE
      quotient height/+0.0 is +inf, so the x-range is widened); a region that
      is degenerate after correction is not. */
  predicate Fittable(w: Window, preserve: bool, vAR: real)
  {
    if preserve then vAR > 0.0 && (Width(w) != 0.0 || Height(w) > 0.0)
    else Width(w) != 0.0 && Height(w) != 0.0
  }

  /** The window that is mapped to -1..+1: the region itself, or the region
      corrected to the viewport's aspect ratio. It is never degenerate. */
  function Fitted(w: Window, preserve: bool, vAR: real): (f: Window)
    requires Fittable(w, preserve, vAR)
    ensures Width(f) != 0.0 && Height(f) != 0.0
  {
    if preserve then
      var c := MatchAspectRatio(w, vAR);
      assert Taller(w, vAR) ==> Height(w) != 0.0;
      c
    else w
  }

  /** [xscale, xtrans, yscale, ytrans]: the fitted window's left and right
      edges go to x = -1 and x = +1, its bottom and top edges to y = -1 and
      y = +1. */
  function ScaleTrans2D(w: Window, preserve: bool, vAR: real): (st: seq<real>)
    requires Fittable(w, preserve, vAR)
    ensures |st| == 4
    ensures st[0] * Fitted(w, preserve, vAR).xmin + st[1] == -1.0
    ensures st[0] * Fitted(w, preserve, vAR).xmax + st[1] == 1.0
    ensures st[2] * Fitted(w, preserve, vAR).ymin + st[3] == -1.0
    ensures st[2] * Fitted(w, preserve, vAR).ymax + st[3] == 1.0
  {
    var f := Fitted(w, preserve, vAR);
    var mx := LinearMap(f.xmin, f.xmax, -1.0, 1.0);
    var my := LinearMap(f.ymin, f.ymax, -1.0, 1.0);
    [mx.scale, mx.trans, my.scale, my.trans]
  }

  /** With preservation off the stored region is mapped as it is, x then y,
      and the viewport aspect ratio plays no part. */
  lemma ScaleTrans2DUnpreserved(w: Window, vAR: real)
    requires Fittable(w, false, vAR)
    ensures ScaleTrans2D(w, false, vAR) ==
              [LinearMap(w.xmin, w.xmax, -1.0, 1.0).scale, LinearMap(w.xmin, w.xmax, -1.0, 1.0).trans,
               LinearMap(w.ymin, w.ymax, -1.0, 1.0).scale, LinearMap(w.ymin, w.ymax, -1.0, 1.0).trans]
  {
  }

  /** The four edge conditions determine the transform. */
  lemma ScaleTrans2DUnique(w: Window, preserve: bool, vAR: real, st: seq<real>)
    requires Fittable(w, preserve, vAR)
    requires |st| == 4
    requires st[0] * Fitted(w, preserve, vAR).xmin + st[1] == -1.0
    requires st[0] * Fitted(w, preserve, vAR).xmax + st[1] == 1.0
    requires st[2] * Fitted(w, preserve, vAR).ymin + st[3] == -1.0
    requires st[2] * Fitted(w, preserve, vAR).ymax + st[3] == 1.0
    ensures st == ScaleTrans2D(w, preserve, vAR)
  {
    var f := Fitted(w, preserve, vAR);
    assert Apply(Affine(st[0], st[1]), f.xmin) == -1.0 && Apply(Affine(st[0], st[1]), f.xmax) == 1.0;
    assert Apply(Affine(st[2], st[3]), f.ymin) == -1.0 && Apply(Affine(st[2], st[3]), f.ymax) == 1.0;
    LinearMapUnique(f.xmin, f.xmax, -1.0, 1.0, Affine(st[0], st[1]));
    LinearMapUnique(f.ymin, f.ymax, -1.0, 1.0, Affine(st[2], st[3]));
  }

  /** With preservation on there is no distortion: x and y are scaled in the
      viewport's height/width ratio, so one model unit covers the same
      number of pixels on both axes. */
  lemma ScaleTrans2DUndistorted(w: Window, vAR: real)
    requires Fittable(w, true, vAR)
    ensures ScaleTrans2D(w, true, vAR)[0] == vAR * ScaleTrans2D(w, true, vAR)[2]
  {
    var st := ScaleTrans2D(w, true, vAR);
    var f := Fitted(w, true, vAR);
    assert st[0] * Width(f) == 2.0;
    assert st[2] * Height(f) == 2.0;
    assert (vAR * st[2]) * Width(f) == 2.0;
    assert (st[0] - vAR * st[2]) * Width(f) == 0.0;
  }

  /** The device point of model point p lies in the -1..+1 square. */
  predicate OnScreen(st: seq<real>, p: Point)
    requires |st| == 4
  {
    -1.0 <= st[0] * p.x + st[1] <= 1.0 && -1.0 <= st[2] * p.y + st[3] <= 1.0
  }

  /** Nothing is cropped: every model point inside a well-formed region
      lands inside the -1..+1 square, with or without preservation. */
  lemma RegionVisible(w: Window, preserve: bool, vAR: real, p: Point)
    requires Fittable(w, preserve, vAR)
    requires Width(w) >= 0.0 && Height(w) >= 0.0
    requires w.xmin <= p.x <= w.xmax && w.ymin <= p.y <= w.ymax
    ensures OnScreen(ScaleTrans2D(w, preserve, vAR), p)
  {
    var f := Fitted(w, preserve, vAR);
    assert f.xmin <= p.x <= f.xmax && f.ymin <= p.y <= f.ymax by {
      FittedCovers(w, preserve, vAR);
    }
    assert f.xmin < f.xmax && f.ymin < f.ymax by {
      FittedCovers(w, preserve, vAR);
    }
    WindowOnScreen(ScaleTrans2D(w, preserve, vAR), f, p);
  }

  /** A transform sending the edges of a window f to the edges of the -1..+1
      square sends every point of f into that square. */
  lemma WindowOnScreen(st: seq<real>, f: Window, p: Point)
    requires |st| == 4 && f.xmin < f.xmax && f.ymin < f.ymax
    requires st[0] * f.xmin + st[1] == -1.0 && st[0] * f.xmax + st[1] == 1.0
    requires st[2] * f.ymin + st[3] == -1.0 && st[2] * f.ymax + st[3] == 1.0
    requires f.xmin <= p.x <= f.xmax && f.ymin <= p.y <= f.ymax
    ensures OnScreen(st, p)
  {
    AffineInRange(Affine(st[0], st[1]), f.xmin, f.xmax, -1.0, 1.0, p.x);
    AffineInRange(Affine(st[2], st[3]), f.ymin, f.ymax, -1.0, 1.0, p.y);
  }

  /** For a well-formed region the fitted window covers it and is
      well-formed and non-degenerate itself. */
  lemma FittedCovers(w: Window, preserve: bool, vAR: real)
    requires Fittable(w, preserve, vAR)
    requires Width(w) >= 0.0 && Height(w) >= 0.0
    ensures Covers(Fitted(w, preserve, vAR), w)
    ensures Width(Fitted(w, preserve, vAR)) > 0.0 && Height(Fitted(w, preserve, vAR)) > 0.0
  {
    if preserve {
      MatchAspectRatioCovers(w, vAR);
      MatchAspectRatioGrows(w, vAR);
    }
  }

  /** The first four entries of the box getMCBoundingBox reports. */
  function BoxWindow(b: Box): Window
  {
    Window(b.xmi, b.xma, b.ymi, b.yma)
  }

  /** With a curve's own bounding box as the region of interest, every
      point of the curve is drawn inside the viewport. */
  lemma CurveVisible(ps: seq<Point>, preserve: bool, vAR: real, i: int)
    requires 0 <= i < |ps|
    requires Fittable(BoxWindow(BoundingBox(ps)), preserve, vAR)
    ensures OnScreen(ScaleTrans2D(BoxWindow(BoundingBox(ps)), preserve, vAR), ps[i])
  {
    BoundingBoxContains(ps, i);
    RegionVisible(BoxWindow(BoundingBox(ps)), preserve, vAR, ps[i]);
  }

  /** The region {0, 10, 0, 5} (height/width 0.5) in a square viewport is
      not taller than the viewport, so it is grown vertically about y = 2.5
      to {0, 10, -2.5, 7.5}. */
  lemma PreservedCorrectionExample()
    ensures MatchAspectRatio(Window(0.0, 10.0, 0.0, 5.0), 1.0) == Window(0.0, 10.0, -2.5, 7.5)
  {
    var w := Window(0.0, 10.0, 0.0, 5.0);
    assert !Taller(w, 1.0) by {
      assert Width(w) == 10.0 && Height(w) == 5.0;
      assert 5.0 / 10.0 == 0.5;
    }
  }

  /** ... and then maps to [0.2, -1, 0.2, -0.5]. */
  lemma PreservedExample()
    ensures ScaleTrans2D(Window(0.0, 10.0, 0.0, 5.0), true, 1.0) == [0.2, -1.0, 0.2, -0.5]
  {
    var w, st := Window(0.0, 10.0, 0.0, 5.0), [0.2, -1.0, 0.2, -0.5];
    var f := Fitted(w, true, 1.0);
    assert f == Window(0.0, 10.0, -2.5, 7.5) by {
      PreservedCorrectionExample();
    }
    assert st[0] * f.xmin + st[1] == -1.0 && st[0] * f.xmax + st[1] == 1.0;
    assert st[2] * f.ymin + st[3] == -1.0 && st[2] * f.ymax + st[3] == 1.0;
    ScaleTrans2DUnique(w, true, 1.0, st);
  }

  /** Preservation off: the region {-2, 2, -1, 1} maps to [0.5, 0, 1, 0]
      whatever the viewport aspect ratio. */
  lemma UnpreservedExample(vAR: real)
    ensures ScaleTrans2D(Window(-2.0, 2.0, -1.0, 1.0), false, vAR) == [0.5, 0.0, 1.0, 0.0]
  {
  }
}
