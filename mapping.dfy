/** The two static helpers of ModelView that map model coordinates (MC) to
    OpenGL's -1..+1 logical device space (LDS): `linearMap`, a per-axis affine
    fit, and `matchAspectRatio`, which widens or heightens a 2D window so that
    its height/width ratio matches the viewport's. All quantities are exact
    reals. */
module Mapping {

  /** A per-axis affine map t = scale*f + trans. */
  datatype Affine = Affine(scale: real, trans: real)

  function Apply(m: Affine, f: real): real
  {
    m.scale * f + m.trans
  }

  /** linearMap: the scale and translate sending fromMin to toMin and
      fromMax to toMax. The source divides by fromMax - fromMin without a
      guard, so a degenerate interval is excluded. */
  function LinearMap(fromMin: real, fromMax: real, toMin: real, toMax: real): (m: Affine)
    requires fromMin != fromMax
    ensures Apply(m, fromMin) == toMin
    ensures Apply(m, fromMax) == toMax
  {
    var scale := (toMax - toMin) / (fromMax - fromMin);
    assert scale * (fromMax - fromMin) == toMax - toMin;
    Affine(scale, toMin - scale * fromMin)
  }

  /** The endpoint conditions determine the affine map: any (scale, trans)
      sending both endpoints where LinearMap sends them is LinearMap. */
  lemma LinearMapUnique(fromMin: real, fromMax: real, toMin: real, toMax: real, m: Affine)
    requires fromMin != fromMax
    requires Apply(m, fromMin) == toMin && Apply(m, fromMax) == toMax
    ensures m == LinearMap(fromMin, fromMax, toMin, toMax)
  {
    var l := LinearMap(fromMin, fromMax, toMin, toMax);
    assert (m.scale - l.scale) * (fromMax - fromMin) == 0.0;
  }

  /** A value f with fromMin <= f <= fromMax lands in toMin <= t <= toMax. */
  lemma LinearMapInRange(fromMin: real, fromMax: real, toMin: real, toMax: real, f: real)
    requires fromMin < fromMax && toMin <= toMax
    requires fromMin <= f <= fromMax
    ensures toMin <= Apply(LinearMap(fromMin, fromMax, toMin, toMax), f) <= toMax
  {
    AffineInRange(LinearMap(fromMin, fromMax, toMin, toMax), fromMin, fromMax, toMin, toMax, f);
  }

  /** An affine map sending fromMin to toMin and fromMax to toMax sends the
      interval between them into the interval between toMin and toMax. */
  lemma AffineInRange(m: Affine, fromMin: real, fromMax: real, toMin: real, toMax: real, f: real)
    requires fromMin < fromMax && toMin <= toMax
    requires Apply(m, fromMin) == toMin && Apply(m, fromMax) == toMax
    requires fromMin <= f <= fromMax
    ensures toMin <= Apply(m, f) <= toMax
  {
    var d := fromMax - fromMin;
    assert m.scale * d == toMax - toMin;
    ScaleOrder(d, m.scale, 0.0);
    assert Apply(m, f) == toMin + m.scale * (f - fromMin);
    assert m.scale * (f - fromMin) <= m.scale * d;
  }

  /** A 2D window {xmin, xmax, ymin, ymax} in model coordinates. */
  datatype Window = Window(xmin: real, xmax: real, ymin: real, ymax: real)

  function Width(w: Window): real { w.xmax - w.xmin }

  function Height(w: Window): real { w.ymax - w.ymin }

  function MidX(w: Window): real { 0.5 * (w.xmin + w.xmax) }

  function MidY(w: Window): real { 0.5 * (w.ymin + w.ymax) }

  /** Window `outer` covers window `inner`. */
  predicate Covers(outer: Window, inner: Window)
  {
    outer.xmin <= inner.xmin && inner.xmax <= outer.xmax &&
    outer.ymin <= inner.ymin && inner.ymax <= outer.ymax
  }

  /** The test `wAR > vAR` with wAR = height/width. A zero width is read as
      IEEE arithmetic reads a +0.0 width with vAR > 0: +inf for a positive
      height, -inf for a negative one and NaN for a zero one, and only +inf
      exceeds vAR. Signed zeros are not modelled. */
  predicate Taller(w: Window, vAR: real)
  {
    if Width(w) == 0.0 then Height(w) > 0.0 else Height(w) / Width(w) > vAR
  }

  /** Taller without the division: for a positive vAR, the window is taller
      exactly when its height exceeds vAR times a positive width, falls
      below vAR times a negative width, or is positive over a zero width. */
  lemma TallerIff(w: Window, vAR: real)
    requires vAR > 0.0
    ensures Taller(w, vAR) <==>
              (Width(w) > 0.0 && Height(w) > vAR * Width(w)) ||
              (Width(w) < 0.0 && Height(w) < vAR * Width(w)) ||
              (Width(w) == 0.0 && Height(w) > 0.0)
  {
    var wd, ht := Width(w), Height(w);
    if wd != 0.0 {
      var q := ht / wd;
      assert q * wd == ht;
      if wd > 0.0 {
        ScaleOrder(wd, vAR, q);
        assert q > vAR <==> ht > vAR * wd;
      } else {
        ScaleOrder(-wd, vAR, q);
        assert q > vAR <==> ht < vAR * wd;
      }
    }
  }

  /** matchAspectRatio: widens the x-range when the window is relatively
      taller than the viewport, otherwise grows the y-range, about the
      unchanged midpoint, so that height == vAR * width. */
  function MatchAspectRatio(w: Window, vAR: real): (r: Window)
    requires vAR > 0.0
    ensures Taller(w, vAR) ==> r.ymin == w.ymin && r.ymax == w.ymax
    ensures !Taller(w, vAR) ==> r.xmin == w.xmin && r.xmax == w.xmax
    ensures MidX(r) == MidX(w) && MidY(r) == MidY(w)
    ensures Height(r) == vAR * Width(r)
  {
    if Taller(w, vAR) then
      var wWidth := Height(w) / vAR;
      var xmid := 0.5 * (w.xmin + w.xmax);
      Window(xmid - 0.5 * wWidth, xmid + 0.5 * wWidth, w.ymin, w.ymax)
    else
      var wHeight := Width(w) * vAR;
      var ymid := 0.5 * (w.ymin + w.ymax);
      Window(w.xmin, w.xmax, ymid - 0.5 * wHeight, ymid + 0.5 * wHeight)
  }

  /** The corrected window's height/width ratio is exactly vAR. */
  lemma MatchAspectRatioExact(w: Window, vAR: real)
    requires vAR > 0.0
    requires Width(MatchAspectRatio(w, vAR)) != 0.0
    ensures Height(MatchAspectRatio(w, vAR)) / Width(MatchAspectRatio(w, vAR)) == vAR
  {
    var r := MatchAspectRatio(w, vAR);
    var wr, hr := Width(r), Height(r);
    assert hr == vAR * wr;
  }

  /** For a well-formed window the correction only ever grows an extent. */
  lemma MatchAspectRatioGrows(w: Window, vAR: real)
    requires vAR > 0.0
    requires Width(w) >= 0.0 && Height(w) >= 0.0
    ensures Width(MatchAspectRatio(w, vAR)) >= Width(w)
    ensures Height(MatchAspectRatio(w, vAR)) >= Height(w)
  {
    var r := MatchAspectRatio(w, vAR);
    if Taller(w, vAR) {
      if Width(w) > 0.0 {
        assert Height(w) > vAR * Width(w);
        ScaleOrder(vAR, Width(r), Width(w));
      }
    } else if Width(w) > 0.0 {
      assert Height(w) <= vAR * Width(w);
    }
  }

  /** The contract of MatchAspectRatio determines its result: the window
      that keeps the axis the branch leaves alone, keeps both midpoints and
      has the viewport's aspect ratio is unique. */
  lemma MatchAspectRatioUnique(w: Window, vAR: real, v: Window)
    requires vAR > 0.0
    requires Taller(w, vAR) ==> v.ymin == w.ymin && v.ymax == w.ymax
    requires !Taller(w, vAR) ==> v.xmin == w.xmin && v.xmax == w.xmax
    requires MidX(v) == MidX(w) && MidY(v) == MidY(w)
    requires Height(v) == vAR * Width(v)
    ensures v == MatchAspectRatio(w, vAR)
  {
    var r := MatchAspectRatio(w, vAR);
    if Taller(w, vAR) {
      assert vAR * (Width(v) - Width(r)) == 0.0;
    } else {
      assert Height(v) == Height(r);
    }
  }

  /** For a well-formed window the correction never crops: the corrected
      window covers the original one. */
  lemma MatchAspectRatioCovers(w: Window, vAR: real)
    requires vAR > 0.0
    requires Width(w) >= 0.0 && Height(w) >= 0.0
    ensures Covers(MatchAspectRatio(w, vAR), w)
  {
    MatchAspectRatioGrows(w, vAR);
  }

  /** The correction grows the window as little as possible: every window
      that covers w and has the viewport's aspect ratio is at least as wide
      and as tall as the corrected one. */
  lemma MatchAspectRatioMinimal(w: Window, vAR: real, v: Window)
    requires vAR > 0.0
    requires Width(w) >= 0.0 && Height(w) >= 0.0
    requires Covers(v, w) && Height(v) == vAR * Width(v)
    ensures Width(v) >= Width(MatchAspectRatio(w, vAR))
    ensures Height(v) >= Height(MatchAspectRatio(w, vAR))
  {
    var r := MatchAspectRatio(w, vAR);
    if Taller(w, vAR) {
      assert Height(v) >= Height(r);
    } else {
      assert Width(v) >= Width(r);
    }
    ScaledOrder(vAR, Width(v), Height(v), Width(r), Height(r));
  }

  /** Two extents in the same ratio a compare alike on both axes. */
  lemma ScaledOrder(a: real, w1: real, h1: real, w2: real, h2: real)
    requires a > 0.0 && h1 == a * w1 && h2 == a * w2
    ensures h1 >= h2 <==> w1 >= w2
  {
    ScaleOrder(a, w1, w2);
  }

  /** Multiplying by a positive factor preserves and reflects order. */
  lemma ScaleOrder(a: real, x: real, y: real)
    requires a > 0.0
    ensures x >= y <==> a * x >= a * y
  {
    if x >= y {
      assert a * (x - y) >= 0.0;
    } else {
      assert a * (y - x) > 0.0;
    }
  }

  /** A window that already has the viewport's aspect ratio is returned
      unchanged. */
  lemma MatchAspectRatioNoOp(w: Window, vAR: real)
    requires vAR > 0.0
    requires Height(w) == vAR * Width(w)
    ensures MatchAspectRatio(w, vAR) == w
  {
    if Width(w) != 0.0 {
      assert Height(w) / Width(w) == vAR;
    }
    assert !Taller(w, vAR);
  }

  /** Correcting twice is correcting once. */
  lemma MatchAspectRatioIdempotent(w: Window, vAR: real)
    requires vAR > 0.0
    ensures MatchAspectRatio(MatchAspectRatio(w, vAR), vAR) == MatchAspectRatio(w, vAR)
  {
    MatchAspectRatioNoOp(MatchAspectRatio(w, vAR), vAR);
  }
}
