/** ModelView's state: the process-wide region of interest and
    aspect-ratio-preservation flag (the static members), and each curve's
    cached bounding box (the instance members). */
module ModelView {
  import opened Mapping
  import opened Bounds
  import opened Fitting

  /** The static members mcRegionOfInterest[6] = {xmin, xmax, ymin, ymax,
      zmin, zmax} and aspectRatioPreservationEnabled, as one view-state
      object. */
  class ViewState {
    const region: array<real>
    var preserve: bool

    ghost predicate Valid()
      reads this
    {
      region.Length == 6
    }

    /** The initial values: the -1..+1 cube, with preservation on. */
    constructor ()
      ensures Valid() && fresh(region)
      ensures region[..] == [-1.0, 1.0, -1.0, 1.0, -1.0, 1.0]
      ensures preserve
    {
      region := new real[6] [-1.0, 1.0, -1.0, 1.0, -1.0, 1.0];
      preserve := true;
    }

    /** The xy part of the region; zmin and zmax take no part in 2D. */
    function Region(): Window
      reads this, region
      requires Valid()
    {
      Window(region[0], region[1], region[2], region[3])
    }

    method SetAspectRatioPreservationEnabled(b: bool)
      modifies this`preserve
      ensures preserve == b
      ensures unchanged(region)
    {
      preserve := b;
    }

    /** Copies all six entries verbatim; no validation. */
    method SetMCRegionOfInterest(xyz: array<real>)
      requires Valid() && xyz.Length >= 6
      modifies region
      ensures region[..] == old(xyz[..6])
      ensures preserve == old(preserve)
    {
      for i := 0 to 6
        invariant forall k :: 0 <= k < i ==> region[k] == old(xyz[k])
        invariant forall k :: i <= k < 6 ==> xyz[k] == old(xyz[k])
      {
        region[i] := xyz[i];
      }
    }

    /** Writes [xscale, xtrans, yscale, ytrans] to the caller's buffer. The
        correction for the viewport aspect ratio vAR is made on local copies,
        so the region of interest itself is left as it was. */
    method Compute2DScaleTrans(vAR: real, scaleTransF: array<real>)
      requires Valid() && scaleTransF.Length >= 4 && scaleTransF != region
      requires Fittable(Region(), preserve, vAR)
      modifies scaleTransF
      ensures scaleTransF[..4] == ScaleTrans2D(Region(), preserve, vAR)
      ensures scaleTransF[4..] == old(scaleTransF[4..])
      ensures unchanged(region)
    {
      var xmin, xmax, ymin, ymax := region[0], region[1], region[2], region[3];
      if preserve {
        var c := MatchAspectRatio(Window(xmin, xmax, ymin, ymax), vAR);
        xmin, xmax, ymin, ymax := c.xmin, c.xmax, c.ymin, c.ymax;
      }
      assert Window(xmin, xmax, ymin, ymax) == Fitted(Region(), preserve, vAR);
      var scaleTrans := new real[4];
      var mx := LinearMap(xmin, xmax, -1.0, 1.0);
      scaleTrans[0], scaleTrans[1] := mx.scale, mx.trans;
      var my := LinearMap(ymin, ymax, -1.0, 1.0);
      scaleTrans[2], scaleTrans[3] := my.scale, my.trans;
      for i := 0 to 4
        modifies scaleTransF
        invariant forall k :: 0 <= k < i ==> scaleTransF[k] == scaleTrans[k]
        invariant forall k :: 4 <= k < scaleTransF.Length ==> scaleTransF[k] == old(scaleTransF[k])
      {
        scaleTransF[i] := scaleTrans[i];
      }
    }
  }

  /** One curve: its point count, its colour index and its bounding box
      {xmi, xma, ymi, yma}, fixed at construction. */
  class CurveView {
    const nPoints: int
    const color: int
    var xmi: real
    var xma: real
    var ymi: real
    var yma: real

    function BoundsBox(): Box
      reads this
    {
      Box(xmi, xma, ymi, yma)
    }

    constructor (curveCoordinates: seq<Point>, colorMode: int)
      requires |curveCoordinates| >= 1
      ensures nPoints == |curveCoordinates| && color == colorMode
      ensures BoundsBox() == BoundingBox(curveCoordinates)
    {
      nPoints := |curveCoordinates|;
      color := colorMode;
      new;
      InitModelGeometry(curveCoordinates);
    }

    /** The min/max loop of initModelGeometry, seeded with the first point. */
    method InitModelGeometry(curveCoordinates: seq<Point>)
      requires 1 <= |curveCoordinates| == nPoints
      modifies this`xmi, this`xma, this`ymi, this`yma
      ensures BoundsBox() == BoundingBox(curveCoordinates)
    {
      xmi, xma := curveCoordinates[0].x, curveCoordinates[0].x;
      ymi, yma := curveCoordinates[0].y, curveCoordinates[0].y;
      var i := 1;
      while i < nPoints
        invariant 1 <= i <= nPoints
        invariant BoundsBox() == BoundingBox(curveCoordinates[..i])
      {
        var p := curveCoordinates[i];
        if p.x < xmi {
          xmi := p.x;
        } else if p.x > xma {
          xma := p.x;
        }
        if p.y < ymi {
          ymi := p.y;
        } else if p.y > yma {
          yma := p.y;
        }
        BoundingBoxStep(curveCoordinates, i);
        i := i + 1;
      }
      assert curveCoordinates[..nPoints] == curveCoordinates;
    }

    /** Reports {xmi, xma, ymi, yma, -1, 1}; -1..+1 stands in for z. */
    method GetMCBoundingBox(xyzLimits: array<real>)
      requires xyzLimits.Length >= 6
      modifies xyzLimits
      ensures xyzLimits[..6] == [xmi, xma, ymi, yma, -1.0, 1.0]
      ensures xyzLimits[6..] == old(xyzLimits[6..])
    {
      xyzLimits[0] := xmi;
      xyzLimits[1] := xma;
      xyzLimits[2] := ymi;
      xyzLimits[3] := yma;
      xyzLimits[4] := -1.0;
      xyzLimits[5] := 1.0;
    }
  }

  /** A frame as a client drives it: the region {-2, 2, -1, 1} with
      preservation off, in a viewport three times as tall as wide, gives
      the transform [0.5, 0, 1, 0]. */
  method UnpreservedFrame() returns (st: seq<real>)
    ensures st == [0.5, 0.0, 1.0, 0.0]
  {
    var view := new ViewState();
    var xyz := new real[6] [-2.0, 2.0, -1.0, 1.0, -1.0, 1.0];
    view.SetMCRegionOfInterest(xyz);
    view.SetAspectRatioPreservationEnabled(false);
    ghost var w := Window(-2.0, 2.0, -1.0, 1.0);
    assert view.Region() == w;
    var out := new real[4];
    view.Compute2DScaleTrans(3.0, out);
    st := out[..4];
    assert st == ScaleTrans2D(view.Region(), view.preserve, 3.0);
    assert view.Region() == w && view.preserve == false;
    assert st == ScaleTrans2D(w, false, 3.0);
    UnpreservedExample(3.0);
  }
}
