# ModelView coordinate mapping, in Dafny

This project models the model-to-device coordinate mapping of `ModelView`. `ModelView` draws 2D parametric curves with OpenGL. It keeps one process-wide *region of interest* `{xmin, xmax, ymin, ymax, zmin, zmax}` in model coordinates (MC) and an *aspect-ratio-preservation* flag. Every frame, `compute2DScaleTrans` produces `[xscale, xtrans, yscale, ytrans]`. These map the region onto OpenGL's -1..+1 logical device space (LDS). When the flag is set, the region is first widened or heightened about its centre to match the viewport's height/width ratio `vAR`. Each curve also computes its own bounding box from its sample points. The box seeds the initial region.

All quantities are exact `real`s.

- `mapping.dfy` (module `Mapping`) holds `linearMap` and `matchAspectRatio` as pure functions over an affine pair and a 2D `Window`, with their lemmas.
- `bounds.dfy` (module `Bounds`) holds the min/max loop's specification `BoundingBox`, proved sound and tight.
- `fitting.dfy` (module `Fitting`) holds what `compute2DScaleTrans` computes (`ScaleTrans2D`). It also proves what that transform guarantees: edges go to ±1, there is no distortion, and nothing is cropped.
- `model_view.dfy` (module `ModelView`) holds the imperative part. The class `ViewState` has the static members: the region as a 6-entry `array<real>` and the flag. The class `CurveView` has the per-curve fields `xmi, xma, ymi, yma`, filled by the loop of `initModelGeometry`. Each method is proved against the functions above.

Decisions taken against the code:

- `vAR` is read as the viewport's height/width ratio. The code compares it with `wAR = wHeight/wWidth` (ModelView.c++:92-93), so that is the only reading under which the comparison is meaningful. The Controller that supplies it is not part of this model.
- For `vAR > 0`, `wAR > vAR` with a zero width is read as IEEE arithmetic reads a +0.0 width (predicate `Mapping.Taller`). A zero width over a positive height gives +inf, which takes the widening branch. A zero width over a negative height gives -inf, and one over a zero height gives NaN; neither is greater than `vAR`. So with preservation on, a vertical-line curve (zero width, positive height) is still fitted. For `vAR > 0` and with signed zeros aside, `Fitting.Fittable` states which regions lead to no division by zero in `compute2DScaleTrans`.
- The source does not validate its inputs. Where it divides by zero, the model takes a precondition instead: `fromMin != fromMax` for `linearMap`, `vAR > 0` for `matchAspectRatio`, and `Fittable` for `compute2DScaleTrans`.

## Model

| member | source | states |
|---|---|---|
| Mapping.LinearMap | project1/ModelView.c++:76-84 | for `fromMin != fromMax`, `scale*fromMin + trans == toMin` and `scale*fromMax + trans == toMax` |
| Mapping.LinearMapUnique | project1/ModelView.h:55-59 | any (scale, trans) that sends both endpoints to the same targets equals `LinearMap`'s result, so `t = scale*f + trans` is the only fit |
| Mapping.LinearMapInRange | project1/ModelView.h:55-57 | for `fromMin < fromMax`, `toMin <= toMax` and `fromMin <= f <= fromMax`, the mapped value `t` satisfies `toMin <= t <= toMax` |
| Mapping.TallerIff | project1/ModelView.c++:92-93 | for `vAR > 0`, the test `wAR > vAR` holds exactly when the height exceeds `vAR` times a positive width, falls below `vAR` times a negative width, or is positive over a zero width |
| Mapping.MatchAspectRatio | project1/ModelView.c++:86-109 | if the window is taller than `vAR`, ymin and ymax are unchanged; otherwise xmin and xmax are unchanged. Both midpoints are preserved, and `height == vAR * width` afterwards |
| Mapping.MatchAspectRatioExact | project1/ModelView.c++:90-108 | when the corrected width is non-zero, `(ymax-ymin)/(xmax-xmin) == vAR` |
| Mapping.MatchAspectRatioGrows | project1/ModelView.c++:93-108 | for non-negative width and height, neither extent shrinks |
| Mapping.MatchAspectRatioUnique | project1/ModelView.h:60-63 | the window that changes only the axis the branch names, keeps both midpoints and has ratio `vAR` is unique and equals the result |
| Mapping.MatchAspectRatioCovers | project1/ModelView.h:60-61 | for a well-formed window, the corrected window contains the original one: the region is centred in the expanded window and nothing is cropped |
| Mapping.MatchAspectRatioMinimal | project1/ModelView.c++:93-108 | every window that covers the original and has ratio `vAR` is at least as wide and as tall as the corrected one |
| Mapping.MatchAspectRatioNoOp | project1/ModelView.c++:101-108 | a window whose height already equals `vAR * width` (`wAR == vAR`) is returned unchanged |
| Mapping.MatchAspectRatioIdempotent | project1/ModelView.c++:90-108 | correcting twice gives the same window as correcting once |
| Bounds.Include | project1/ModelView.c++:159-166 | one step of the else-if loop on a box with min <= max yields, on each axis, the smaller of the point and the old minimum and the larger of the point and the old maximum |
| Bounds.BoundingBox | project1/ModelView.c++:154-167 | the box built by the seeded else-if min/max loop has `xmi <= xma` and `ymi <= yma` after every step |
| Bounds.BoundingBoxContains | project1/ModelView.c++:157-167 | every point of the curve satisfies `xmi <= x <= xma` and `ymi <= y <= yma` |
| Bounds.BoundingBoxAttained | project1/ModelView.c++:155-167 | each of `xmi`, `xma`, `ymi` and `yma` is a coordinate of some point of the curve |
| Fitting.Fitted | project1/ModelView.c++:39-50 | the window that is mapped (the region, or the region after aspect correction) has non-zero width and height |
| Fitting.ScaleTrans2D | project1/ModelView.c++:37-60 | the result is `[xscale, xtrans, yscale, ytrans]`. It sends the fitted window's xmin and xmax to -1 and +1, and its ymin and ymax to -1 and +1 |
| Fitting.ScaleTrans2DUnpreserved | project1/ModelView.c++:55-57 | with preservation off, the result is `LinearMap(xmin, xmax, -1, 1)` followed by `LinearMap(ymin, ymax, -1, 1)` of the stored region, for any `vAR` |
| Fitting.ScaleTrans2DUnique | project1/ModelView.h:64-67 | the four edge conditions determine the transform |
| Fitting.ScaleTrans2DUndistorted | project1/ModelView.c++:44-50 | with preservation on, `xscale == vAR * yscale`, so a model unit covers the same number of pixels on both axes |
| Fitting.RegionVisible | project1/ModelView.h:64-67 | every point of a well-formed region is mapped into the -1..+1 square, with preservation on or off |
| Fitting.CurveVisible | project1/project1.c++:56-61 | when a curve's bounding box is the region of interest, every point of the curve is mapped into the -1..+1 square |
| Fitting.PreservedCorrectionExample | project1/ModelView.c++:101-108 | region {0, 10, 0, 5} with `vAR = 1` is heightened about y = 2.5 to {0, 10, -2.5, 7.5} |
| Fitting.PreservedExample | project1/ModelView.c++:44-57 | region {0, 10, 0, 5} with `vAR = 1` and preservation on maps to [0.2, -1, 0.2, -0.5] |
| Fitting.UnpreservedExample | project1/ModelView.c++:55-57 | region {-2, 2, -1, 1} with preservation off maps to [0.5, 0, 1, 0] for any `vAR` |
| ModelView.ViewState.constructor | project1/ModelView.c++:9-10 | the initial region is {-1, 1, -1, 1, -1, 1} and preservation is enabled |
| ModelView.ViewState.SetAspectRatioPreservationEnabled | project1/ModelView.h:33-34 | the flag becomes `b`, and nothing else changes |
| ModelView.ViewState.SetMCRegionOfInterest | project1/ModelView.c++:138-142 | all six entries are copied verbatim, even when the argument is the region array itself; the flag is unchanged |
| ModelView.ViewState.Compute2DScaleTrans | project1/ModelView.c++:37-60 | the first four entries of the output are `ScaleTrans2D` of the region's xy part. Later entries, and the region itself, are unchanged |
| ModelView.UnpreservedFrame | project1/ModelView.c++:37-60 | a client that sets the region {-2, 2, -1, 1, -1, 1}, turns preservation off and asks for the transform with `vAR = 3` gets [0.5, 0, 1, 0] |
| ModelView.CurveView.constructor | project1/ModelView.c++:20-25 | records the point count and colour index, and the box equals `BoundingBox` of the points |
| ModelView.CurveView.InitModelGeometry | project1/ModelView.c++:154-167 | after the loop, `{xmi, xma, ymi, yma}` equals `BoundingBox` of the points |
| ModelView.CurveView.GetMCBoundingBox | project1/ModelView.c++:63-69 | the first six entries of the output are `{xmi, xma, ymi, yma, -1, 1}`, and the rest are unchanged |

## Left out

- OpenGL work is left out: `render`, the VAO/VBO creation and upload in `initModelGeometry`, and the destructor. These are GPU I/O through a library whose source is not shown.
- The colour palette `colors[6]` is left out. It only feeds a shader uniform; `CurveView` keeps the colour index only.
- `handleCommand` is left out. It is a stub that always returns true.
- The Controller's `getViewportAspectRatio` is left out. `vAR` is a parameter of `Compute2DScaleTrans` instead.
- The `double`-to-`float` cast of the four outputs is left out. The outputs are exact reals.
- Floating-point rounding in general is left out. Properties such as exact fill and idempotence hold exactly for reals and only approximately for `double`.
- The scene-wide union of curve boxes (`getOverallMCBoundingBox`) is left out. It lives in the Controller, which is not part of this model.
- `project1.c++` is not part of this model: it reads `data.txt`, evaluates the polynomials with `pow` and runs the GLFW event loop.
- Mapping.LinearMap: requires `fromMin != fromMax`. The source divides by `fromMax - fromMin` without a guard, and the inf/NaN result of a degenerate interval is not modelled.
- Mapping.Taller: signed zeros are not modelled. In the source a width of -0.0 (for example xmin = +0.0, xmax = -0.0) gives `wAR = -inf` for a positive height, which does not widen, while the model widens. For `vAR <= 0` the IEEE comparison is not modelled either.
- Mapping.MatchAspectRatio: requires `vAR > 0`. A zero or negative viewport ratio makes the source divide by zero or produce a meaningless window; those non-finite results are not modelled.
- Fitting.ScaleTrans2D: requires `Fittable`. Degenerate regions make the source produce inf/NaN transforms, which are not modelled.
- ModelView.CurveView.InitModelGeometry: requires at least one point, because the source reads the first point unconditionally.
