# VR widget layer: resize overlay, surface geometry and widget arbitration

This project models the part of the Firefox Reality browser's native VR layer
that places a flat or curved browser window in the scene, hit-tests
controller rays against it, and lets the user resize it.

- `Resizer` (resizer.dfy) models the resize overlay `WidgetResizer`:
  - eight handles and eight bars at fixed relative anchors around a rectangle;
  - the press / drag / release gesture that grabs the first handle under the
    pointer, in creation order;
  - the resize rule: the width and height depend on the handle's mode,
    corner handles keep the aspect ratio, and the result is clamped to
    `kMinResize` / `kMaxResize` and re-centred;
  - the per-handle and per-bar highlight state (`Default`, `Hovered`,
    `Active`), and the overlay's own hit test.

  The gesture is written once as a pure step function, `GestureStep`. The
  `WidgetResizer` class is proved against it: every call of
  `HandleResizeGestures` moves the class's fields exactly as one step of
  `GestureStep` does, and leaves at most one handle (with its bars) lit.
- `Surface` (surface.dfy) models the `Cylinder` surface:
  - its bounds and texture size, and the calls it makes on its layer;
  - the ray test once the ray is in the surface's local space: the epsilon
    rejections, the inside test with a ±0.1 z slack, and the −1 distance
    sentinel;
  - the world-to-texture map, with its y flip and optional clamp.

  The flat `Quad` surface has the same bounds contract and is modelled by the
  same class.
- `Widgets` (widget.dfy) models `Widget`:
  - the `resizing` flag and the lazily created resizer;
  - the intersection policy: the surface clamps unless the widget is
    resizing, and the resizer is consulted only for a hit outside the
    surface while resizing;
  - pushing the resizer's bounds into the surface;
  - the visibility gate, made of the widget's `toggleState` and its
    placement's `firstDraw`.
- `Vectors` (vectors.dfy) and `Options` (options.dfy) hold the vector
  arithmetic and the `Option` type the other modules share.

All arithmetic is over `real`. Lengths are compared squared, so that
`Magnitude` (a square root) is never needed:

- The handle hit test compares `d²` against `(2·kHandleRadius)²`.
- The ray test keeps the centre normal unnormalized, as the cross product
  `c`, and states its epsilon tests in terms of `c·c`. The lemma
  `Surface.UnitNormalAgrees` proves that this agrees with the source's
  arithmetic on the unit normal `c/|c|`.
- The hit distance is carried as its square.

The source's pointers become other values:

- A handle refers to its bars by their index in the bar list.
- The handle the gesture has grabbed is an `Option` of a handle index.
- The `Widget` holds its resizer as a `ResizerView`, a value. `Widget.cpp`
  calls resizer methods whose implementation is not part of this model
  (`SetSize`, `GetCurrentMin/Max`, `HoverExitResize` and a four-argument
  `HandleResizeGestures`). So the widget sees only the bounds it last gave
  its resizer and whether the resizer is shown. The resizer's hit test and
  the outcome of a gesture are parameters.

Parameters replace the render context as well. Whether the context is alive,
whether a scene node is enabled, and whether a surface has a layer are
booleans. Calls made on a layer or on a quad are recorded in order, in
`layerCalls` and `quadCalls`.

## Model

| member | source | states |
|---|---|---|
| Vectors.Clamp | app/src/main/cpp/WidgetResizer.cpp:291-292 | `fmaxf(fminf(v, hi), lo)` lies in `[lo, hi]`, is `v` itself when `v` already is, `hi` when `v` is above it and `lo` when `v` is below it |
| Resizer.HandleModes | app/src/main/cpp/WidgetResizer.cpp:201-208 | there are eight handles; a handle resizes both ways iff it sits at a corner, vertically iff it is a top/bottom midpoint (x = 0.5), horizontally iff it is a left/right midpoint (y = 0.5) |
| Resizer.HandleBars | app/src/main/cpp/WidgetResizer.cpp:192-208 | there are eight bars; every handle has exactly two attached bars, each an existing bar on an edge through the handle |
| Resizer.BarsSharedByTwo | app/src/main/cpp/WidgetResizer.cpp:192-208 | every bar is attached to exactly two handles |
| Resizer.BarOwner | app/src/main/cpp/WidgetResizer.cpp:201-208 | every bar has a handle it is attached to |
| Resizer.FirstHit | app/src/main/cpp/WidgetResizer.cpp:254-263 | the handle found is hit (squared 3D distance to its anchor `(min + size·center, z = 0)` below `(2·kHandleRadius)²`) and no earlier handle is; none is found only when no handle is hit |
| Resizer.HandleDrawnAtHitAnchor | app/src/main/cpp/WidgetResizer.cpp:248-256 | a handle is drawn at the anchor its hit test uses, 0.006 in front |
| Resizer.BarStretch | app/src/main/cpp/WidgetResizer.cpp:240-243 | along one axis, a positive relative size stretches the bar to that fraction of the edge's absolute length, measured in `kBarSize` units; any other size keeps scale 1 |
| Resizer.BarPlacement | app/src/main/cpp/WidgetResizer.cpp:236-245 | a bar is placed at its anchor `min + size·center`, 0.005 in front, scaled by `BarStretch` of its relative size along x and y, and by 1 along z |
| Resizer.HandlePlacement | app/src/main/cpp/WidgetResizer.cpp:236-250 | a handle is placed at its anchor `min + size·center`, 0.006 in front, with unit scale |
| Resizer.BarsCoverHalfAnEdge | app/src/main/cpp/WidgetResizer.cpp:236-246 | a side bar keeps the `kBarSize` thickness and spans half the height; a top/bottom bar keeps the thickness and spans half the width |
| Resizer.ResizeBounds | app/src/main/cpp/WidgetResizer.cpp:265-301 | new bounds are centred (`min = −max`, z = 0), with a width in `[1.5, 8]` and a positive height, for every mode and pointer |
| Resizer.HorizontalResize | app/src/main/cpp/WidgetResizer.cpp:275-292 | a left/right handle gives width `clamp(2·|x|, 1.5, 8)` and height `clamp(originalHeight, 1.5, 4.5)` |
| Resizer.VerticalResize | app/src/main/cpp/WidgetResizer.cpp:275-292 | a top/bottom handle gives width `clamp(originalWidth, 1.5, 8)` and height `clamp(2·|y|, 1.5, 4.5)` |
| Resizer.CornerWidthFollowsPointer | app/src/main/cpp/WidgetResizer.cpp:284-291 | a corner handle gives width `clamp(max(2·|x|, 2·|y|·originalAspect), 1.5, 8)` |
| Resizer.CornerResizeKeepsAspect | app/src/main/cpp/WidgetResizer.cpp:284-295 | a corner handle gives `height · originalAspect = width` |
| Resizer.CornerHeightCanExceedMax | app/src/main/cpp/WidgetResizer.cpp:290-295 | a corner drag's height is not clamped again: from square start bounds, a pointer at `|x| ≥ 2.5` gives a height of at least 5, above `kMaxResize.y` |
| Resizer.GestureStep | app/src/main/cpp/WidgetResizer.cpp:347-377 | a step keeps the bounds non-degenerate and a grabbed handle valid; afterwards `wasPressed == aPressed`; it resizes iff the button is held, was held, and a handle is grabbed |
| Resizer.PressEdgeGrabsFirstHit | app/src/main/cpp/WidgetResizer.cpp:349-356 | a press edge grabs exactly the first handle hit, snapshots the bounds as the drag's start, lights that handle `Active`, and resizes nothing |
| Resizer.OnlyPressEdgeGrabs | app/src/main/cpp/WidgetResizer.cpp:357-374 | outside a press edge, a handle grabbed afterwards is the one grabbed before, with the same start bounds |
| Resizer.ReleaseLetsGo | app/src/main/cpp/WidgetResizer.cpp:357-374 | after any step with the button up, no handle is grabbed |
| Resizer.DragSetsBounds | app/src/main/cpp/WidgetResizer.cpp:363-367 | a held drag sets the bounds to the resize rule applied to the start bounds and the pointer, lighting the grabbed handle `Active`; every other step keeps the bounds |
| Resizer.Run | app/src/main/cpp/WidgetResizer.cpp:376 | after any run of samples the invariant holds, and `wasPressed` is the last sample's button |
| Resizer.HeldWithoutHandleStaysIdle | app/src/main/cpp/WidgetResizer.cpp:349-377 | while the button stays held with no handle grabbed, nothing is grabbed, nothing resizes and the bounds stay |
| Resizer.MissedPressNeverResizes | app/src/main/cpp/WidgetResizer.cpp:349-377 | a press that misses every handle never resizes, however long it is held and wherever the pointer moves |
| Resizer.DragIsRelativeToStart | app/src/main/cpp/WidgetResizer.cpp:363-367 | during a held drag the same handle stays grabbed, and the bounds are the resize rule applied to the start bounds and the last sample |
| Resizer.WidgetResizer.Create | app/src/main/cpp/WidgetResizer.cpp:305-312 | the new resizer has the given bounds, nothing grabbed, the button up, the eight bars and eight handles all `Default`, and every transform laid out |
| Resizer.WidgetResizer.Initialize | app/src/main/cpp/WidgetResizer.cpp:187-211 | afterwards the bars and handles are exactly the eight bars and eight handles above, all `Default`, each laid out for the bounds |
| Resizer.WidgetResizer.CreateBars | app/src/main/cpp/WidgetResizer.cpp:190-199 | the eight bars are created in order, each `Default` and not yet placed (`Unplaced`), and each bar variable names the index it was created at |
| Resizer.WidgetResizer.CreateResizeBar | app/src/main/cpp/WidgetResizer.cpp:213-218 | appends a `Default` bar and returns its index |
| Resizer.WidgetResizer.CreateResizeHandle | app/src/main/cpp/WidgetResizer.cpp:220-225 | appends a `Default` handle over the given bars |
| Resizer.WidgetResizer.Layout | app/src/main/cpp/WidgetResizer.cpp:236-252 | afterwards every bar and every handle has the transform of its anchor for the current bounds |
| Resizer.WidgetResizer.GetIntersectingHandler | app/src/main/cpp/WidgetResizer.cpp:254-263 | returns the first handle hit, in creation order, or none |
| Resizer.WidgetResizer.SetBarState | app/src/main/cpp/WidgetResizer.cpp:71-76 | the bar takes the state; nothing else changes |
| Resizer.WidgetResizer.SetHandleState | app/src/main/cpp/WidgetResizer.cpp:110-119 | the handle and exactly its attached bars take the state; every other handle and bar keeps its state |
| Resizer.WidgetResizer.HandleResize | app/src/main/cpp/WidgetResizer.cpp:265-302 | a no-op with no handle grabbed; otherwise the bounds are those of the resize rule for the grabbed handle's mode, and the overlay is laid out again |
| Resizer.WidgetResizer.TestIntersection | app/src/main/cpp/WidgetResizer.cpp:325-340 | true iff a handle is grabbed, or the point is in the rectangle widened by `kBarSize/2` (z in `[−0.1, 0.1]`), or some handle is hit |
| Resizer.WidgetResizer.ResetHandles | app/src/main/cpp/WidgetResizer.cpp:344-346 | afterwards every handle and every bar is `Default` |
| Resizer.WidgetResizer.Light | app/src/main/cpp/WidgetResizer.cpp:110-119 | after a reset, lighting one handle leaves exactly it and its bars in that state |
| Resizer.WidgetResizer.PressEdge | app/src/main/cpp/WidgetResizer.cpp:349-356 | the press-edge branch moves the fields as `GestureStep` does and lights what it marks |
| Resizer.WidgetResizer.ReleaseEdge | app/src/main/cpp/WidgetResizer.cpp:357-362 | the release branch moves the fields as `GestureStep` does and lights what it marks |
| Resizer.WidgetResizer.Drag | app/src/main/cpp/WidgetResizer.cpp:363-367 | the drag branch moves the fields as `GestureStep` does and lights what it marks |
| Resizer.WidgetResizer.Hover | app/src/main/cpp/WidgetResizer.cpp:368-374 | the hover branch moves the fields as `GestureStep` does and lights what it marks |
| Resizer.WidgetResizer.HandleResizeGestures | app/src/main/cpp/WidgetResizer.cpp:342-378 | the fields move exactly as one `GestureStep`, and the result is that step's resize flag. Afterwards the handle it marks, and exactly that handle's bars, are in the marked state, everything else is `Default`, and at most one handle is not `Default` |
| Resizer.WidgetResizer.GetWorldMin | app/src/main/cpp/WidgetResizer.cpp:380-383 | returns the current minimum corner `min`, never level with the maximum in x or y |
| Resizer.WidgetResizer.GetWorldMax | app/src/main/cpp/WidgetResizer.cpp:385-388 | returns the current maximum corner `max`, never level with the minimum in x or y |
| Surface.CenteredBounds | app/src/main/cpp/Cylinder.cpp:137-142 | the centred bounds have the given width and height, `min = −max` and z = 0 |
| Surface.CenterNormal | app/src/main/cpp/Cylinder.cpp:166-170 | for flat bounds, `(bottomRight − min) × (max − min) = (0, 0, w·h)` |
| Surface.Cylinder.GetCenterNormal | app/src/main/cpp/Cylinder.cpp:166-170 | returns the cross product `(bottomRight − min) × (max − min)` of the current bounds UNNORMALIZED, where the source returns its unit vector; on flat bounds it is `(0, 0, w·h)` |
| Surface.Intersect | app/src/main/cpp/Cylinder.cpp:188-233 | a disabled root never hits; a miss leaves `aResult` and `aIsInside` as they were, with distance −1; a hit carries a distance and sets `aIsInside` iff the hit is in bounds, otherwise keeping it |
| Surface.TowardTestAgrees | app/src/main/cpp/Cylinder.cpp:197-202 | the squared test on `c` agrees with `direction·n > −kEpsilon` on the unit normal |
| Surface.NearTestAgrees | app/src/main/cpp/Cylinder.cpp:204-208 | the squared test on `c` agrees with `|dotV| < kEpsilon` on the unit normal |
| Surface.UnitNormalAgrees | app/src/main/cpp/Cylinder.cpp:188-233 | the model's ray test equals the source's steps on the unit normal `c/|c|` |
| Surface.IntersectReport | app/src/main/cpp/Cylinder.cpp:188-233 | it hits iff the root is enabled, the ray points at the plane, and the start is off the plane. A miss leaves `aResult` and `aIsInside` as they were, with distance −1. A hit sets `aIsInside` iff it is in bounds and otherwise leaves it, with a distance ≥ 0 from the ray start |
| Surface.HitLiesOnPlane | app/src/main/cpp/Cylinder.cpp:210-211 | a hit `point + direction·(dotV/dotNormals)` lies on the plane through `worldMin` normal to `c` |
| Surface.ParallelRayMisses | app/src/main/cpp/Cylinder.cpp:198-202 | a ray parallel to the plane misses |
| Surface.ClampLeavesResult | app/src/main/cpp/Cylinder.cpp:219-230 | the results are the same with or without the clamp |
| Surface.DownwardRayHitsBelow | app/src/main/cpp/Cylinder.cpp:197-221 | a ray aimed straight down from height `t ≥ kEpsilon` above flat bounds hits the point below its start at distance `t`, inside iff that point is in bounds |
| Surface.HeadOnRayHitsCenter | app/src/main/cpp/Cylinder.cpp:197-221 | such a ray over the centre hits the centre, inside |
| Surface.Cylinder.TestIntersection | app/src/main/cpp/Cylinder.cpp:188-233 | the ray test on the surface's current bounds, with the same results for either value of `aClamp` |
| Surface.QuadCoordinates | app/src/main/cpp/Cylinder.cpp:235-249 | without the clamp, `min.x ↦ 0` and `max.x ↦ textureWidth`, and y is flipped: `max.y ↦ 0` and `min.y ↦ textureHeight` |
| Surface.Cylinder.ConvertToQuadCoordinates | app/src/main/cpp/Cylinder.cpp:235-249 | the texture map of the current bounds and texture size; clamped, with positive extents and a non-negative texture size, it lies within `[0, texW] × [0, texH]` |
| Surface.QuadCorners | app/src/main/cpp/Cylinder.cpp:246-248 | `min.x ↦ 0`, `max.x ↦ textureWidth`, `max.y ↦ 0`, `min.y ↦ textureHeight` |
| Surface.ClampedQuadCoordinatesInTexture | app/src/main/cpp/Cylinder.cpp:235-249 | with the clamp on and positive extents, every point maps into `[0, texW] × [0, texH]` |
| Surface.QuadRoundTrip | app/src/main/cpp/Cylinder.cpp:246-248 | texture coordinates mapped onto the plane and back are unchanged |
| Surface.WorldRoundTrip | app/src/main/cpp/Cylinder.cpp:246-248 | a point of the plane mapped to texture coordinates and back is unchanged |
| Surface.Cylinder.CreateWithBounds | app/src/main/cpp/Cylinder.cpp:70-78 | the surface has the given bounds; a layer supplies the texture size and is sent the world size |
| Surface.Cylinder.CreateWithSize | app/src/main/cpp/Cylinder.cpp:80-88 | the bounds are `(−w/2, −h/2, 0)` and `(w/2, h/2, 0)`, so `GetWorldSize` returns `(w, h)` |
| Surface.Cylinder.Initialize | app/src/main/cpp/Cylinder.cpp:44-59 | with a layer, the texture size is the layer's and the layer is sent the world width and height; without one, nothing changes |
| Surface.Cylinder.SetTextureSize | app/src/main/cpp/Cylinder.cpp:96-103 | `GetTextureSize` then returns the pair set, and a layer is told to resize |
| Surface.Cylinder.GetTextureSize | app/src/main/cpp/Cylinder.cpp:90-94 | returns the stored texture width and height |
| Surface.Cylinder.GetWorldSize | app/src/main/cpp/Cylinder.cpp:131-135 | returns `(max.x − min.x, max.y − min.y)` of the current bounds |
| Surface.Cylinder.SetWorldBounds | app/src/main/cpp/Cylinder.cpp:144-155 | bounds equal to the current ones change nothing and send nothing. Other bounds replace both corners, and a layer is sent `(max.x − min.x, max.y − min.y)` |
| Surface.Cylinder.SetWorldSize | app/src/main/cpp/Cylinder.cpp:137-142 | sets the centred bounds of the size; a second call with the same size sends nothing to the layer |
| Widgets.Started | app/src/main/cpp/Widget.cpp:303-323 | with no resizer and no live context nothing changes; otherwise the widget is resizing with a shown resizer at the given bounds; the earlier quad calls are kept as a prefix |
| Widgets.Finished | app/src/main/cpp/Widget.cpp:326-336 | afterwards the widget is not resizing and keeps its resizer, hidden if it was resizing; the earlier quad calls are kept as a prefix |
| Widgets.StartResizeOutcome | app/src/main/cpp/Widget.cpp:303-323 | with a resizer or a live context, starting leaves the widget resizing with a shown resizer whose bounds are the surface's. With neither, it changes nothing. Either way, a resizing widget has a resizer |
| Widgets.FinishResizeIdempotent | app/src/main/cpp/Widget.cpp:326-336 | finishing leaves the widget not resizing, keeps its resizer (hidden if it was resizing), and a second finish changes nothing |
| Widgets.StartThenFinish | app/src/main/cpp/Widget.cpp:303-336 | a start then a finish leaves a hidden resizer with the start's bounds, and a quad back at `Fill` on a transparent background |
| Widgets.WorldHeightFor | app/src/main/cpp/Widget.cpp:175-179 | the derived height keeps the texture's aspect: `height · texW = W · texH` |
| Widgets.Widget.Create | app/src/main/cpp/Widget.cpp:49-92 | a widget over a layer, with a live context, starts toggled on and shown; any other widget starts hidden; nothing is resizing and there is no placement |
| Widgets.Widget.FirstDraw | app/src/main/cpp/Widget.cpp:94-99 | true iff there is a placement and it has `firstDraw` set |
| Widgets.Widget.ToggleWidget | app/src/main/cpp/Widget.cpp:249-257 | `toggleState` and `IsVisible()` become `aEnabled`; the root is shown iff `aEnabled` and the placement exists with `firstDraw` |
| Widgets.Widget.IsVisible | app/src/main/cpp/Widget.cpp:254-257 | returns `toggleState`, whatever the root shows |
| Widgets.Widget.SetPlacement | app/src/main/cpp/Widget.cpp:291-300 | a first-drawn placement arriving while `FirstDraw()` was false shows the root as `toggleState` says. The placement is stored, and a layer is sent its density |
| Widgets.Widget.ResetFirstDraw | app/src/main/cpp/Widget.cpp:128-135 | afterwards `FirstDraw()` is false and the root is hidden |
| Widgets.Widget.StartResize | app/src/main/cpp/Widget.cpp:303-323 | the resize state moves as `Started` says; with a resizer or a live context, the widget is resizing with a shown resizer at the surface's bounds |
| Widgets.Widget.FinishResize | app/src/main/cpp/Widget.cpp:326-336 | the resize state moves as `Finished` says, and the widget is not resizing |
| Widgets.Widget.HandleResize | app/src/main/cpp/Widget.cpp:344-353 | the surface takes the resizer's current bounds exactly when the step resized or ended a resize; the layer is then sent the new width and height unless the bounds are unchanged or there is no layer, and its earlier calls are kept; otherwise the surface and its layer are untouched |
| Widgets.Widget.SetWorldWidth | app/src/main/cpp/Widget.cpp:175-190 | the surface becomes the centred `W × W·texH/texW`, and a layer is sent that size unless the bounds were already those, its earlier calls kept; a resizing widget's resizer is given the same bounds; otherwise the resizer is untouched |
| Widgets.Widget.TestControllerIntersection | app/src/main/cpp/Widget.cpp:201-221 | a disabled widget misses with distance −1 and leaves `aResult` and `aIsInWidget` as they were; an enabled one hits exactly when its surface does |
| Widgets.Widget.ConvertToWidgetCoordinates | app/src/main/cpp/Widget.cpp:223-231 | the surface's texture map, clamped exactly when the widget is not resizing |
| Widgets.NotResizingUsesSurfaceHit | app/src/main/cpp/Widget.cpp:202-221 | when not resizing, the widget's answer is exactly the surface's clamped hit, and the resizer is never consulted |
| Widgets.ResizerConsultedOnlyOutside | app/src/main/cpp/Widget.cpp:202-221 | a disabled widget reports a miss with distance −1. Otherwise the hit, its point and its distance are the surface's, resizing or not. `aIsInWidget` differs from the surface's only on a hit outside the surface while resizing, where it is the resizer's answer |
| Widgets.WidgetCoordinatesInTexture | app/src/main/cpp/Widget.cpp:224-231 | when not resizing, widget coordinates lie within the texture |
| Widgets.ResizingCoordinatesRoundTrip | app/src/main/cpp/Widget.cpp:224-231 | while resizing, coordinates are unclamped, so every point of the plane maps back to itself |

## Left out

- Rendering is not modelled: materials and colours (`UpdateResizeMaterial`), the handle's circle mesh (`ResizeHandle::CreateGeometry`, using cos/sin), the bar quads, textures and `SetTintColor`. A highlight state is modelled; its colour is not.
- Scene nodes are not modelled: `Toggle`/`Transform` node graphs and `GetRoot`. `WidgetResizer::ToggleVisible` and scene-node enabling become booleans. A transform is recorded as a position and scale (`Placement`), not as a matrix.
- The world-to-local matrix step of `Cylinder::TestIntersection` (`AfineInverse`, `MultiplyPosition`, `MultiplyDirection`) is left out: the ray is taken in local space.
- `Normalize` and `Magnitude` are not computed. The model works with squared lengths, and `Surface.UnitNormalAgrees` ties it to the unit-normal arithmetic.
- Float rounding, and the source's exact float `==` on vectors, are not modelled: equality is equality of reals.
- Surface.Intersect: when `CenterNormal` is zero (zero width, or zero height with both corners at the same z) the source normalizes a zero vector and divides by zero; the model reports a miss. A zero-height rectangle whose corners differ in z has the nonzero normal `(0, −w·Δz, 0)` and is tested like any other.
- Resizer.WidgetResizer.Create: requires non-degenerate bounds. For a corner drag from zero-width bounds the aspect `originalWidth / originalHeight` is 0, and `width / originalAspect` (WidgetResizer.cpp lines 286 and 294) divides by zero; from zero-height bounds the aspect itself (line 272) divides by zero.
- Resizer.ResizeBounds: for a corner handle it requires non-degenerate start bounds, which the resizer's invariant guarantees, for the same reason.
- Surface.Cylinder.ConvertToQuadCoordinates: requires nonzero extents, where the source divides by zero.
- Widgets.Widget.SetWorldWidth: requires a nonzero texture width and height. With texture width 0 the aspect is 0 and `aWorldWidth / aspect` (Widget.cpp line 179) divides by zero; with texture height 0 the float aspect is infinite and the source's height comes out as 0 (for a nonzero width), a case the model does not cover.
- `int32_t` texture sizes are unbounded integers; there is no wrap-around.
- The resizer's `resizing` field is initialised to false and never read in its source file, so it is not modelled.
- `WidgetResizer::HoverExitResize`, `SetSize` and `GetCurrentMin/Max`, and the four-argument `HandleResizeGestures` that `Widget` calls, have no implementation in this model. The widget sees them only through `ResizerView` and `ResizeOutcome`. `Widget::HoverExitResize` only forwards to the first of these and is left out.
- `Resizer.WidgetResizer.HandleResizeGestures` has two parts that are separate methods: the reset loop is `ResetHandles`, and each branch is a method of its own (`PressEdge`, `ReleaseEdge`, `Drag`, `Hover`).
- `Resizer.WidgetResizer.Initialize`'s bar half is a method of its own, `CreateBars`.
- Null pointers the source dereferences without a check become preconditions: `Widgets.Widget.ToggleWidget` and `Widgets.Widget.TestControllerIntersection` require `hasRoot` (the root node exists), `Widgets.Widget.SetPlacement` requires a placement when there is a layer (the density is read from it), and `Widgets.Widget.HandleResize` requires a resizer.
- Widgets.Widget.Create: the texture size `Widget::State::Initialize` passes to `quad->SetTexture` for a widget without a layer is not recorded; the quad's texture is not modelled.
- Widgets.Widget.Create: the source leaves both surface pointers null when the render context is gone, and every later surface call would then dereference null. The model keeps the surface; `hasRoot` is false.
- Widget helpers that only forward to the surface or the transform are left out: `GetSurfaceTextureSize`, `GetWorldSize`, `GetWidgetMinAndMax`, `ConvertToWorldCoordinates`, `SetTransform`, `GetTransform`.
- Layer creation in `Widget::State::Initialize` is left out: the surface-changed delegate and the JNI `DispatchCreateWidgetLayer`.
- The Quad surface's own implementation is not part of this model. Its ray test and texture map are those of the cylinder model. The quad-only calls `SetScaleMode` and `SetBackgroundColor` are recorded as `QuadCall`s.
