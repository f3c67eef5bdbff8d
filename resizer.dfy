/** The resize overlay of app/src/main/cpp/WidgetResizer.cpp: eight handles
    and eight bars around a rectangle, the press/drag/release gesture that
    grabs a handle, and the rule that turns a drag point into new bounds.

    The source shares bar objects between handles through pointers; here a
    handle refers to its bars by their index in the bar list, and the
    per-bar and per-handle `resizeState` live in two sequences of the
    resizer indexed the same way. */
module Resizer {
  import opened Vectors
  import opened Options
  import Surface

  const BarSize: real := 0.04
  const HandleRadius: real := 0.08
  const MinResize: Vec3 := Vec3(1.5, 1.5, 0.0)
  const MaxResize: Vec3 := Vec3(8.0, 4.5, 0.0)
  /** The scale of the bars on the left and right edges. */
  const HorizontalSize: Vec3 := Vec3(0.0, 0.5, 0.0)
  /** The scale of the bars on the top and bottom edges. */
  const VerticalSize: Vec3 := Vec3(0.5, 0.0, 0.0)
  /** The z offsets at which `Layout` places bars and handles. */
  const BarDepth: real := 0.005
  const HandleDepth: real := 0.006

  datatype ResizeState = Default | Hovered | Active

  datatype ResizeMode = Horizontal | Vertical | Both

  /** A bar: its anchor and its scale, both relative to the rectangle. */
  datatype ResizeBar = ResizeBar(center: Vec3, scale: Vec3)

  /** A handle: its anchor relative to the rectangle, how it resizes, and the
      indices of the bars it lights up with it. */
  datatype ResizeHandle = ResizeHandle(center: Vec3, resizeMode: ResizeMode, attachedBars: seq<nat>)

  /** A transform built as `Matrix::Position(position)` scaled in place by `scale`. */
  datatype Placement = Placement(position: Vec3, scale: Vec3)

  /** The bars in creation order: leftTop, leftBottom, rightTop, rightBottom,
      topLeft, topRight, bottomLeft, bottomRight. */
  const Bars: seq<ResizeBar> := [
    ResizeBar(Vec3(0.0, 0.75, 0.0), HorizontalSize),
    ResizeBar(Vec3(0.0, 0.25, 0.0), HorizontalSize),
    ResizeBar(Vec3(1.0, 0.75, 0.0), HorizontalSize),
    ResizeBar(Vec3(1.0, 0.25, 0.0), HorizontalSize),
    ResizeBar(Vec3(0.25, 1.0, 0.0), VerticalSize),
    ResizeBar(Vec3(0.75, 1.0, 0.0), VerticalSize),
    ResizeBar(Vec3(0.25, 0.0, 0.0), VerticalSize),
    ResizeBar(Vec3(0.75, 0.0, 0.0), VerticalSize)
  ]

  /** The handles in creation order: the four corners, the top and bottom
      midpoints, then the left and right midpoints. */
  const Handles: seq<ResizeHandle> := [
    ResizeHandle(Vec3(0.0, 1.0, 0.0), Both, [0, 4]),
    ResizeHandle(Vec3(1.0, 1.0, 0.0), Both, [2, 5]),
    ResizeHandle(Vec3(0.0, 0.0, 0.0), Both, [1, 6]),
    ResizeHandle(Vec3(1.0, 0.0, 0.0), Both, [3, 7]),
    ResizeHandle(Vec3(0.5, 1.0, 0.0), Vertical, [4, 5]),
    ResizeHandle(Vec3(0.5, 0.0, 0.0), Vertical, [6, 7]),
    ResizeHandle(Vec3(0.0, 0.5, 0.0), Horizontal, [0, 1]),
    ResizeHandle(Vec3(1.0, 0.5, 0.0), Horizontal, [2, 3])
  ]

  /** The number of handles from index `from` on that `bar` is attached to. */
  function AttachCount(handles: seq<ResizeHandle>, bar: nat, from: nat): (n: nat)
    requires from <= |handles|
    ensures n <= |handles| - from
    decreases |handles| - from
  {
    if from == |handles| then 0
    else (if bar in handles[from].attachedBars then 1 else 0) + AttachCount(handles, bar, from + 1)
  }

  /** A handle a bar is attached to. */
  function BarOwner(bar: nat): (h: nat)
    requires bar < |Bars|
    ensures h < |Handles| && bar in Handles[h].attachedBars
  {
    if bar == 0 || bar == 4 then 0
    else if bar == 2 || bar == 5 then 1
    else if bar == 1 || bar == 6 then 2
    else 3
  }

  predicate IsCorner(c: Vec3) {
    (c.x == 0.0 || c.x == 1.0) && (c.y == 0.0 || c.y == 1.0)
  }

  /** The handles `Initialize` creates: eight of them; corners resize both
      ways, the top and bottom midpoints vertically, the left and right
      midpoints horizontally. */
  lemma HandleModes()
    ensures |Handles| == 8
    ensures forall h :: 0 <= h < |Handles| ==>
      (Handles[h].resizeMode == Both <==> IsCorner(Handles[h].center))
    ensures forall h :: 0 <= h < |Handles| ==>
      (Handles[h].resizeMode == Vertical <==> Handles[h].center.x == 0.5)
    ensures forall h :: 0 <= h < |Handles| ==>
      (Handles[h].resizeMode == Horizontal <==> Handles[h].center.y == 0.5)
  {
  }

  /** Every handle has two attached bars, each a bar of the list lying on an
      edge through the handle. */
  lemma HandleBars()
    ensures |Bars| == 8
    ensures forall h :: 0 <= h < |Handles| ==> |Handles[h].attachedBars| == 2
    ensures forall h, k :: 0 <= h < |Handles| && 0 <= k < |Handles[h].attachedBars| ==>
      Handles[h].attachedBars[k] < |Bars| &&
      (Bars[Handles[h].attachedBars[k]].center.x == Handles[h].center.x ||
       Bars[Handles[h].attachedBars[k]].center.y == Handles[h].center.y)
  {
  }

  /** Every bar is attached to exactly two handles. */
  lemma BarsSharedByTwo()
    ensures forall b :: 0 <= b < |Bars| ==> AttachCount(Handles, b, 0) == 2
  {
    forall b | 0 <= b < |Bars|
      ensures AttachCount(Handles, b, 0) == 2
    {
      assert AttachCount(Handles, b, 4) == (if b in [4, 5, 6, 7] then 1 else 0) + (if b in [0, 1, 2, 3] then 1 else 0) by {
        assert AttachCount(Handles, b, 8) == 0;
        assert AttachCount(Handles, b, 7) == (if b in [2, 3] then 1 else 0);
        assert AttachCount(Handles, b, 6) == (if b in [0, 1] then 1 else 0) + AttachCount(Handles, b, 7);
        assert AttachCount(Handles, b, 5) == (if b in [6, 7] then 1 else 0) + AttachCount(Handles, b, 6);
      }
      assert AttachCount(Handles, b, 3) == (if b in [3, 7] then 1 else 0) + AttachCount(Handles, b, 4);
      assert AttachCount(Handles, b, 2) == (if b in [1, 6] then 1 else 0) + AttachCount(Handles, b, 3);
      assert AttachCount(Handles, b, 1) == (if b in [2, 5] then 1 else 0) + AttachCount(Handles, b, 2);
    }
  }


  function Width(min: Vec3, max: Vec3): real { max.x - min.x }

  function Height(min: Vec3, max: Vec3): real { max.y - min.y }

  /** The world position of a relative anchor `c`, at z = 0. */
  function Anchor(min: Vec3, max: Vec3, c: Vec3): Vec3 {
    Vec3(min.x + Width(min, max) * c.x, min.y + Height(min, max) * c.y, 0.0)
  }

  /** The point is closer than `2·kHandleRadius` to the handle's anchor
      (compared squared). */
  predicate HitsHandle(min: Vec3, max: Vec3, handle: ResizeHandle, point: Vec3) {
    DistanceSq(point, Anchor(min, max, handle.center)) < (HandleRadius * 2.0) * (HandleRadius * 2.0)
  }

  /** The first handle at index `from` or later that the point hits. */
  function FirstHit(handles: seq<ResizeHandle>, min: Vec3, max: Vec3, point: Vec3, from: nat): (r: Option<nat>)
    requires from <= |handles|
    ensures r.Some? ==> from <= r.value < |handles| && HitsHandle(min, max, handles[r.value], point)
    ensures r.Some? ==> forall j :: from <= j < r.value ==> !HitsHandle(min, max, handles[j], point)
    ensures r.None? ==> forall j :: from <= j < |handles| ==> !HitsHandle(min, max, handles[j], point)
    decreases |handles| - from
  {
    if from == |handles| then None
    else if HitsHandle(min, max, handles[from], point) then Some(from)
    else FirstHit(handles, min, max, point, from + 1)
  }

  /** The rectangle widened by half a bar in x and y, with z in [−0.1, 0.1]. */
  predicate InExpandedRect(min: Vec3, max: Vec3, point: Vec3) {
    && point.x >= min.x - BarSize * 0.5 && point.y >= min.y - BarSize * 0.5 && point.z >= -Surface.ZSlack
    && point.x <= max.x + BarSize * 0.5 && point.y <= max.y + BarSize * 0.5 && point.z <= Surface.ZSlack
  }

  /** The scale `Layout` gives a bar along one axis: a positive relative
      size stretches the bar to that fraction of the edge length `length`,
      any other keeps the `kBarSize` thickness. */
  function BarStretch(fraction: real, length: real): (s: real)
    ensures fraction > 0.0 ==> s * BarSize == fraction * Abs(length)
    ensures fraction <= 0.0 ==> s == 1.0
  {
    var target := if fraction > 0.0 then fraction * Abs(length) else BarSize;
    assert (target / BarSize) * BarSize == target;
    target / BarSize
  }

  /** The transform `Layout` gives a bar: at its anchor, 0.005 in front, and
      stretched along its edge to `scale` times the edge length. */
  function BarPlacement(min: Vec3, max: Vec3, bar: ResizeBar): (p: Placement)
    ensures p.position.x == Anchor(min, max, bar.center).x && p.position.y == Anchor(min, max, bar.center).y
    ensures p.position.z == BarDepth
    ensures p.scale == Vec3(BarStretch(bar.scale.x, Width(min, max)), BarStretch(bar.scale.y, Height(min, max)), 1.0)
  {
    var width := Width(min, max);
    var height := Height(min, max);
    Placement(Vec3(min.x + width * bar.center.x, min.y + height * bar.center.y, BarDepth),
              Vec3(BarStretch(bar.scale.x, width), BarStretch(bar.scale.y, height), 1.0))
  }

  /** The transform `Layout` gives a handle: at its anchor, 0.006 in front. */
  function HandlePlacement(min: Vec3, max: Vec3, handle: ResizeHandle): (p: Placement)
    ensures p.position.x == Anchor(min, max, handle.center).x && p.position.y == Anchor(min, max, handle.center).y
    ensures p.position.z == HandleDepth
    ensures p.scale == Vec3(1.0, 1.0, 1.0)
  {
    var width := Width(min, max);
    var height := Height(min, max);
    Placement(Vec3(min.x + width * handle.center.x, min.y + height * handle.center.y, HandleDepth),
              Vec3(1.0, 1.0, 1.0))
  }

  /** Each handle is drawn, in front of the surface, at the anchor its hit test uses. */
  lemma HandleDrawnAtHitAnchor(min: Vec3, max: Vec3, handle: ResizeHandle)
    ensures var p := HandlePlacement(min, max, handle).position;
      var a := Anchor(min, max, handle.center);
      p.x == a.x && p.y == a.y && p.z == a.z + HandleDepth
  {
  }

  /** A bar keeps the thickness of `kBarSize` across its edge and covers half
      the edge along it. */
  lemma BarsCoverHalfAnEdge(min: Vec3, max: Vec3, b: nat)
    requires b < |Bars|
    ensures var s := BarPlacement(min, max, Bars[b]).scale;
      if b < 4 then s.x == 1.0 && s.y * BarSize == Abs(Height(min, max)) * 0.5
      else s.y == 1.0 && s.x * BarSize == Abs(Width(min, max)) * 0.5
  {
  }

  /** The aspect ratio of the bounds a corner drag started with. */
  function Aspect(startMin: Vec3, startMax: Vec3): real
    requires startMax.y != startMin.y
  {
    Abs(startMax.x - startMin.x) / Abs(startMax.y - startMin.y)
  }

  /** The bounds `HandleResize` computes for a drag to `point` with a handle of
      mode `mode`, from the bounds the drag started with. The aspect ratio of
      the start bounds is only used, and only defined, for corner handles. */
  function ResizeBounds(mode: ResizeMode, startMin: Vec3, startMax: Vec3, point: Vec3): (b: Bounds)
    requires mode == Both ==> startMax.x != startMin.x && startMax.y != startMin.y
    ensures b.min == Neg(b.max) && b.max.z == 0.0
    ensures MinResize.x <= b.max.x - b.min.x <= MaxResize.x
    ensures b.max.y - b.min.y > 0.0
  {
    var originalWidth := Abs(startMax.x - startMin.x);
    var originalHeight := Abs(startMax.y - startMin.y);
    var width := Abs(point.x) * 2.0;
    var height := Abs(point.y) * 2.0;
    var w := match mode
      case Horizontal => width
      case Vertical => originalWidth
      case Both => Max(width, height * Aspect(startMin, startMax));
    var h := match mode
      case Horizontal => originalHeight
      case Vertical => height
      case Both => w / Aspect(startMin, startMax);
    var clampedWidth := Clamp(w, MinResize.x, MaxResize.x);
    var clampedHeight := Clamp(h, MinResize.y, MaxResize.y);
    var finalHeight := if mode == Both then clampedWidth / Aspect(startMin, startMax) else clampedHeight;
    assert finalHeight > 0.0 by {
      if mode == Both {
        AspectPositive(startMin, startMax);
        QuotientPositive(clampedWidth, Aspect(startMin, startMax));
      }
    }
    Bounds(Vec3(-clampedWidth * 0.5, -finalHeight * 0.5, 0.0), Vec3(clampedWidth * 0.5, finalHeight * 0.5, 0.0))
  }

  lemma QuotientPositive(w: real, a: real)
    requires w > 0.0 && a > 0.0
    ensures w / a > 0.0
  {
  }

  lemma QuotientTimes(w: real, a: real)
    requires a != 0.0
    ensures (w / a) * a == w
  {
  }

  lemma AspectPositive(startMin: Vec3, startMax: Vec3)
    requires startMax.x != startMin.x && startMax.y != startMin.y
    ensures Aspect(startMin, startMax) > 0.0
  {
    QuotientPositive(Abs(startMax.x - startMin.x), Abs(startMax.y - startMin.y));
  }

  /** A left or right handle follows the pointer's x and keeps the start
      height, clamped to [1.5, 4.5]. */
  lemma HorizontalResize(startMin: Vec3, startMax: Vec3, point: Vec3)
    ensures var b := ResizeBounds(Horizontal, startMin, startMax, point);
      && b.max.x - b.min.x == Clamp(Abs(point.x) * 2.0, MinResize.x, MaxResize.x)
      && b.max.y - b.min.y == Clamp(Abs(startMax.y - startMin.y), MinResize.y, MaxResize.y)
  {
  }

  /** A top or bottom handle follows the pointer's y and keeps the start
      width, clamped to [1.5, 8]. */
  lemma VerticalResize(startMin: Vec3, startMax: Vec3, point: Vec3)
    ensures var b := ResizeBounds(Vertical, startMin, startMax, point);
      && b.max.x - b.min.x == Clamp(Abs(startMax.x - startMin.x), MinResize.x, MaxResize.x)
      && b.max.y - b.min.y == Clamp(Abs(point.y) * 2.0, MinResize.y, MaxResize.y)
  {
  }

  /** A corner handle follows whichever axis of the pointer position demands the
      larger size at the start aspect ratio, clamped to [1.5, 8]. */
  lemma CornerWidthFollowsPointer(startMin: Vec3, startMax: Vec3, point: Vec3)
    requires startMax.x != startMin.x && startMax.y != startMin.y
    ensures var b := ResizeBounds(Both, startMin, startMax, point);
      b.max.x - b.min.x
      == Clamp(Max(Abs(point.x) * 2.0, Abs(point.y) * 2.0 * Aspect(startMin, startMax)), MinResize.x, MaxResize.x)
  {
  }

  /** A corner handle keeps the start aspect ratio: the height is the width
      over the aspect. */
  lemma CornerResizeKeepsAspect(startMin: Vec3, startMax: Vec3, point: Vec3)
    requires startMax.x != startMin.x && startMax.y != startMin.y
    ensures var b := ResizeBounds(Both, startMin, startMax, point);
      (b.max.y - b.min.y) * Aspect(startMin, startMax) == b.max.x - b.min.x
  {
    var b := ResizeBounds(Both, startMin, startMax, point);
    var a := Aspect(startMin, startMax);
    AspectPositive(startMin, startMax);
    var w := Clamp(Max(Abs(point.x) * 2.0, Abs(point.y) * 2.0 * a), MinResize.x, MaxResize.x);
    assert b.max.x == w * 0.5;
    assert b.max.y - b.min.y == w / a;
    QuotientTimes(w, a);
  }

  /** The height of a corner drag is not clamped again after the aspect
      ratio is restored: from square start bounds, a drag at |x| ≥ 2.5 is at
      least 5 tall, beyond `kMaxResize.y`. */
  lemma CornerHeightCanExceedMax(startMin: Vec3, startMax: Vec3, point: Vec3)
    requires startMax.x != startMin.x && startMax.y != startMin.y
    requires Abs(startMax.x - startMin.x) == Abs(startMax.y - startMin.y)
    requires Abs(point.x) >= 2.5
    ensures var b := ResizeBounds(Both, startMin, startMax, point);
      b.max.y - b.min.y >= 5.0 > MaxResize.y
  {
    SelfQuotient(Abs(startMax.y - startMin.y));
    assert Aspect(startMin, startMax) == 1.0;
    CornerWidthFollowsPointer(startMin, startMax, point);
    CornerResizeKeepsAspect(startMin, startMax, point);
  }

  lemma SelfQuotient(x: real)
    requires x != 0.0
    ensures x / x == 1.0
  {
  }

  predicate NonDegenerate(min: Vec3, max: Vec3) {
    min.x != max.x && min.y != max.y
  }

  /** The fields of `WidgetResizer::State` the gesture reads and writes. */
  datatype GestureState = GestureState(min: Vec3, max: Vec3, startMin: Vec3, startMax: Vec3,
                                       activeHandle: Option<nat>, wasPressed: bool)

  /** After the reset to `Default`, the one handle (with its bars) a step
      lights up, if any. */
  datatype Mark = NoMark | Mark(handle: nat, state: ResizeState)

  /** One call of `HandleResizeGestures`: the new state, the handle it marks
      and its return value. */
  datatype Step = Step(next: GestureState, mark: Mark, resized: bool)

  /** A handle is only active while the button is held, and only with
      non-degenerate start bounds; the bounds are never degenerate. */
  predicate GestureInvariant(g: GestureState) {
    && NonDegenerate(g.min, g.max)
    && (g.activeHandle.Some? ==>
          g.activeHandle.value < |Handles| && g.wasPressed && NonDegenerate(g.startMin, g.startMax))
  }

  /** `HandleResizeGestures(aPoint, aPressed)`: a press edge grabs the first
      handle under the pointer and remembers the bounds; a release edge lets
      go and leaves the handle hovered; a held press with a grabbed handle
      resizes; a hover lights the handle under the pointer. */
  function GestureStep(g: GestureState, point: Vec3, pressed: bool): (s: Step)
    requires GestureInvariant(g)
    ensures GestureInvariant(s.next) && s.next.wasPressed == pressed
    ensures s.mark.Mark? ==> s.mark.handle < |Handles|
    ensures s.resized <==> pressed && g.wasPressed && g.activeHandle.Some?
  {
    if pressed && !g.wasPressed then
      var hit := FirstHit(Handles, g.min, g.max, point, 0);
      if hit.Some? then
        Step(g.(activeHandle := hit, startMin := g.min, startMax := g.max, wasPressed := true),
             Mark(hit.value, Active), false)
      else
        Step(g.(activeHandle := None, wasPressed := true), NoMark, false)
    else if !pressed && g.wasPressed then
      Step(g.(activeHandle := None, wasPressed := false),
           if g.activeHandle.Some? then Mark(g.activeHandle.value, Hovered) else NoMark, false)
    else if pressed && g.activeHandle.Some? then
      var b := ResizeBounds(Handles[g.activeHandle.value].resizeMode, g.startMin, g.startMax, point);
      Step(g.(min := b.min, max := b.max, wasPressed := true), Mark(g.activeHandle.value, Active), true)
    else if !pressed then
      var hit := FirstHit(Handles, g.min, g.max, point, 0);
      Step(g.(wasPressed := false), if hit.Some? then Mark(hit.value, Hovered) else NoMark, false)
    else
      Step(g.(wasPressed := true), NoMark, false)
  }

  /** The state of handle `h` after a step that marked `m`. */
  function MarkedHandleState(m: Mark, h: nat): ResizeState {
    if m.Mark? && m.handle == h then m.state else Default
  }

  /** The state of bar `b` after a step that marked `m`. */
  function MarkedBarState(m: Mark, b: nat): ResizeState
    requires m.Mark? ==> m.handle < |Handles|
  {
    if m.Mark? && b in Handles[m.handle].attachedBars then m.state else Default
  }

  /** A press edge grabs exactly the first handle under the pointer, if any,
      and snapshots the bounds as the start of the drag; nothing is resized. */
  lemma PressEdgeGrabsFirstHit(g: GestureState, point: Vec3)
    requires GestureInvariant(g) && !g.wasPressed
    ensures var s := GestureStep(g, point, true);
      var hit := FirstHit(Handles, g.min, g.max, point, 0);
      && s.next.activeHandle == hit
      && (hit.Some? ==> s.next.startMin == g.min && s.next.startMax == g.max && s.mark == Mark(hit.value, Active))
      && (hit.None? ==> s.mark == NoMark)
      && s.next.min == g.min && s.next.max == g.max && !s.resized
  {
  }

  /** Outside a press edge no handle is newly grabbed: a grabbed handle stays
      the same with the same start bounds, or is let go. */
  lemma OnlyPressEdgeGrabs(g: GestureState, point: Vec3, pressed: bool)
    requires GestureInvariant(g) && !(pressed && !g.wasPressed)
    ensures var s := GestureStep(g, point, pressed);
      s.next.activeHandle.Some? ==>
        s.next.activeHandle == g.activeHandle && s.next.startMin == g.startMin && s.next.startMax == g.startMax
  {
  }

  /** Whenever the button is up after a step, no handle is grabbed. */
  lemma ReleaseLetsGo(g: GestureState, point: Vec3)
    requires GestureInvariant(g)
    ensures GestureStep(g, point, false).next.activeHandle.None?
  {
  }

  /** A held drag sets the bounds from the start bounds and the pointer
      alone; every other step leaves the bounds as they were. */
  lemma DragSetsBounds(g: GestureState, point: Vec3, pressed: bool)
    requires GestureInvariant(g)
    ensures var s := GestureStep(g, point, pressed);
      if pressed && g.wasPressed && g.activeHandle.Some? then
        && Bounds(s.next.min, s.next.max)
           == ResizeBounds(Handles[g.activeHandle.value].resizeMode, g.startMin, g.startMax, point)
        && s.mark == Mark(g.activeHandle.value, Active)
      else s.next.min == g.min && s.next.max == g.max
  {
  }

  /** A pointer sample: where it is on the surface and whether the button is down. */
  datatype Sample = Sample(point: Vec3, pressed: bool)

  /** The state after feeding `samples` one by one. */
  function Run(g: GestureState, samples: seq<Sample>): (r: GestureState)
    requires GestureInvariant(g)
    ensures GestureInvariant(r)
    ensures |samples| > 0 ==> r.wasPressed == samples[|samples| - 1].pressed
    decreases |samples|
  {
    if samples == [] then g
    else Run(GestureStep(g, samples[0].point, samples[0].pressed).next, samples[1..])
  }

  /** Whether any step of the run resized. */
  predicate AnyResized(g: GestureState, samples: seq<Sample>)
    requires GestureInvariant(g)
    decreases |samples|
  {
    if samples == [] then false
    else
      var s := GestureStep(g, samples[0].point, samples[0].pressed);
      s.resized || AnyResized(s.next, samples[1..])
  }

  predicate AllPressed(samples: seq<Sample>) {
    forall i :: 0 <= i < |samples| ==> samples[i].pressed
  }

  /** Held without a grabbed handle, the gesture stays idle: nothing is
      grabbed, nothing resized, the bounds do not move. */
  lemma {:induction false} HeldWithoutHandleStaysIdle(g: GestureState, samples: seq<Sample>)
    requires GestureInvariant(g) && g.wasPressed && g.activeHandle.None?
    requires AllPressed(samples)
    ensures !AnyResized(g, samples)
    ensures var r := Run(g, samples); r.activeHandle.None? && r.min == g.min && r.max == g.max
    decreases |samples|
  {
    if samples != [] {
      var s := GestureStep(g, samples[0].point, samples[0].pressed);
      assert s.next.activeHandle.None? && s.next.wasPressed && !s.resized;
      assert s.next.min == g.min && s.next.max == g.max;
      HeldWithoutHandleStaysIdle(s.next, samples[1..]);
    }
  }

  /** A press that misses every handle never resizes, however long the
      button stays down and wherever the pointer goes. */
  lemma MissedPressNeverResizes(g: GestureState, point: Vec3, held: seq<Sample>)
    requires GestureInvariant(g) && !g.wasPressed
    requires FirstHit(Handles, g.min, g.max, point, 0).None?
    requires AllPressed(held)
    ensures !AnyResized(g, [Sample(point, true)] + held)
    ensures var r := Run(g, [Sample(point, true)] + held); r.min == g.min && r.max == g.max
  {
    var samples := [Sample(point, true)] + held;
    assert samples[1..] == held;
    var s := GestureStep(g, point, true);
    assert !s.resized && s.next.activeHandle.None? && s.next.wasPressed;
    HeldWithoutHandleStaysIdle(s.next, held);
  }

  /** A drag is not cumulative: however many samples a held drag takes, the
      bounds are those of the last sample computed from the start bounds, and
      the same handle stays grabbed. */
  lemma {:induction false} DragIsRelativeToStart(g: GestureState, held: seq<Sample>)
    requires GestureInvariant(g) && g.wasPressed && g.activeHandle.Some?
    requires |held| > 0 && AllPressed(held)
    ensures var r := Run(g, held);
      && r.activeHandle == g.activeHandle && r.startMin == g.startMin && r.startMax == g.startMax
      && Bounds(r.min, r.max)
         == ResizeBounds(Handles[g.activeHandle.value].resizeMode, g.startMin, g.startMax, held[|held| - 1].point)
    decreases |held|
  {
    var s := GestureStep(g, held[0].point, true);
    assert s.next.activeHandle == g.activeHandle && s.next.wasPressed;
    assert s.next.startMin == g.startMin && s.next.startMax == g.startMax;
    if |held| == 1 {
      assert held[1..] == [];
    } else {
      DragIsRelativeToStart(s.next, held[1..]);
      assert held[1..][|held[1..]| - 1] == held[|held| - 1];
    }
  }

  /** The transform a bar or handle has before its first `Layout`. */
  const Unplaced: Placement := Placement(Zero, Vec3(1.0, 1.0, 1.0))

  /** `WidgetResizer` with its `State`. */
  class WidgetResizer {
    var min: Vec3
    var max: Vec3
    var resizeStartMin: Vec3
    var resizeStartMax: Vec3
    var resizeBars: seq<ResizeBar>
    var resizeHandles: seq<ResizeHandle>
    /** `resizeState` of each bar and each handle, by index. */
    var barStates: seq<ResizeState>
    var handleStates: seq<ResizeState>
    /** The transform of each bar and each handle, by index. */
    var barTransforms: seq<Placement>
    var handleTransforms: seq<Placement>
    var activeHandle: Option<nat>
    var wasPressed: bool

    function Gesture(): GestureState
      reads this`min, this`max, this`resizeStartMin, this`resizeStartMax, this`activeHandle, this`wasPressed
    {
      GestureState(min, max, resizeStartMin, resizeStartMax, activeHandle, wasPressed)
    }

    /** The bars and handles are those `Initialize` creates, with one state
        and one transform each. */
    ghost predicate Structured()
      reads this`resizeBars, this`resizeHandles, this`barStates, this`barTransforms
      reads this`handleStates, this`handleTransforms
    {
      && resizeBars == Bars && resizeHandles == Handles
      && |barStates| == |Bars| && |barTransforms| == |Bars|
      && |handleStates| == |Handles| && |handleTransforms| == |Handles|
    }

    /** Every transform is the one `Layout` computes for the current bounds. */
    ghost predicate LaidOut()
      reads this`min, this`max, this`resizeBars, this`resizeHandles, this`barTransforms, this`handleTransforms
    {
      && |barTransforms| == |resizeBars| && |handleTransforms| == |resizeHandles|
      && (forall i :: 0 <= i < |resizeBars| ==> barTransforms[i] == BarPlacement(min, max, resizeBars[i]))
      && (forall i :: 0 <= i < |resizeHandles| ==> handleTransforms[i] == HandlePlacement(min, max, resizeHandles[i]))
    }

    ghost predicate Valid()
      reads this
    {
      Structured() && LaidOut() && GestureInvariant(Gesture())
    }

    /** `WidgetResizer::Create(aContext, aMin, aMax)`. */
    constructor Create(aMin: Vec3, aMax: Vec3)
      requires NonDegenerate(aMin, aMax)
      ensures Valid()
      ensures Gesture() == GestureState(aMin, aMax, Zero, Zero, None, false)
      ensures forall b :: 0 <= b < |barStates| ==> barStates[b] == Default
      ensures forall h :: 0 <= h < |handleStates| ==> handleStates[h] == Default
    {
      min, max := aMin, aMax;
      resizeStartMin, resizeStartMax := Zero, Zero;
      resizeBars, resizeHandles := [], [];
      barStates, handleStates := [], [];
      barTransforms, handleTransforms := [], [];
      activeHandle, wasPressed := None, false;
      new;
      Initialize();
    }

    /** `State::Initialize`: the eight bars, the eight handles over them, then `Layout`. */
    method Initialize()
      requires resizeBars == [] && barStates == [] && barTransforms == []
      requires resizeHandles == [] && handleStates == [] && handleTransforms == []
      modifies this`resizeBars, this`barStates, this`barTransforms
      modifies this`resizeHandles, this`handleStates, this`handleTransforms
      ensures Structured() && LaidOut()
      ensures forall b :: 0 <= b < |barStates| ==> barStates[b] == Default
      ensures forall h :: 0 <= h < |handleStates| ==> handleStates[h] == Default
    {
      var leftTop, leftBottom, rightTop, rightBottom, topLeft, topRight, bottomLeft, bottomRight := CreateBars();
      CreateResizeHandle(Vec3(0.0, 1.0, 0.0), Both, [leftTop, topLeft]);
      CreateResizeHandle(Vec3(1.0, 1.0, 0.0), Both, [rightTop, topRight]);
      CreateResizeHandle(Vec3(0.0, 0.0, 0.0), Both, [leftBottom, bottomLeft]);
      CreateResizeHandle(Vec3(1.0, 0.0, 0.0), Both, [rightBottom, bottomRight]);
      CreateResizeHandle(Vec3(0.5, 1.0, 0.0), Vertical, [topLeft, topRight]);
      CreateResizeHandle(Vec3(0.5, 0.0, 0.0), Vertical, [bottomLeft, bottomRight]);
      CreateResizeHandle(Vec3(0.0, 0.5, 0.0), Horizontal, [leftTop, leftBottom]);
      CreateResizeHandle(Vec3(1.0, 0.5, 0.0), Horizontal, [rightTop, rightBottom]);
      assert resizeHandles == Handles;
      assert forall h :: 0 <= h < |handleStates| ==> handleStates[h] == Default;
      Layout();
    }

    /** The bar half of `State::Initialize`: the eight bars, each named by
        the index it is created at. */
    method CreateBars() returns (leftTop: nat, leftBottom: nat, rightTop: nat, rightBottom: nat,
                                 topLeft: nat, topRight: nat, bottomLeft: nat, bottomRight: nat)
      requires resizeBars == [] && barStates == [] && barTransforms == []
      modifies this`resizeBars, this`barStates, this`barTransforms
      ensures resizeBars == Bars && |barTransforms| == |Bars|
      ensures forall b :: 0 <= b < |barTransforms| ==> barTransforms[b] == Unplaced
      ensures forall b :: 0 <= b < |barStates| ==> barStates[b] == Default
      ensures |barStates| == |Bars|
      ensures [leftTop, leftBottom, rightTop, rightBottom, topLeft, topRight, bottomLeft, bottomRight]
              == [0, 1, 2, 3, 4, 5, 6, 7]
    {
      leftTop := CreateResizeBar(Vec3(0.0, 0.75, 0.0), HorizontalSize);
      leftBottom := CreateResizeBar(Vec3(0.0, 0.25, 0.0), HorizontalSize);
      rightTop := CreateResizeBar(Vec3(1.0, 0.75, 0.0), HorizontalSize);
      rightBottom := CreateResizeBar(Vec3(1.0, 0.25, 0.0), HorizontalSize);
      topLeft := CreateResizeBar(Vec3(0.25, 1.0, 0.0), VerticalSize);
      topRight := CreateResizeBar(Vec3(0.75, 1.0, 0.0), VerticalSize);
      bottomLeft := CreateResizeBar(Vec3(0.25, 0.0, 0.0), VerticalSize);
      bottomRight := CreateResizeBar(Vec3(0.75, 0.0, 0.0), VerticalSize);
      assert resizeBars == Bars;
      assert forall b :: 0 <= b < |barTransforms| ==> barTransforms[b] == Unplaced;
    }

    /** Appends a bar in the `Default` state and returns its index. */
    method CreateResizeBar(aCenter: Vec3, aScale: Vec3) returns (result: nat)
      modifies this`resizeBars, this`barStates, this`barTransforms
      ensures result == |old(resizeBars)|
      ensures resizeBars == old(resizeBars) + [ResizeBar(aCenter, aScale)]
      ensures barStates == old(barStates) + [Default]
      ensures barTransforms == old(barTransforms) + [Unplaced]
    {
      result := |resizeBars|;
      resizeBars := resizeBars + [ResizeBar(aCenter, aScale)];
      barStates := barStates + [Default];
      barTransforms := barTransforms + [Unplaced];
    }

    /** Appends a handle in the `Default` state over the bars `aBars`. */
    method CreateResizeHandle(aCenter: Vec3, aResizeMode: ResizeMode, aBars: seq<nat>)
      modifies this`resizeHandles, this`handleStates, this`handleTransforms
      ensures resizeHandles == old(resizeHandles) + [ResizeHandle(aCenter, aResizeMode, aBars)]
      ensures handleStates == old(handleStates) + [Default]
      ensures handleTransforms == old(handleTransforms) + [Unplaced]
    {
      resizeHandles := resizeHandles + [ResizeHandle(aCenter, aResizeMode, aBars)];
      handleStates := handleStates + [Default];
      handleTransforms := handleTransforms + [Unplaced];
    }

    /** Places every bar and every handle for the current bounds. */
    method Layout()
      requires |barTransforms| == |resizeBars| && |handleTransforms| == |resizeHandles|
      modifies this`barTransforms, this`handleTransforms
      ensures LaidOut()
    {
      for i := 0 to |resizeBars|
        modifies this`barTransforms
        invariant |barTransforms| == |resizeBars|
        invariant forall j :: 0 <= j < i ==> barTransforms[j] == BarPlacement(min, max, resizeBars[j])
      {
        barTransforms := barTransforms[i := BarPlacement(min, max, resizeBars[i])];
      }
      for i := 0 to |resizeHandles|
        modifies this`handleTransforms
        invariant |handleTransforms| == |resizeHandles|
        invariant forall j :: 0 <= j < i ==> handleTransforms[j] == HandlePlacement(min, max, resizeHandles[j])
      {
        handleTransforms := handleTransforms[i := HandlePlacement(min, max, resizeHandles[i])];
      }
    }

    /** The first handle, in creation order, whose anchor is closer than
        `2·kHandleRadius` to the point, or none. */
    method GetIntersectingHandler(point: Vec3) returns (r: Option<nat>)
      ensures r == FirstHit(resizeHandles, min, max, point, 0)
    {
      var i := 0;
      while i < |resizeHandles|
        invariant 0 <= i <= |resizeHandles|
        invariant FirstHit(resizeHandles, min, max, point, 0) == FirstHit(resizeHandles, min, max, point, i)
      {
        var handle := resizeHandles[i];
        var worldCenter := Anchor(min, max, handle.center);
        if DistanceSq(point, worldCenter) < (HandleRadius * 2.0) * (HandleRadius * 2.0) {
          return Some(i);
        }
        i := i + 1;
      }
      return None;
    }

    /** `ResizeBar::SetResizeState` of bar `b`. */
    method SetBarState(b: nat, aState: ResizeState)
      requires b < |barStates|
      modifies this`barStates
      ensures barStates == old(barStates)[b := aState]
    {
      if barStates[b] != aState {
        barStates := barStates[b := aState];
      }
    }

    /** `ResizeHandle::SetResizeState` of handle `h`: the handle and each of
        its bars take the state; no other bar changes. */
    method SetHandleState(h: nat, aState: ResizeState)
      requires h < |handleStates| && h < |resizeHandles|
      requires forall k :: 0 <= k < |resizeHandles[h].attachedBars| ==> resizeHandles[h].attachedBars[k] < |barStates|
      modifies this`handleStates, this`barStates
      ensures handleStates == old(handleStates)[h := aState]
      ensures |barStates| == |old(barStates)|
      ensures forall b :: 0 <= b < |barStates| ==>
        barStates[b] == if b in resizeHandles[h].attachedBars then aState else old(barStates[b])
    {
      if handleStates[h] != aState {
        handleStates := handleStates[h := aState];
      }
      var bars := resizeHandles[h].attachedBars;
      for k := 0 to |bars|
        invariant handleStates == old(handleStates)[h := aState]
        invariant |barStates| == |old(barStates)|
        invariant forall b :: 0 <= b < |barStates| ==>
          barStates[b] == if b in bars[..k] then aState else old(barStates[b])
      {
        SetBarState(bars[k], aState);
        assert bars[..k + 1] == bars[..k] + [bars[k]];
      }
      assert bars[..|bars|] == bars;
    }

    /** `State::HandleResize`: without a grabbed handle nothing changes;
        otherwise the bounds are those of the drag rule, and the overlay is
        laid out again. */
    method HandleResize(aPoint: Vec3)
      requires Valid()
      modifies this`min, this`max, this`barTransforms, this`handleTransforms
      ensures Valid()
      ensures activeHandle.None? ==>
        min == old(min) && max == old(max) && barTransforms == old(barTransforms)
        && handleTransforms == old(handleTransforms)
      ensures activeHandle.Some? ==>
        Bounds(min, max)
        == ResizeBounds(resizeHandles[activeHandle.value].resizeMode, resizeStartMin, resizeStartMax, aPoint)
    {
      if activeHandle.None? {
        return;
      }
      var b := ResizeBounds(resizeHandles[activeHandle.value].resizeMode, resizeStartMin, resizeStartMax, aPoint);
      min, max := b.min, b.max;
      Layout();
    }

    /** `WidgetResizer::TestIntersection`: any point while a handle is
        grabbed; otherwise a point of the rectangle widened by half a bar
        (z within ±0.1), or a point on a handle. */
    function TestIntersection(point: Vec3): (r: bool)
      reads this
      ensures r <==> || activeHandle.Some?
                     || InExpandedRect(min, max, point)
                     || exists j :: 0 <= j < |resizeHandles| && HitsHandle(min, max, resizeHandles[j], point)
    {
      if activeHandle.Some? then true
      else
        var extraMin := Vec3(min.x - BarSize * 0.5, min.y - BarSize * 0.5, 0.0);
        var extraMax := Vec3(max.x + BarSize * 0.5, max.y + BarSize * 0.5, 0.0);
        if && point.x >= extraMin.x && point.y >= extraMin.y && point.z >= extraMin.z - Surface.ZSlack
           && point.x <= extraMax.x && point.y <= extraMax.y && point.z <= extraMax.z + Surface.ZSlack
        then true
        else FirstHit(resizeHandles, min, max, point, 0).Some?
    }

    /** The reset loop of `HandleResizeGestures`: every handle, and so every
        bar, back to `Default`. */
    method ResetHandles()
      requires Structured()
      modifies this`handleStates, this`barStates
      ensures Structured() && StatesMarked(NoMark)
    {
      for i := 0 to |resizeHandles|
        invariant Structured()
        invariant forall h :: 0 <= h < |handleStates| ==> (h < i ==> handleStates[h] == Default)
        invariant forall b :: 0 <= b < |barStates| ==> (BarOwner(b) < i ==> barStates[b] == Default)
      {
        SetHandleState(i, Default);
      }
    }

    /** Each handle and each bar is in the state a step marking `m` leaves it in. */
    ghost predicate StatesMarked(m: Mark)
      reads this`handleStates, this`barStates
      requires m.Mark? ==> m.handle < |Handles|
    {
      && (forall h :: 0 <= h < |handleStates| ==> handleStates[h] == MarkedHandleState(m, h))
      && (forall b :: 0 <= b < |barStates| ==> barStates[b] == MarkedBarState(m, b))
    }

    /** Lights handle `h` and its bars after the reset. */
    method Light(h: nat, aState: ResizeState)
      requires Structured() && StatesMarked(NoMark) && h < |Handles|
      modifies this`handleStates, this`barStates
      ensures Structured() && StatesMarked(Mark(h, aState))
    {
      SetHandleState(h, aState);
    }

    /** The press-edge branch: grab the handle under the pointer. */
    method PressEdge(aPoint: Vec3)
      requires Structured() && GestureInvariant(Gesture()) && StatesMarked(NoMark) && !wasPressed
      modifies this`activeHandle, this`resizeStartMin, this`resizeStartMax, this`handleStates, this`barStates
      ensures var s := GestureStep(old(Gesture()), aPoint, true);
        Structured() && Gesture() == s.next.(wasPressed := false) && StatesMarked(s.mark) && !s.resized
    {
      PressEdgeGrabsFirstHit(Gesture(), aPoint);
      activeHandle := GetIntersectingHandler(aPoint);
      if activeHandle.Some? {
        resizeStartMin := min;
        resizeStartMax := max;
        Light(activeHandle.value, Active);
      }
    }

    /** The release-edge branch: let go, leaving the handle hovered. */
    method ReleaseEdge()
      requires Structured() && GestureInvariant(Gesture()) && StatesMarked(NoMark) && wasPressed
      modifies this`activeHandle, this`handleStates, this`barStates
      ensures var s := GestureStep(old(Gesture()), Zero, false);
        Structured() && Gesture() == s.next.(wasPressed := true) && StatesMarked(s.mark) && !s.resized
    {
      if activeHandle.Some? {
        Light(activeHandle.value, Hovered);
      }
      activeHandle := None;
    }

    /** The held-drag branch: resize from the start bounds. */
    method Drag(aPoint: Vec3)
      requires Valid() && StatesMarked(NoMark) && wasPressed && activeHandle.Some?
      modifies this`min, this`max, this`barTransforms, this`handleTransforms, this`handleStates, this`barStates
      ensures var s := GestureStep(old(Gesture()), aPoint, true);
        Valid() && Gesture() == s.next && StatesMarked(s.mark) && s.resized
    {
      Light(activeHandle.value, Active);
      HandleResize(aPoint);
    }

    /** The hover branch: light the handle under the pointer. */
    method Hover(aPoint: Vec3)
      requires Structured() && GestureInvariant(Gesture()) && StatesMarked(NoMark) && !wasPressed
      modifies this`handleStates, this`barStates
      ensures var s := GestureStep(old(Gesture()), aPoint, false);
        Structured() && Gesture() == s.next && StatesMarked(s.mark) && !s.resized
    {
      var handle := GetIntersectingHandler(aPoint);
      if handle.Some? {
        Light(handle.value, Hovered);
      }
    }

    /** `WidgetResizer::HandleResizeGestures`: every handle (and so every
        bar) is reset to `Default`, then the step of `GestureStep` is taken
        and the one handle it marks, with its bars, takes the marked state. */
    method HandleResizeGestures(aPoint: Vec3, aPressed: bool) returns (resized: bool)
      requires Valid()
      modifies this
      ensures Valid()
      ensures var s := GestureStep(old(Gesture()), aPoint, aPressed);
        && Gesture() == s.next && resized == s.resized
        && (forall h :: 0 <= h < |handleStates| ==> handleStates[h] == MarkedHandleState(s.mark, h))
        && (forall b :: 0 <= b < |barStates| ==> barStates[b] == MarkedBarState(s.mark, b))
      ensures forall h, k :: 0 <= h < k < |handleStates| ==> handleStates[h] == Default || handleStates[k] == Default
    {
      ResetHandles();
      resized := false;

      if aPressed && !wasPressed {
        PressEdge(aPoint);
      } else if !aPressed && wasPressed {
        ReleaseEdge();
      } else if aPressed && activeHandle.Some? {
        Drag(aPoint);
        resized := true;
      } else if !aPressed {
        Hover(aPoint);
      }

      wasPressed := aPressed;
    }

    /** The current minimum corner; the bounds are never degenerate. */
    function GetWorldMin(): (r: Vec3)
      reads this
      requires Valid()
      ensures r == min
      ensures r.x != max.x && r.y != max.y
    {
      min
    }

    /** The current maximum corner. */
    function GetWorldMax(): (r: Vec3)
      reads this
      requires Valid()
      ensures r == max
      ensures r.x != min.x && r.y != min.y
    {
      max
    }
  }
}
