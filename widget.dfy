/** The widget of app/src/main/cpp/Widget.cpp: one surface (a quad or a
    cylinder, both modelled by `Surface.Cylinder`), a lazily created resize
    overlay, the `resizing` flag that decides how rays and texture
    coordinates are computed, and the two-part visibility gate made of the
    widget's own `toggleState` and its placement's `firstDraw`.

    The widget only talks to its resizer through `SetSize`, `ToggleVisible`,
    `TestIntersection`, the four-argument `HandleResizeGestures` and
    `GetCurrentMin/Max`, whose implementation is not part of this model: the
    resizer is seen through `ResizerView` (the bounds last given to it and
    whether it is shown), its hit test is a function parameter, and the
    outcome of a gesture is a parameter as well. */
module Widgets {
  import opened Vectors
  import opened Options
  import opened Surface

  /** Which of the two pointers of `Widget::State` is set. */
  datatype SurfaceKind = QuadSurface | CylinderSurface

  /** `Quad::ScaleMode`. */
  datatype ScaleMode = Fill | AspectFit | AspectFill

  datatype Color = Color(r: real, g: real, b: real, a: real)

  const White := Color(1.0, 1.0, 1.0, 1.0)
  const Transparent := Color(0.0, 0.0, 0.0, 0.0)

  /** The calls the widget makes on its quad while resizing, in order. */
  datatype QuadCall = SetScaleMode(mode: ScaleMode) | SetBackgroundColor(color: Color)

  /** What the widget knows about its resizer: the bounds last given to it
      (at creation or by `SetSize`) and whether it is shown. */
  datatype ResizerView = ResizerView(size: Bounds, visible: bool)

  /** What one `HandleResizeGestures(aPoint, aPressed, aResized, aResizeEnded)`
      call of the resizer reports: its two flags and, afterwards, what
      `GetCurrentMin/Max` return. */
  datatype ResizeOutcome = ResizeOutcome(resized: bool, resizeEnded: bool, current: Bounds)

  /** `TestControllerIntersection`'s return value and out-parameters. */
  datatype ControllerHit = ControllerHit(hit: bool, result: Vec3, isInWidget: bool, distance: Distance)

  /** The part of the widget that `StartResize` and `FinishResize` change. */
  datatype ResizeState = ResizeState(resizing: bool, resizer: Option<ResizerView>, quadCalls: seq<QuadCall>)

  /** A widget that is resizing has a resizer. */
  predicate ResizeInvariant(v: ResizeState) {
    v.resizing ==> v.resizer.Some?
  }

  /** The quad is switched to letterboxing on white while resizing. */
  function StartCalls(kind: SurfaceKind): seq<QuadCall> {
    if kind == QuadSurface then [SetScaleMode(AspectFit), SetBackgroundColor(White)] else []
  }

  /** The quad is switched back to filling on a transparent background. */
  function FinishCalls(kind: SurfaceKind): seq<QuadCall> {
    if kind == QuadSurface then [SetScaleMode(Fill), SetBackgroundColor(Transparent)] else []
  }

  /** `StartResize` on a widget with surface bounds `bounds`: an existing
      resizer is resized to them, a missing one is created with them, unless
      the render context is gone, in which case nothing happens. */
  function Started(v: ResizeState, kind: SurfaceKind, bounds: Bounds, contextAlive: bool): (w: ResizeState)
    ensures v.resizer.None? && !contextAlive ==> w == v
    ensures v.resizer.Some? || contextAlive ==> w.resizing && w.resizer == Some(ResizerView(bounds, true))
    ensures |w.quadCalls| >= |v.quadCalls| && w.quadCalls[..|v.quadCalls|] == v.quadCalls
  {
    if v.resizer.None? && !contextAlive then v
    else ResizeState(true, Some(ResizerView(bounds, true)), v.quadCalls + StartCalls(kind))
  }

  /** `FinishResize`: a no-op unless resizing; otherwise the resizer is hidden. */
  function Finished(v: ResizeState, kind: SurfaceKind): (w: ResizeState)
    requires ResizeInvariant(v)
    ensures !w.resizing && (w.resizer.Some? <==> v.resizer.Some?)
    ensures v.resizing ==> w.resizer == Some(v.resizer.value.(visible := false))
    ensures |w.quadCalls| >= |v.quadCalls| && w.quadCalls[..|v.quadCalls|] == v.quadCalls
  {
    if !v.resizing then v
    else ResizeState(false, Some(v.resizer.value.(visible := false)), v.quadCalls + FinishCalls(kind))
  }

  /** Starting a resize either leaves the widget resizing with a shown
      resizer whose bounds are the surface's, or (no resizer and no render
      context) changes nothing; either way a resizing widget has a resizer. */
  lemma StartResizeOutcome(v: ResizeState, kind: SurfaceKind, bounds: Bounds, contextAlive: bool)
    requires ResizeInvariant(v)
    ensures var w := Started(v, kind, bounds, contextAlive);
      && ResizeInvariant(w)
      && (v.resizer.Some? || contextAlive ==>
            w.resizing && w.resizer == Some(ResizerView(bounds, true)))
      && (v.resizer.None? && !contextAlive ==> w == v && !w.resizing)
  {
  }

  /** Finishing a resize leaves the widget not resizing, with the resizer it
      had (hidden if it was resizing); a second finish changes nothing. */
  lemma FinishResizeIdempotent(v: ResizeState, kind: SurfaceKind)
    requires ResizeInvariant(v)
    ensures ResizeInvariant(Finished(v, kind))
    ensures !Finished(v, kind).resizing
    ensures Finished(v, kind).resizer.Some? <==> v.resizer.Some?
    ensures v.resizing ==> !Finished(v, kind).resizer.value.visible
    ensures Finished(Finished(v, kind), kind) == Finished(v, kind)
  {
  }

  /** A resize that was started and then finished leaves a hidden resizer
      holding the bounds the widget had when it started, and the quad back
      at `Fill` on a transparent background. */
  lemma StartThenFinish(v: ResizeState, kind: SurfaceKind, bounds: Bounds)
    requires ResizeInvariant(v)
    ensures var w := Finished(Started(v, kind, bounds, true), kind);
      && !w.resizing
      && w.resizer == Some(ResizerView(bounds, false))
      && w.quadCalls == v.quadCalls + StartCalls(kind) + FinishCalls(kind)
      && (kind == QuadSurface ==> w.quadCalls[|w.quadCalls| - 2..] == [SetScaleMode(Fill), SetBackgroundColor(Transparent)])
  {
    var s := Started(v, kind, bounds, true);
    assert s.resizing && s.resizer == Some(ResizerView(bounds, true));
    var w := Finished(s, kind);
    assert w.quadCalls == s.quadCalls + FinishCalls(kind);
  }

  /** The world height `SetWorldWidth` derives from the texture's aspect. */
  function WorldHeightFor(worldWidth: real, textureWidth: int, textureHeight: int): (h: real)
    requires textureWidth != 0 && textureHeight != 0
    ensures h * textureWidth as real == worldWidth * textureHeight as real
  {
    var aspect := textureWidth as real / textureHeight as real;
    AspectQuotient(worldWidth, textureWidth as real, textureHeight as real);
    worldWidth / aspect
  }

  lemma AspectQuotient(x: real, w: real, h: real)
    requires w != 0.0 && h != 0.0
    ensures (x / (w / h)) * w == x * h
  {
    var a := w / h;
    assert a * h == w;
    assert a != 0.0;
    var q := x / a;
    assert q * a == x;
    calc {
      q * w;
      q * (a * h);
      (q * a) * h;
      x * h;
    }
  }

  /** The layout state a placement carries; `Widget` only reads and clears
      `firstDraw` and reads `density`. */
  class WidgetPlacement {
    var firstDraw: bool
    var density: real

    constructor (aFirstDraw: bool, aDensity: real)
      ensures firstDraw == aFirstDraw && density == aDensity
    {
      firstDraw := aFirstDraw;
      density := aDensity;
    }
  }

  /** `Widget::State`. `hasRoot` is whether the scene nodes were built (the
      render context was alive at creation); `rootVisible` is the state of
      the root toggle. */
  class Widget {
    const kind: SurfaceKind
    const surface: Cylinder
    const hasRoot: bool
    var placement: WidgetPlacement?
    var resizer: Option<ResizerView>
    var resizing: bool
    var toggleState: bool
    var rootVisible: bool
    var quadCalls: seq<QuadCall>

    /** A resizing widget has a resizer, and the root is only shown while
        the widget is toggled on. */
    predicate Valid()
      reads this
    {
      && ResizeInvariant(Resize())
      && (rootVisible ==> hasRoot && toggleState)
    }

    function Resize(): ResizeState
      reads this
    {
      ResizeState(resizing, resizer, quadCalls)
    }

    /** `Widget::Create` and `State::Initialize`: with a live render context
        the scene nodes are built, and a widget backed by a layer starts
        toggled on and shown; otherwise it starts hidden. */
    constructor Create(aKind: SurfaceKind, aSurface: Cylinder, contextAlive: bool)
      ensures Valid()
      ensures kind == aKind && surface == aSurface && hasRoot == contextAlive
      ensures placement == null && resizer.None? && !resizing && quadCalls == []
      ensures toggleState == rootVisible == (contextAlive && aSurface.hasLayer)
    {
      kind := aKind;
      surface := aSurface;
      hasRoot := contextAlive;
      placement := null;
      resizer := None;
      resizing := false;
      quadCalls := [];
      toggleState := contextAlive && aSurface.hasLayer;
      rootVisible := contextAlive && aSurface.hasLayer;
    }

    /** `State::FirstDraw`: false without a placement. */
    function FirstDraw(): (r: bool)
      reads this, placement
      ensures r <==> placement != null && placement.firstDraw
    {
      if placement == null then false else placement.firstDraw
    }

    /** `ToggleWidget(aEnabled)`: the widget is toggled to `aEnabled`, and the
        root is shown only if the placement has also been drawn once. */
    method ToggleWidget(aEnabled: bool)
      requires Valid() && hasRoot
      modifies this`toggleState, this`rootVisible
      ensures Valid()
      ensures toggleState == aEnabled && IsVisible() == aEnabled
      ensures rootVisible <==> aEnabled && placement != null && placement.firstDraw
    {
      toggleState := aEnabled;
      rootVisible := aEnabled && FirstDraw();
    }

    /** `IsVisible`: the toggle, whatever the root shows. */
    function IsVisible(): (r: bool)
      reads this
      ensures r == toggleState
    {
      toggleState
    }

    /** `SetPlacement(aPlacement)`: a first-drawn placement arriving while the
        widget was not yet first-drawn shows the root as `toggleState` says;
        the placement is stored and its density sent to the layer. */
    method SetPlacement(aPlacement: WidgetPlacement?)
      requires Valid()
      requires surface.hasLayer ==> aPlacement != null
      modifies this`placement, this`rootVisible, surface`layerCalls
      ensures Valid()
      ensures placement == aPlacement
      ensures rootVisible ==
        if !old(FirstDraw()) && aPlacement != null && aPlacement.firstDraw && hasRoot then toggleState
        else old(rootVisible)
      ensures surface.layerCalls ==
        old(surface.layerCalls) + (if surface.hasLayer then [LayerSetPixelDensity(aPlacement.density)] else [])
    {
      if !FirstDraw() && aPlacement != null && aPlacement.firstDraw && hasRoot {
        rootVisible := toggleState;
      }
      placement := aPlacement;
      if surface.hasLayer {
        surface.layerCalls := surface.layerCalls + [LayerSetPixelDensity(aPlacement.density)];
      }
    }

    /** `ResetFirstDraw`: the placement is marked as not drawn and the root
        is hidden. */
    method ResetFirstDraw()
      requires Valid()
      modifies placement, this`rootVisible
      ensures Valid()
      ensures !FirstDraw() && !rootVisible
      ensures placement != null ==> placement.density == old(placement.density)
    {
      if placement != null {
        placement.firstDraw := false;
      }
      if hasRoot {
        rootVisible := false;
      }
    }

    /** `StartResize(contextAlive)`: see `Started`. */
    method StartResize(contextAlive: bool)
      requires Valid()
      modifies this`resizer, this`resizing, this`quadCalls
      ensures Valid()
      ensures Resize() == Started(old(Resize()), kind, Bounds(surface.worldMin, surface.worldMax), contextAlive)
      ensures old(resizer).Some? || contextAlive ==>
        resizing && resizer == Some(ResizerView(Bounds(surface.worldMin, surface.worldMax), true))
    {
      StartResizeOutcome(Resize(), kind, Bounds(surface.worldMin, surface.worldMax), contextAlive);
      var worldMin, worldMax := surface.worldMin, surface.worldMax;
      if resizer.Some? {
        resizer := Some(resizer.value.(size := Bounds(worldMin, worldMax)));
      } else {
        if !contextAlive {
          return;
        }
        resizer := Some(ResizerView(Bounds(worldMin, worldMax), false));
      }
      resizing := true;
      resizer := Some(resizer.value.(visible := true));
      if kind == QuadSurface {
        quadCalls := quadCalls + [SetScaleMode(AspectFit)];
        quadCalls := quadCalls + [SetBackgroundColor(White)];
      }
    }

    /** `FinishResize`: see `Finished`. */
    method FinishResize()
      requires Valid()
      modifies this`resizer, this`resizing, this`quadCalls
      ensures Valid()
      ensures Resize() == Finished(old(Resize()), kind)
      ensures !resizing
    {
      if !resizing {
        return;
      }
      resizing := false;
      resizer := Some(resizer.value.(visible := false));
      if kind == QuadSurface {
        quadCalls := quadCalls + [SetScaleMode(Fill)];
        quadCalls := quadCalls + [SetBackgroundColor(Transparent)];
      }
    }

    /** `TestControllerIntersection` with the ray in the surface's local
        space. `enabled` is whether the widget's root is enabled, and
        `surfaceEnabled` whether the surface's own root is; `resizerTest` is
        the resizer's `TestIntersection`. */
    function TestControllerIntersection(enabled: bool, surfaceEnabled: bool, point: Vec3, direction: Vec3,
                                        result0: Vec3, inside0: bool, resizerTest: Vec3 -> bool): (r: ControllerHit)
      reads this, surface
      requires Valid() && hasRoot
      ensures !enabled ==> r == ControllerHit(false, result0, inside0, NoDistance)
      ensures enabled ==> r.hit == surface.TestIntersection(surfaceEnabled, point, direction, true, result0, inside0).hit
    {
      if !enabled then ControllerHit(false, result0, inside0, NoDistance)
      else
        var clamp := !resizing;
        var h := surface.TestIntersection(surfaceEnabled, point, direction, clamp, result0, inside0);
        var inWidget := if h.hit && resizing && !h.isInside then resizerTest(h.result) else h.isInside;
        ControllerHit(h.hit, h.result, inWidget, h.distance)
    }

    /** `ConvertToWidgetCoordinates`: the surface's texture coordinates,
        clamped to the surface unless the widget is resizing. */
    function ConvertToWidgetCoordinates(point: Vec3): (r: (real, real))
      reads this, surface
      requires surface.worldMax.x != surface.worldMin.x && surface.worldMax.y != surface.worldMin.y
      ensures r == QuadCoordinates(surface.worldMin, surface.worldMax, surface.textureWidth, surface.textureHeight,
                                   point, !resizing)
    {
      surface.ConvertToQuadCoordinates(point, !resizing)
    }

    /** `HandleResize`: the resizer takes the gesture (its outcome is
        `outcome`); when it resized or a resize ended, the resizer's current
        bounds become the surface's. */
    method HandleResize(outcome: ResizeOutcome) returns (resized: bool, resizeEnded: bool)
      requires Valid() && resizer.Some?
      modifies surface`worldMin, surface`worldMax, surface`layerCalls
      ensures resized == outcome.resized && resizeEnded == outcome.resizeEnded
      ensures Bounds(surface.worldMin, surface.worldMax) ==
        if resized || resizeEnded then outcome.current else Bounds(old(surface.worldMin), old(surface.worldMax))
      ensures surface.layerCalls ==
        if !(resized || resizeEnded) || outcome.current == Bounds(old(surface.worldMin), old(surface.worldMax))
           || !surface.hasLayer
        then old(surface.layerCalls)
        else old(surface.layerCalls) + [LayerSetWorldSize(outcome.current.max.x - outcome.current.min.x,
                                                          outcome.current.max.y - outcome.current.min.y)]
    {
      resized, resizeEnded := outcome.resized, outcome.resizeEnded;
      if resized || resizeEnded {
        surface.SetWorldBounds(outcome.current.min, outcome.current.max);
      }
    }

    /** `SetWorldWidth(aWorldWidth)`: the surface becomes `aWorldWidth` wide
        and as tall as the texture's aspect demands, centered; a resizing
        widget's resizer is given the same bounds. */
    method SetWorldWidth(aWorldWidth: real)
      requires Valid() && surface.textureWidth != 0 && surface.textureHeight != 0
      modifies surface`worldMin, surface`worldMax, surface`layerCalls, this`resizer
      ensures Valid()
      ensures var height := WorldHeightFor(aWorldWidth, surface.textureWidth, surface.textureHeight);
        && Bounds(surface.worldMin, surface.worldMax) == CenteredBounds(aWorldWidth, height)
        && resizer == (if resizing then Some(old(resizer).value.(size := CenteredBounds(aWorldWidth, height)))
                       else old(resizer))
        && surface.layerCalls ==
           if Bounds(old(surface.worldMin), old(surface.worldMax)) == CenteredBounds(aWorldWidth, height) || !surface.hasLayer
           then old(surface.layerCalls)
           else old(surface.layerCalls) + [LayerSetWorldSize(aWorldWidth, height)]
    {
      var tex := surface.GetTextureSize();
      var worldHeight := WorldHeightFor(aWorldWidth, tex.width, tex.height);
      surface.SetWorldSize(aWorldWidth, worldHeight);
      if resizing && resizer.Some? {
        resizer := Some(resizer.value.(size := CenteredBounds(aWorldWidth, worldHeight)));
      }
    }
  }

  /** While not resizing, the widget reports the surface's own hit, clamped
      as the surface does; the resizer is never consulted. */
  lemma NotResizingUsesSurfaceHit(w: Widget, surfaceEnabled: bool, point: Vec3, direction: Vec3,
                                  result0: Vec3, inside0: bool, resizerTest: Vec3 -> bool)
    requires w.Valid() && w.hasRoot && !w.resizing
    ensures var r := w.TestControllerIntersection(true, surfaceEnabled, point, direction, result0, inside0, resizerTest);
      var h := Intersect(surfaceEnabled, w.surface.worldMin, w.surface.worldMax, point, direction, true, result0, inside0);
      r == ControllerHit(h.hit, h.result, h.isInside, h.distance)
  {
  }

  /** The resizer overrides the surface's inside flag only on a hit outside
      the surface while resizing; the hit itself, its point and its distance
      are the surface's whether or not the widget is resizing. */
  lemma ResizerConsultedOnlyOutside(w: Widget, enabled: bool, surfaceEnabled: bool, point: Vec3, direction: Vec3,
                                    result0: Vec3, inside0: bool, resizerTest: Vec3 -> bool)
    requires w.Valid() && w.hasRoot
    ensures var r := w.TestControllerIntersection(enabled, surfaceEnabled, point, direction, result0, inside0, resizerTest);
      var h := Intersect(surfaceEnabled, w.surface.worldMin, w.surface.worldMax, point, direction, true, result0, inside0);
      && (!enabled ==> !r.hit && r.distance == NoDistance && r.result == result0 && r.isInWidget == inside0)
      && (enabled ==> r.hit == h.hit && r.result == h.result && r.distance == h.distance)
      && (enabled && r.isInWidget != h.isInside ==> w.resizing && h.hit && !h.isInside && r.isInWidget)
      && (enabled && w.resizing && h.hit && !h.isInside ==> r.isInWidget == resizerTest(h.result))
  {
    ClampLeavesResult(surfaceEnabled, w.surface.worldMin, w.surface.worldMax, point, direction, result0, inside0);
  }

  /** Outside a resize, texture coordinates lie within the texture. */
  lemma WidgetCoordinatesInTexture(w: Widget, point: Vec3)
    requires !w.resizing
    requires w.surface.worldMax.x > w.surface.worldMin.x && w.surface.worldMax.y > w.surface.worldMin.y
    requires w.surface.textureWidth >= 0 && w.surface.textureHeight >= 0
    ensures var r := w.ConvertToWidgetCoordinates(point);
      0.0 <= r.0 <= w.surface.textureWidth as real && 0.0 <= r.1 <= w.surface.textureHeight as real
  {
    ClampedQuadCoordinatesInTexture(w.surface.worldMin, w.surface.worldMax,
                                    w.surface.textureWidth, w.surface.textureHeight, point);
  }

  /** During a resize the coordinates are unclamped, so every point of the
      surface's plane, inside or outside the bounds, can be mapped back. */
  lemma ResizingCoordinatesRoundTrip(w: Widget, point: Vec3)
    requires w.resizing
    requires w.surface.worldMax.x != w.surface.worldMin.x && w.surface.worldMax.y != w.surface.worldMin.y
    requires w.surface.textureWidth != 0 && w.surface.textureHeight != 0
    requires point.z == w.surface.worldMin.z
    ensures var r := w.ConvertToWidgetCoordinates(point);
      QuadToWorld(w.surface.worldMin, w.surface.worldMax, w.surface.textureWidth, w.surface.textureHeight, r.0, r.1)
      == point
  {
    WorldRoundTrip(w.surface.worldMin, w.surface.worldMax, w.surface.textureWidth, w.surface.textureHeight, point);
  }
}
