/** The widget surface of app/src/main/cpp/Cylinder.cpp: world-space bounds,
    texture size, ray intersection and the world-to-texture map. The flat
    Quad variant has the same bounds contract and is modelled by the same
    class (its own implementation file is not part of this model).

    The center normal is kept unnormalized (the cross product `c`): the
    source divides it by its length, and every use of the unit normal below
    is restated exactly in terms of `c` and `c·c`, with a lemma that shows
    the restatement agrees with the source's arithmetic on the unit normal. */
module Surface {
  import opened Vectors
  import opened Options

  /** `kEpsilon` of the intersection test. */
  const Epsilon: real := 0.00000001
  /** The slack allowed on the z axis by the inside-bounds tests of the
      surface and of the resize overlay. */
  const ZSlack: real := 0.1

  datatype TextureSize = TextureSize(width: int, height: int)

  /** The calls a surface makes on its layer delegate, in order. */
  datatype LayerCall =
    | LayerSetWorldSize(worldWidth: real, worldHeight: real)
    | LayerResize(textureWidth: int, textureHeight: int)
    | LayerSetPixelDensity(density: real)

  /** The `aDistance` out-parameter: the −1 sentinel, or the length of the
      hit vector, carried here by its square. */
  datatype Distance = NoDistance | DistanceSquared(value: real)

  /** The results of `TestIntersection`: its return value and its three
      out-parameters `aResult`, `aIsInside` and `aDistance`. */
  datatype RayHit = RayHit(hit: bool, result: Vec3, isInside: bool, distance: Distance)

  /** The bounds of a `width` × `height` rectangle centered at the origin. */
  function CenteredBounds(width: real, height: real): (b: Bounds)
    ensures b.max.x - b.min.x == width && b.max.y - b.min.y == height
    ensures b.min == Neg(b.max) && b.min.z == 0.0 && b.max.z == 0.0
  {
    Bounds(Vec3(-width * 0.5, -height * 0.5, 0.0), Vec3(width * 0.5, height * 0.5, 0.0))
  }

  /** `(bottomRight − min) × (max − min)` with `bottomRight = (max.x, min.y, min.z)`,
      before normalization. */
  function CenterNormal(worldMin: Vec3, worldMax: Vec3): (n: Vec3)
    ensures worldMin.z == worldMax.z ==>
      n == Vec3(0.0, 0.0, (worldMax.x - worldMin.x) * (worldMax.y - worldMin.y))
  {
    var bottomRight := Vec3(worldMax.x, worldMin.y, worldMin.z);
    Cross(Sub(bottomRight, worldMin), Sub(worldMax, worldMin))
  }

  /** `dotNormals > −kEpsilon` for the unit normal `c/|c|`, where `dn = direction·c`
      and `normalSq = c·c`. */
  predicate NotTowardPlane(dn: real, normalSq: real) {
    dn >= 0.0 || dn * dn < Epsilon * Epsilon * normalSq
  }

  /** `|dotV| < kEpsilon` for the unit normal, where `dv = (min − point)·c`. */
  predicate NearPlane(dv: real, normalSq: real) {
    dv * dv < Epsilon * Epsilon * normalSq
  }

  /** Within the x/y bounds, and within the bounds' z range widened by `ZSlack`. */
  predicate InBounds(worldMin: Vec3, worldMax: Vec3, p: Vec3) {
    && p.x >= worldMin.x && p.y >= worldMin.y && p.z >= worldMin.z - ZSlack
    && p.x <= worldMax.x && p.y <= worldMax.y && p.z <= worldMax.z + ZSlack
  }

  /** A failed test: `aDistance` is −1, the other out-parameters keep their values. */
  function Miss(result0: Vec3, inside0: bool): RayHit {
    RayHit(false, result0, inside0, NoDistance)
  }

  /** `Cylinder::TestIntersection` once the ray is in the surface's local space.
      `result0` and `inside0` are the values `aResult` and `aIsInside` held
      before the call. The clamp of the source rewrites only a local copy after
      `aResult` has been assigned, so `clamp` has no effect on the results. */
  function Intersect(enabled: bool, worldMin: Vec3, worldMax: Vec3, point: Vec3, direction: Vec3,
                     clamp: bool, result0: Vec3, inside0: bool): (r: RayHit)
    ensures !enabled ==> !r.hit
    ensures !r.hit ==> r == Miss(result0, inside0)
    ensures r.hit ==> r.distance.DistanceSquared? && (r.isInside <==> InBounds(worldMin, worldMax, r.result) || inside0)
  {
    var normal := CenterNormal(worldMin, worldMax);
    var normalSq := Dot(normal, normal);
    var dotNormals := Dot(direction, normal);
    var dotV := Dot(Sub(worldMin, point), normal);
    if !enabled || NotTowardPlane(dotNormals, normalSq) || NearPlane(dotV, normalSq) then
      Miss(result0, inside0)
    else
      var result := Add(point, Scale(direction, dotV / dotNormals));
      RayHit(true, result, if InBounds(worldMin, worldMax, result) then true else inside0,
             DistanceSquared(DistanceSq(result, point)))
  }

  /** The source's steps literally, given the unit normal `normal`. */
  function IntersectWithUnitNormal(normal: Vec3, enabled: bool, worldMin: Vec3, worldMax: Vec3,
                                   point: Vec3, direction: Vec3, clamp: bool,
                                   result0: Vec3, inside0: bool): RayHit
  {
    if !enabled then Miss(result0, inside0)
    else
      var dotNormals := Dot(direction, normal);
      if dotNormals > -Epsilon then Miss(result0, inside0)
      else
        var dotV := Dot(Sub(worldMin, point), normal);
        if dotV < Epsilon && dotV > -Epsilon then Miss(result0, inside0)
        else
          var length := dotV / dotNormals;
          var result := Add(point, Scale(direction, length));
          RayHit(true, result, if InBounds(worldMin, worldMax, result) then true else inside0,
                 DistanceSquared(DistanceSq(result, point)))
  }

  lemma ProductPositive(a: real, b: real)
    requires a > 0.0 && b > 0.0
    ensures a * b > 0.0
  {
  }

  lemma SquareLess(a: real, b: real)
    requires a >= 0.0 && b >= 0.0
    ensures a < b <==> a * a < b * b
  {
    assert (b - a) * (b + a) == b * b - a * a;
    if a < b {
      ProductPositive(b - a, b + a);
    } else if a > b {
      ProductPositive(a - b, a + b);
      assert (a - b) * (a + b) == a * a - b * b;
    }
  }

  /** Dividing by a positive `k` keeps a comparison with the scaled bound. */
  lemma QuotientCompare(x: real, k: real, e: real)
    requires k > 0.0
    ensures x / k < e <==> x < e * k
    ensures x / k > -e <==> -x < e * k
  {
    var q := x / k;
    assert q * k == x;
    assert (e - q) * k == e * k - x;
    assert (q + e) * k == x + e * k;
    if q < e {
      ProductPositive(e - q, k);
    } else if q > e {
      ProductPositive(q - e, k);
    }
    if q > -e {
      ProductPositive(q + e, k);
    } else if q < -e {
      ProductPositive(-e - q, k);
    }
  }

  lemma QuotientNonNegative(x: real, k: real)
    requires x >= 0.0 && k > 0.0
    ensures x / k >= 0.0
  {
    var q := x / k;
    assert q * k == x;
    if q < 0.0 {
      ProductPositive(-q, k);
    }
  }

  lemma TowardTestAgrees(dn: real, k: real)
    requires k > 0.0
    ensures (dn / k > -Epsilon) <==> NotTowardPlane(dn, k * k)
  {
    QuotientCompare(dn, k, Epsilon);
    if dn >= 0.0 {
      QuotientNonNegative(dn, k);
    } else {
      SquareLess(-dn, Epsilon * k);
      assert (Epsilon * k) * (Epsilon * k) == Epsilon * Epsilon * (k * k);
    }
  }

  lemma NearTestAgrees(dv: real, k: real)
    requires k > 0.0
    ensures (dv / k < Epsilon && dv / k > -Epsilon) <==> NearPlane(dv, k * k)
  {
    QuotientCompare(dv, k, Epsilon);
    assert (dv / k < Epsilon && dv / k > -Epsilon) <==> Abs(dv) < Epsilon * k;
    SquareLess(Abs(dv), Epsilon * k);
    assert Abs(dv) * Abs(dv) == dv * dv;
    assert (Epsilon * k) * (Epsilon * k) == Epsilon * Epsilon * (k * k);
  }

  /** The squared-form test agrees with the source's test on the unit normal
      `c/k`, for the positive `k` with `k² = c·c` (that is, `k = |c|`). */
  lemma UnitNormalAgrees(k: real, enabled: bool, worldMin: Vec3, worldMax: Vec3,
                         point: Vec3, direction: Vec3, clamp: bool,
                         result0: Vec3, inside0: bool)
    requires k > 0.0
    requires k * k == Dot(CenterNormal(worldMin, worldMax), CenterNormal(worldMin, worldMax))
    ensures IntersectWithUnitNormal(Scale(CenterNormal(worldMin, worldMax), 1.0 / k), enabled,
                                    worldMin, worldMax, point, direction, clamp, result0, inside0)
         == Intersect(enabled, worldMin, worldMax, point, direction, clamp, result0, inside0)
  {
    var c := CenterNormal(worldMin, worldMax);
    var n := Scale(c, 1.0 / k);
    var dn := Dot(direction, c);
    var dv := Dot(Sub(worldMin, point), c);
    DotScaleRight(direction, c, 1.0 / k);
    DotScaleRight(Sub(worldMin, point), c, 1.0 / k);
    assert Dot(direction, n) == dn / k;
    assert Dot(Sub(worldMin, point), n) == dv / k;
    TowardTestAgrees(dn, k);
    NearTestAgrees(dv, k);
    if enabled && !NotTowardPlane(dn, k * k) && !NearPlane(dv, k * k) {
      assert dn != 0.0;
      assert (dv / k) / (dn / k) == dv / dn;
    }
  }

  /** What a call reports: a miss leaves `aResult` and `aIsInside` as they were
      with the −1 distance; a hit sets `aIsInside` when the point is inside and
      leaves it alone otherwise, and measures the distance from the ray start. */
  lemma IntersectReport(enabled: bool, worldMin: Vec3, worldMax: Vec3, point: Vec3, direction: Vec3,
                        clamp: bool, result0: Vec3, inside0: bool)
    ensures var h := Intersect(enabled, worldMin, worldMax, point, direction, clamp, result0, inside0);
      var c := CenterNormal(worldMin, worldMax);
      && (h.hit <==> enabled && !NotTowardPlane(Dot(direction, c), Dot(c, c))
                             && !NearPlane(Dot(Sub(worldMin, point), c), Dot(c, c)))
      && (!h.hit ==> h == Miss(result0, inside0))
      && (h.hit ==> h.isInside == (InBounds(worldMin, worldMax, h.result) || inside0))
      && (h.hit ==> h.distance == DistanceSquared(DistanceSq(h.result, point)) && h.distance.value >= 0.0)
  {
    var h := Intersect(enabled, worldMin, worldMax, point, direction, clamp, result0, inside0);
    DotIsNonNegative(Sub(h.result, point));
  }

  /** A hit lies on the plane through `worldMin` normal to the center normal. */
  lemma HitLiesOnPlane(enabled: bool, worldMin: Vec3, worldMax: Vec3, point: Vec3,
                       direction: Vec3, clamp: bool, result0: Vec3, inside0: bool)
    requires Intersect(enabled, worldMin, worldMax, point, direction, clamp, result0, inside0).hit
    ensures var h := Intersect(enabled, worldMin, worldMax, point, direction, clamp, result0, inside0);
      Dot(Sub(h.result, worldMin), CenterNormal(worldMin, worldMax)) == 0.0
  {
    var h := Intersect(enabled, worldMin, worldMax, point, direction, clamp, result0, inside0);
    var c := CenterNormal(worldMin, worldMax);
    var dn := Dot(direction, c);
    var dv := Dot(Sub(worldMin, point), c);
    var t := dv / dn;
    assert h.result == Add(point, Scale(direction, t));
    assert Sub(h.result, worldMin) == Add(Neg(Sub(worldMin, point)), Scale(direction, t));
    DotAddLeft(Neg(Sub(worldMin, point)), Scale(direction, t), c);
    DotNeg(Sub(worldMin, point), c);
    DotScaleLeft(direction, t, c);
    assert t * dn == dv;
  }

  /** A ray parallel to the surface plane never hits it. */
  lemma ParallelRayMisses(enabled: bool, worldMin: Vec3, worldMax: Vec3, point: Vec3, direction: Vec3,
                          clamp: bool, result0: Vec3, inside0: bool)
    requires Dot(direction, CenterNormal(worldMin, worldMax)) == 0.0
    ensures Intersect(enabled, worldMin, worldMax, point, direction, clamp, result0, inside0)
         == Miss(result0, inside0)
  {
  }

  /** `aResult` is the unclamped hit whatever `aClamp` is. */
  lemma ClampLeavesResult(enabled: bool, worldMin: Vec3, worldMax: Vec3, point: Vec3, direction: Vec3,
                          result0: Vec3, inside0: bool)
    ensures Intersect(enabled, worldMin, worldMax, point, direction, true, result0, inside0)
         == Intersect(enabled, worldMin, worldMax, point, direction, false, result0, inside0)
  {
  }

  lemma SquareAboveEpsilonMultiple(a: real)
    requires a > 0.0
    ensures Epsilon * Epsilon * (a * a) < a * a
  {
    ProductPositive(a, a);
    assert Epsilon * Epsilon < 1.0;
  }

  lemma SquareAtLeast(t: real, e: real)
    requires t >= e > 0.0
    ensures t * t >= e * e
  {
    assert t * t >= t * e;
    assert t * e >= e * e;
  }

  lemma DownwardIsTowardPlane(area: real)
    requires area > 0.0
    ensures !NotTowardPlane(-area, area * area)
  {
    SquareAboveEpsilonMultiple(area);
  }

  lemma DownwardIsNotNearPlane(area: real, t: real)
    requires area > 0.0 && t >= Epsilon
    ensures !NearPlane(-t * area, area * area)
  {
    assert (-t * area) * (-t * area) == (t * t) * (area * area);
    SquareAtLeast(t, Epsilon);
    ProductPositive(area, area);
    assert (t * t) * (area * area) >= (Epsilon * Epsilon) * (area * area);
  }

  lemma NegatedQuotient(t: real, a: real)
    requires a != 0.0
    ensures (-t * a) / (-a) == t
  {
  }

  lemma IntersectHits(worldMin: Vec3, worldMax: Vec3, point: Vec3, direction: Vec3, clamp: bool,
                       result0: Vec3, inside0: bool, dn: real, dv: real)
    requires dn == Dot(direction, CenterNormal(worldMin, worldMax))
    requires dv == Dot(Sub(worldMin, point), CenterNormal(worldMin, worldMax))
    requires !NotTowardPlane(dn, Dot(CenterNormal(worldMin, worldMax), CenterNormal(worldMin, worldMax)))
    requires !NearPlane(dv, Dot(CenterNormal(worldMin, worldMax), CenterNormal(worldMin, worldMax)))
    ensures var result := Add(point, Scale(direction, dv / dn));
      Intersect(true, worldMin, worldMax, point, direction, clamp, result0, inside0)
      == RayHit(true, result, InBounds(worldMin, worldMax, result) || inside0,
                DistanceSquared(DistanceSq(result, point)))
  {
  }

  /** The downward ray, for a center normal `(0, 0, area)`. */
  lemma DownwardRayHitsNormal(worldMin: Vec3, worldMax: Vec3, px: real, py: real, t: real,
                              result0: Vec3, inside0: bool, area: real)
    requires CenterNormal(worldMin, worldMax) == Vec3(0.0, 0.0, area) && area > 0.0
    requires t >= Epsilon
    ensures var below := Vec3(px, py, worldMin.z);
      Intersect(true, worldMin, worldMax, Vec3(px, py, worldMin.z + t), Vec3(0.0, 0.0, -1.0),
                true, result0, inside0)
      == RayHit(true, below, InBounds(worldMin, worldMax, below) || inside0, DistanceSquared(t * t))
  {
    var below := Vec3(px, py, worldMin.z);
    var point := Vec3(px, py, worldMin.z + t);
    var direction := Vec3(0.0, 0.0, -1.0);
    var c := CenterNormal(worldMin, worldMax);
    assert Dot(c, c) == area * area;
    assert Dot(direction, c) == -area;
    assert Sub(worldMin, point) == Vec3(worldMin.x - px, worldMin.y - py, -t);
    assert Dot(Sub(worldMin, point), c) == -t * area;
    DownwardIsTowardPlane(area);
    DownwardIsNotNearPlane(area, t);
    IntersectHits(worldMin, worldMax, point, direction, true, result0, inside0, -area, -t * area);
    NegatedQuotient(t, area);
    assert Scale(direction, t) == Vec3(0.0, 0.0, -t);
    assert Add(point, Scale(direction, t)) == below;
    assert Sub(below, point) == Vec3(0.0, 0.0, -t);
    assert DistanceSq(below, point) == t * t;
  }

  /** A ray started at height `t >= kEpsilon` above a flat rectangle and aimed
      straight down hits the plane right below its start, at distance `t`; the
      hit is inside exactly when that point is within the bounds. */
  lemma DownwardRayHitsBelow(worldMin: Vec3, worldMax: Vec3, px: real, py: real, t: real,
                             result0: Vec3, inside0: bool)
    requires worldMin.z == worldMax.z
    requires worldMax.x > worldMin.x && worldMax.y > worldMin.y
    requires t >= Epsilon
    ensures var below := Vec3(px, py, worldMin.z);
      Intersect(true, worldMin, worldMax, Vec3(px, py, worldMin.z + t), Vec3(0.0, 0.0, -1.0),
                true, result0, inside0)
      == RayHit(true, below, InBounds(worldMin, worldMax, below) || inside0, DistanceSquared(t * t))
  {
    ProductPositive(worldMax.x - worldMin.x, worldMax.y - worldMin.y);
    DownwardRayHitsNormal(worldMin, worldMax, px, py, t, result0, inside0,
                          (worldMax.x - worldMin.x) * (worldMax.y - worldMin.y));
  }

  /** Aimed straight down at the center, the ray hits it inside the bounds. */
  lemma HeadOnRayHitsCenter(worldMin: Vec3, worldMax: Vec3, t: real, result0: Vec3)
    requires worldMin.z == worldMax.z
    requires worldMax.x > worldMin.x && worldMax.y > worldMin.y
    requires t >= Epsilon
    ensures var center := Vec3((worldMin.x + worldMax.x) / 2.0, (worldMin.y + worldMax.y) / 2.0, worldMin.z);
      Intersect(true, worldMin, worldMax, Vec3(center.x, center.y, worldMin.z + t), Vec3(0.0, 0.0, -1.0),
                true, result0, false)
      == RayHit(true, center, true, DistanceSquared(t * t))
  {
    DownwardRayHitsBelow(worldMin, worldMax, (worldMin.x + worldMax.x) / 2.0, (worldMin.y + worldMax.y) / 2.0,
                         t, result0, false);
  }

  /** The clamp of `ConvertToQuadCoordinates`: x and y pulled into the bounds,
      testing the maximum first. */
  function ClampToBounds(worldMin: Vec3, worldMax: Vec3, v: Vec3): Vec3 {
    Vec3(if v.x > worldMax.x then worldMax.x else if v.x < worldMin.x then worldMin.x else v.x,
         if v.y > worldMax.y then worldMax.y else if v.y < worldMin.y then worldMin.y else v.y,
         v.z)
  }

  /** `ConvertToQuadCoordinates`: texture x grows with world x from `min.x`,
      texture y grows downwards from `max.y`. */
  function QuadCoordinates(worldMin: Vec3, worldMax: Vec3, textureWidth: int, textureHeight: int,
                           point: Vec3, clamp: bool): (r: (real, real))
    requires worldMax.x != worldMin.x && worldMax.y != worldMin.y
    ensures !clamp ==> (point.x == worldMin.x ==> r.0 == 0.0) && (point.x == worldMax.x ==> r.0 == textureWidth as real)
    ensures !clamp ==> (point.y == worldMax.y ==> r.1 == 0.0) && (point.y == worldMin.y ==> r.1 == textureHeight as real)
  {
    var value := if clamp then ClampToBounds(worldMin, worldMax, point) else point;
    (((value.x - worldMin.x) / (worldMax.x - worldMin.x)) * textureWidth as real,
     ((worldMax.y - value.y) / (worldMax.y - worldMin.y)) * textureHeight as real)
  }

  /** The affine map of which `QuadCoordinates` is the inverse: texture
      coordinates `(u, v)` to the point of the surface plane they show. */
  function QuadToWorld(worldMin: Vec3, worldMax: Vec3, textureWidth: int, textureHeight: int,
                       u: real, v: real): Vec3
    requires textureWidth != 0 && textureHeight != 0
  {
    Vec3(worldMin.x + u / textureWidth as real * (worldMax.x - worldMin.x),
         worldMax.y - v / textureHeight as real * (worldMax.y - worldMin.y),
         worldMin.z)
  }

  /** `min.x` maps to 0 and `max.x` to the texture width; `max.y` maps to 0
      and `min.y` to the texture height (y is flipped). */
  lemma QuadCorners(worldMin: Vec3, worldMax: Vec3, textureWidth: int, textureHeight: int,
                    p: Vec3, clamp: bool)
    requires worldMax.x > worldMin.x && worldMax.y > worldMin.y
    ensures p.x == worldMin.x ==> QuadCoordinates(worldMin, worldMax, textureWidth, textureHeight, p, clamp).0 == 0.0
    ensures p.x == worldMax.x ==> QuadCoordinates(worldMin, worldMax, textureWidth, textureHeight, p, clamp).0 == textureWidth as real
    ensures p.y == worldMax.y ==> QuadCoordinates(worldMin, worldMax, textureWidth, textureHeight, p, clamp).1 == 0.0
    ensures p.y == worldMin.y ==> QuadCoordinates(worldMin, worldMax, textureWidth, textureHeight, p, clamp).1 == textureHeight as real
  {
  }

  /** With the clamp on, every point maps into the texture rectangle. */
  lemma ClampedQuadCoordinatesInTexture(worldMin: Vec3, worldMax: Vec3,
                                        textureWidth: int, textureHeight: int, p: Vec3)
    requires worldMax.x > worldMin.x && worldMax.y > worldMin.y
    requires textureWidth >= 0 && textureHeight >= 0
    ensures var r := QuadCoordinates(worldMin, worldMax, textureWidth, textureHeight, p, true);
      0.0 <= r.0 <= textureWidth as real && 0.0 <= r.1 <= textureHeight as real
  {
    var v := ClampToBounds(worldMin, worldMax, p);
    var w := worldMax.x - worldMin.x;
    var h := worldMax.y - worldMin.y;
    var fx := (v.x - worldMin.x) / w;
    var fy := (worldMax.y - v.y) / h;
    assert 0.0 <= v.x - worldMin.x <= w;
    assert 0.0 <= worldMax.y - v.y <= h;
    UnitFraction(v.x - worldMin.x, w);
    UnitFraction(worldMax.y - v.y, h);
    UnitScale(fx, textureWidth as real);
    UnitScale(fy, textureHeight as real);
  }

  lemma UnitFraction(a: real, b: real)
    requires b > 0.0 && 0.0 <= a <= b
    ensures 0.0 <= a / b <= 1.0
  {
    assert a / b * b == a;
  }

  lemma UnitScale(f: real, t: real)
    requires 0.0 <= f <= 1.0 && t >= 0.0
    ensures 0.0 <= f * t <= t
  {
    assert f * t <= 1.0 * t;
  }

  lemma FractionRoundTrip(u: real, t: real, lo: real, hi: real)
    requires t != 0.0 && hi != lo
    ensures (((lo + u / t * (hi - lo)) - lo) / (hi - lo)) * t == u
    ensures ((hi - (hi - u / t * (hi - lo))) / (hi - lo)) * t == u
  {
    assert (lo + u / t * (hi - lo)) - lo == u / t * (hi - lo);
    assert hi - (hi - u / t * (hi - lo)) == u / t * (hi - lo);
    assert (u / t * (hi - lo)) / (hi - lo) == u / t;
  }

  /** Texture coordinates mapped onto the plane and back are unchanged. */
  lemma QuadRoundTrip(worldMin: Vec3, worldMax: Vec3, textureWidth: int, textureHeight: int,
                      u: real, v: real)
    requires worldMax.x != worldMin.x && worldMax.y != worldMin.y
    requires textureWidth != 0 && textureHeight != 0
    ensures QuadCoordinates(worldMin, worldMax, textureWidth, textureHeight,
                            QuadToWorld(worldMin, worldMax, textureWidth, textureHeight, u, v), false) == (u, v)
  {
    var r := QuadCoordinates(worldMin, worldMax, textureWidth, textureHeight,
                             QuadToWorld(worldMin, worldMax, textureWidth, textureHeight, u, v), false);
    assert r.0 == u by {
      FractionRoundTrip(u, textureWidth as real, worldMin.x, worldMax.x);
    }
    assert r.1 == v by {
      FractionRoundTrip(v, textureHeight as real, worldMin.y, worldMax.y);
    }
  }

  /** A point of the plane mapped to texture coordinates and back is unchanged. */
  lemma WorldRoundTrip(worldMin: Vec3, worldMax: Vec3, textureWidth: int, textureHeight: int,
                       p: Vec3)
    requires worldMax.x != worldMin.x && worldMax.y != worldMin.y
    requires textureWidth != 0 && textureHeight != 0
    requires p.z == worldMin.z
    ensures var r := QuadCoordinates(worldMin, worldMax, textureWidth, textureHeight, p, false);
      QuadToWorld(worldMin, worldMax, textureWidth, textureHeight, r.0, r.1) == p
  {
    var w := worldMax.x - worldMin.x;
    var h := worldMax.y - worldMin.y;
    var tw := textureWidth as real;
    var th := textureHeight as real;
    var fx := (p.x - worldMin.x) / w;
    var fy := (worldMax.y - p.y) / h;
    assert (fx * tw) / tw == fx;
    assert fx * w == p.x - worldMin.x;
    assert (fy * th) / th == fy;
    assert fy * h == worldMax.y - p.y;
  }

  /** One surface: `Cylinder::State` with the fields the core updates. */
  class Cylinder {
    /** Whether the surface has a layer delegate. */
    const hasLayer: bool
    var textureWidth: int
    var textureHeight: int
    var worldMin: Vec3
    var worldMax: Vec3
    /** Every call made on the layer delegate so far, oldest first. */
    var layerCalls: seq<LayerCall>

    /** `Create(aContext, aMin, aMax, aLayer)`; `layer` is the size of the
        layer's texture when there is a layer. */
    constructor CreateWithBounds(aMin: Vec3, aMax: Vec3, layer: Option<TextureSize>)
      ensures hasLayer == layer.Some?
      ensures worldMin == aMin && worldMax == aMax
      ensures GetTextureSize() == (if layer.Some? then layer.value else TextureSize(0, 0))
      ensures layerCalls == (if layer.Some? then [LayerSetWorldSize(aMax.x - aMin.x, aMax.y - aMin.y)] else [])
    {
      hasLayer := layer.Some?;
      worldMin, worldMax := aMin, aMax;
      textureWidth, textureHeight := 0, 0;
      layerCalls := [];
      new;
      Initialize(layer);
    }

    /** `Create(aContext, aWorldWidth, aWorldHeight, aLayer)`: the same state as
        `CreateWithBounds` of the centered bounds. */
    constructor CreateWithSize(aWorldWidth: real, aWorldHeight: real, layer: Option<TextureSize>)
      ensures hasLayer == layer.Some?
      ensures Bounds(worldMin, worldMax) == CenteredBounds(aWorldWidth, aWorldHeight)
      ensures GetWorldSize() == (aWorldWidth, aWorldHeight)
      ensures GetTextureSize() == (if layer.Some? then layer.value else TextureSize(0, 0))
      ensures layerCalls == (if layer.Some? then [LayerSetWorldSize(aWorldWidth, aWorldHeight)] else [])
    {
      hasLayer := layer.Some?;
      var b := CenteredBounds(aWorldWidth, aWorldHeight);
      worldMin, worldMax := b.min, b.max;
      textureWidth, textureHeight := 0, 0;
      layerCalls := [];
      new;
      Initialize(layer);
    }

    /** `State::Initialize`: a layer supplies the texture size and is told the world size. */
    method Initialize(layer: Option<TextureSize>)
      requires hasLayer == layer.Some? && layerCalls == []
      modifies this`textureWidth, this`textureHeight, this`layerCalls
      ensures GetTextureSize() == (if layer.Some? then layer.value else old(GetTextureSize()))
      ensures layerCalls == (if layer.Some? then [LayerSetWorldSize(GetWorldSize().0, GetWorldSize().1)] else [])
    {
      if layer.Some? {
        textureWidth := layer.value.width;
        textureHeight := layer.value.height;
        layerCalls := layerCalls + [LayerSetWorldSize(worldMax.x - worldMin.x, worldMax.y - worldMin.y)];
      }
    }

    function GetTextureSize(): (r: TextureSize)
      reads this
      ensures r.width == textureWidth && r.height == textureHeight
    {
      TextureSize(textureWidth, textureHeight)
    }

    /** Stores the texture size and asks the layer to resize its buffer. */
    method SetTextureSize(aWidth: int, aHeight: int)
      modifies this`textureWidth, this`textureHeight, this`layerCalls
      ensures GetTextureSize() == TextureSize(aWidth, aHeight)
      ensures layerCalls == old(layerCalls) + (if hasLayer then [LayerResize(aWidth, aHeight)] else [])
    {
      textureWidth := aWidth;
      textureHeight := aHeight;
      if hasLayer {
        layerCalls := layerCalls + [LayerResize(aWidth, aHeight)];
      }
    }

    /** The width and height of the bounds. */
    function GetWorldSize(): (r: (real, real))
      reads this
      ensures r.0 == worldMax.x - worldMin.x && r.1 == worldMax.y - worldMin.y
    {
      (worldMax.x - worldMin.x, worldMax.y - worldMin.y)
    }

    /** `SetWorldSize(aMin, aMax)`: bounds equal to the current ones change
        nothing and send nothing to the layer; other bounds replace both corners
        and the layer is sent the new width and height. */
    method SetWorldBounds(aMin: Vec3, aMax: Vec3)
      modifies this`worldMin, this`worldMax, this`layerCalls
      ensures worldMin == aMin && worldMax == aMax
      ensures layerCalls ==
        if (old(worldMin) == aMin && old(worldMax) == aMax) || !hasLayer then old(layerCalls)
        else old(layerCalls) + [LayerSetWorldSize(aMax.x - aMin.x, aMax.y - aMin.y)]
    {
      if worldMin == aMin && worldMax == aMax {
        return;
      }
      worldMin := aMin;
      worldMax := aMax;
      if hasLayer {
        layerCalls := layerCalls + [LayerSetWorldSize(GetWorldSize().0, GetWorldSize().1)];
      }
    }

    /** `SetWorldSize(aWidth, aHeight)`: `SetWorldBounds` of the centered bounds,
        so a second call with the same size changes nothing. */
    method SetWorldSize(aWidth: real, aHeight: real)
      modifies this`worldMin, this`worldMax, this`layerCalls
      ensures Bounds(worldMin, worldMax) == CenteredBounds(aWidth, aHeight)
      ensures GetWorldSize() == (aWidth, aHeight)
      ensures layerCalls ==
        if Bounds(old(worldMin), old(worldMax)) == CenteredBounds(aWidth, aHeight) || !hasLayer then old(layerCalls)
        else old(layerCalls) + [LayerSetWorldSize(aWidth, aHeight)]
    {
      var b := CenteredBounds(aWidth, aHeight);
      SetWorldBounds(b.min, b.max);
    }

    /** The center normal, unnormalized: on flat bounds it points along +z
        with the bounds' signed area as its length. */
    function GetCenterNormal(): (r: Vec3)
      reads this
      ensures r == CenterNormal(worldMin, worldMax)
      ensures worldMin.z == worldMax.z ==>
        r == Vec3(0.0, 0.0, (worldMax.x - worldMin.x) * (worldMax.y - worldMin.y))
    {
      CenterNormal(worldMin, worldMax)
    }

    /** `TestIntersection` with the ray already in local space; `enabled` is
        whether the surface's root node is enabled in the scene graph. */
    function TestIntersection(enabled: bool, point: Vec3, direction: Vec3, clamp: bool,
                              result0: Vec3, inside0: bool): (r: RayHit)
      reads this
      ensures r == Intersect(enabled, worldMin, worldMax, point, direction, clamp, result0, inside0)
      ensures r == Intersect(enabled, worldMin, worldMax, point, direction, !clamp, result0, inside0)
    {
      ClampLeavesResult(enabled, worldMin, worldMax, point, direction, result0, inside0);
      Intersect(enabled, worldMin, worldMax, point, direction, clamp, result0, inside0)
    }

    /** `ConvertToQuadCoordinates`: with the clamp on and proper bounds, the
        coordinates lie within the texture. */
    function ConvertToQuadCoordinates(point: Vec3, clamp: bool): (r: (real, real))
      reads this
      requires worldMax.x != worldMin.x && worldMax.y != worldMin.y
      ensures r == QuadCoordinates(worldMin, worldMax, textureWidth, textureHeight, point, clamp)
      ensures clamp && worldMax.x > worldMin.x && worldMax.y > worldMin.y && textureWidth >= 0 && textureHeight >= 0 ==>
        0.0 <= r.0 <= textureWidth as real && 0.0 <= r.1 <= textureHeight as real
    {
      if clamp && worldMax.x > worldMin.x && worldMax.y > worldMin.y && textureWidth >= 0 && textureHeight >= 0 then
        ClampedQuadCoordinatesInTexture(worldMin, worldMax, textureWidth, textureHeight, point);
        QuadCoordinates(worldMin, worldMax, textureWidth, textureHeight, point, clamp)
      else
        QuadCoordinates(worldMin, worldMax, textureWidth, textureHeight, point, clamp)
    }
  }
}
