/** Three-component vectors over the reals, the axis-aligned `Bounds` of a
    widget rectangle, and the scalar helpers (`fabsf`, `fminf`, `fmaxf`)
    the geometry code uses. Float rounding is not modelled. */
module Vectors {

  datatype Vec3 = Vec3(x: real, y: real, z: real)

  /** A rectangle given by its minimum and maximum corners. */
  datatype Bounds = Bounds(min: Vec3, max: Vec3)

  const Zero := Vec3(0.0, 0.0, 0.0)

  function Add(a: Vec3, b: Vec3): Vec3 {
    Vec3(a.x + b.x, a.y + b.y, a.z + b.z)
  }

  function Sub(a: Vec3, b: Vec3): Vec3 {
    Vec3(a.x - b.x, a.y - b.y, a.z - b.z)
  }

  function Neg(a: Vec3): Vec3 {
    Vec3(-a.x, -a.y, -a.z)
  }

  function Scale(a: Vec3, t: real): Vec3 {
    Vec3(a.x * t, a.y * t, a.z * t)
  }

  function Dot(a: Vec3, b: Vec3): real {
    a.x * b.x + a.y * b.y + a.z * b.z
  }

  function Cross(a: Vec3, b: Vec3): Vec3 {
    Vec3(a.y * b.z - a.z * b.y, a.z * b.x - a.x * b.z, a.x * b.y - a.y * b.x)
  }

  /** The squared Euclidean distance between two points. */
  function DistanceSq(a: Vec3, b: Vec3): real {
    Dot(Sub(a, b), Sub(a, b))
  }

  function Abs(r: real): real {
    if r < 0.0 then -r else r
  }

  function Min(a: real, b: real): real {
    if a <= b then a else b
  }

  function Max(a: real, b: real): real {
    if a >= b then a else b
  }

  /** `fmaxf(fminf(v, hi), lo)`, the clamp the resizer writes out. */
  function Clamp(v: real, lo: real, hi: real): (r: real)
    requires lo <= hi
    ensures lo <= r <= hi
    ensures lo <= v <= hi ==> r == v
    ensures v > hi ==> r == hi
    ensures v < lo ==> r == lo
  {
    Max(Min(v, hi), lo)
  }

  lemma DotIsNonNegative(a: Vec3)
    ensures Dot(a, a) >= 0.0
  {
    assert a.x * a.x >= 0.0 && a.y * a.y >= 0.0 && a.z * a.z >= 0.0;
  }

  lemma DotAddLeft(a: Vec3, b: Vec3, c: Vec3)
    ensures Dot(Add(a, b), c) == Dot(a, c) + Dot(b, c)
  {
  }

  lemma DotScaleLeft(a: Vec3, t: real, c: Vec3)
    ensures Dot(Scale(a, t), c) == t * Dot(a, c)
  {
  }

  lemma DotScaleRight(a: Vec3, c: Vec3, t: real)
    ensures Dot(a, Scale(c, t)) == t * Dot(a, c)
  {
  }

  lemma DotNeg(a: Vec3, c: Vec3)
    ensures Dot(Neg(a), c) == -Dot(a, c)
  {
  }
}
