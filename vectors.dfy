/** Value types shared by the whole model: an optional value, the engine's
    vector and rotator structs over exact reals, and the two scalar helpers
    (clamp and linear interpolation) the game code calls from its math library. */
module Options {

  /** An engine pointer that may be null, or a lookup that may miss. */
  datatype Option<+T> = None | Some(value: T)
}

module Vectors {

  /** A world-space position or direction (FVector), with exact reals. */
  datatype Vec3 = Vec3(x: real, y: real, z: real)

  /** A point on a 2D widget (FVector2D). */
  datatype Vec2 = Vec2(x: real, y: real)

  /** An orientation in degrees (FRotator). */
  datatype Rotator = Rotator(pitch: real, yaw: real, roll: real)

  const Zero: Vec3 := Vec3(0.0, 0.0, 0.0)

  function Add(a: Vec3, b: Vec3): Vec3 {
    Vec3(a.x + b.x, a.y + b.y, a.z + b.z)
  }

  function Sub(a: Vec3, b: Vec3): Vec3 {
    Vec3(a.x - b.x, a.y - b.y, a.z - b.z)
  }

  function Scale(a: Vec3, k: real): Vec3 {
    Vec3(a.x * k, a.y * k, a.z * k)
  }

  function Neg(a: Vec3): Vec3 {
    Vec3(-a.x, -a.y, -a.z)
  }

  /** A scalar lerp as the math library writes it: a + alpha * (b - a). */
  function Lerp1(a: real, b: real, alpha: real): (r: real)
    ensures alpha == 0.0 ==> r == a
    ensures alpha == 1.0 ==> r == b
  {
    a + alpha * (b - a)
  }

  /** Component-wise lerp of two positions. */
  function Lerp(a: Vec3, b: Vec3, alpha: real): (r: Vec3)
    ensures alpha == 0.0 ==> r == a
    ensures alpha == 1.0 ==> r == b
  {
    Vec3(Lerp1(a.x, b.x, alpha), Lerp1(a.y, b.y, alpha), Lerp1(a.z, b.z, alpha))
  }

  /** Clamp as the math library defines it: below lo gives lo, otherwise
      below hi gives x, otherwise hi. */
  function Clamp(x: real, lo: real, hi: real): (r: real)
    requires lo <= hi
    ensures lo <= r <= hi
    ensures lo <= x <= hi ==> r == x
    ensures x <= lo ==> r == lo
    ensures hi <= x ==> r == hi
  {
    if x < lo then lo else if x < hi then x else hi
  }

  lemma ClampIdempotent(x: real, lo: real, hi: real)
    requires lo <= hi
    ensures Clamp(Clamp(x, lo, hi), lo, hi) == Clamp(x, lo, hi)
  {
  }
}
