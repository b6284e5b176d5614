/**
  The glm vector values the viewer computes with. Single-precision floats are
  modelled as reals; nothing here rounds.
 */
module Vectors {

  datatype Vec2 = Vec2(x: real, y: real)

  datatype Vec3 = Vec3(x: real, y: real, z: real)

  /** glm::vec3(c): all three components equal to c. */
  function Splat(c: real): Vec3 {
    Vec3(c, c, c)
  }

  function Plus(a: Vec3, b: Vec3): Vec3 {
    Vec3(a.x + b.x, a.y + b.y, a.z + b.z)
  }

  function Minus(a: Vec3, b: Vec3): Vec3 {
    Vec3(a.x - b.x, a.y - b.y, a.z - b.z)
  }

  /** k * v, as glm multiplies a scalar and a vector. */
  function Times(k: real, v: Vec3): Vec3 {
    Vec3(k * v.x, k * v.y, k * v.z)
  }

  /** The squared Euclidean length; glm::length(v) < r iff this is < r * r for r >= 0. */
  function LengthSquared(v: Vec3): real {
    v.x * v.x + v.y * v.y + v.z * v.z
  }

  /** glm::clamp(c, 0.0f, 1.0f) on one component. */
  function ClampUnit(c: real): (r: real)
    ensures 0.0 <= r <= 1.0
    ensures 0.0 <= c <= 1.0 ==> r == c
    ensures c < 0.0 ==> r == 0.0
    ensures c > 1.0 ==> r == 1.0
  {
    if c < 0.0 then 0.0 else if c > 1.0 then 1.0 else c
  }

  predicate InUnitCube(v: Vec3) {
    0.0 <= v.x <= 1.0 && 0.0 <= v.y <= 1.0 && 0.0 <= v.z <= 1.0
  }

  /** glm::clamp(v, vec3(0.0f), vec3(1.0f)): componentwise. */
  function ClampUnitCube(v: Vec3): (r: Vec3)
    ensures InUnitCube(r)
    ensures InUnitCube(v) ==> r == v
  {
    Vec3(ClampUnit(v.x), ClampUnit(v.y), ClampUnit(v.z))
  }
}
