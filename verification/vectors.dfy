/** Plane and space vectors over the reals, standing in for the engine's
    `Vec2` and the `translation` field (a `Vec3`) of a `Transform`. */
module Vectors {

  datatype Vec2 = Vec2(x: real, y: real)

  datatype Vec3 = Vec3(x: real, y: real, z: real)

  const Zero2: Vec2 := Vec2(0.0, 0.0)

  const Origin: Vec3 := Vec3(0.0, 0.0, 0.0)

  function Add(a: Vec2, b: Vec2): Vec2 {
    Vec2(a.x + b.x, a.y + b.y)
  }

  function Neg(a: Vec2): Vec2 {
    Vec2(-a.x, -a.y)
  }

  function Scale(a: Vec2, k: real): Vec2 {
    Vec2(a.x * k, a.y * k)
  }

  /** Squared length of a plane vector. */
  function Norm2(a: Vec2): real {
    a.x * a.x + a.y * a.y
  }

  /** `Vec2::extend`: the space vector with the given `z`. */
  function Extend(a: Vec2, z: real): Vec3 {
    Vec3(a.x, a.y, z)
  }

  /** `Vec3::xy`: drop the `z` component. */
  function Xy(a: Vec3): Vec2 {
    Vec2(a.x, a.y)
  }

  function Sub3(a: Vec3, b: Vec3): Vec3 {
    Vec3(a.x - b.x, a.y - b.y, a.z - b.z)
  }

  /** Squared Euclidean distance between two points in space. */
  function Dist2(a: Vec3, b: Vec3): real {
    var d := Sub3(a, b);
    d.x * d.x + d.y * d.y + d.z * d.z
  }

  lemma NormOfScale(a: Vec2, k: real)
    ensures Norm2(Scale(a, k)) == k * k * Norm2(a)
  {
    assert (a.x * k) * (a.x * k) == k * k * (a.x * a.x);
    assert (a.y * k) * (a.y * k) == k * k * (a.y * a.y);
  }
}
