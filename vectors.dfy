/** Three-component vectors of reals, standing for the `Vector3` and `Euler`
    triples (position, scale, rotation) of the rendering engine. JavaScript
    numbers are modelled as exact reals. */
module Vectors {

  datatype Vec3 = Vec3(x: real, y: real, z: real)

  const Origin: Vec3 := Vec3(0.0, 0.0, 0.0)

  /** The same value on all three axes, as `scale.set(k, k, k)` writes it. */
  function Uniform(k: real): (v: Vec3) {
    Vec3(k, k, k)
  }

  function Add(a: Vec3, b: Vec3): (v: Vec3) {
    Vec3(a.x + b.x, a.y + b.y, a.z + b.z)
  }

  /** Component-wise difference, as `Vector3.sub` computes it in place. */
  function Sub(a: Vec3, b: Vec3): (v: Vec3) {
    Vec3(a.x - b.x, a.y - b.y, a.z - b.z)
  }

  function Times(k: real, a: Vec3): (v: Vec3) {
    Vec3(k * a.x, k * a.y, k * a.z)
  }

  /** Component-wise product: a point in the object's own frame, scaled by
      the object's scale vector. */
  function Mul(a: Vec3, b: Vec3): (v: Vec3) {
    Vec3(a.x * b.x, a.y * b.y, a.z * b.z)
  }

  predicate IsUniform(v: Vec3) {
    v.x == v.y == v.z
  }
}
