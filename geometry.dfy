/**
 * Vector values of the model. Positions that come back from the GPU are
 * 32-bit floats that may be NaN or infinite, so they are kept as `Float`;
 * everything else is a real-valued `Vec2`/`Vec3`.
 */
module Geometry {

  /** An IEEE float seen only through its class: a finite value, NaN or an infinity. */
  datatype Float = Finite(value: real) | NaN | Infinity(negative: bool)

  /** `glam::Vec3` as read back from a GPU buffer. */
  datatype FloatVec3 = FloatVec3(x: Float, y: Float, z: Float)

  /** `glam::Vec2` as computed from a GPU-provided position. */
  datatype FloatVec2 = FloatVec2(u: Float, v: Float)

  datatype Vec2 = Vec2(x: real, y: real)

  datatype Vec3 = Vec3(x: real, y: real, z: real)

  /** `Vec3::is_nan()`: some component is NaN. */
  predicate IsNan(p: FloatVec3) {
    p.x.NaN? || p.y.NaN? || p.z.NaN?
  }

  /** `Vec3::is_finite()`: every component is finite. */
  predicate IsFinite(p: FloatVec3) {
    p.x.Finite? && p.y.Finite? && p.z.Finite?
  }

  /** The real-valued vector of a finite float vector. */
  function ToVec3(p: FloatVec3): (v: Vec3)
    requires IsFinite(p)
    ensures FloatVec3(Finite(v.x), Finite(v.y), Finite(v.z)) == p
  {
    Vec3(p.x.value, p.y.value, p.z.value)
  }

  function Add3(a: Vec3, b: Vec3): Vec3 {
    Vec3(a.x + b.x, a.y + b.y, a.z + b.z)
  }

  function Sub2(a: Vec2, b: Vec2): Vec2 {
    Vec2(a.x - b.x, a.y - b.y)
  }
}
