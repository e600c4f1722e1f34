/** The small vector types of glm and GLSL (vec3, vec4), over the reals. */
module Vectors {
  datatype Vec3 = Vec3(x: real, y: real, z: real)
  datatype Vec4 = Vec4(x: real, y: real, z: real, w: real)

  const Zero3: Vec3 := Vec3(0.0, 0.0, 0.0)

  function Add(a: Vec3, b: Vec3): Vec3 {
    Vec3(a.x + b.x, a.y + b.y, a.z + b.z)
  }

  /** Multiplication of every component by a scalar (GLSL `v * s`). */
  function Mul(a: Vec3, s: real): Vec3 {
    Vec3(a.x * s, a.y * s, a.z * s)
  }

  /** The GLSL swizzle `v.yzx`. */
  function Yzx(a: Vec3): Vec3 {
    Vec3(a.y, a.z, a.x)
  }

  /** The GLSL swizzle `v.zxy`. */
  function Zxy(a: Vec3): Vec3 {
    Vec3(a.z, a.x, a.y)
  }
}
