/** The part of the glm library the camera calls. The trigonometric functions, the degree-to-radian
    conversion, the inverse square root, normalize and lookAt are left uninterpreted: they are fields of
    a `GlmMath` record, so every statement proved here holds for whatever functions the record holds.
    Where a statement needs glm's definition of normalize, `v * inversesqrt(dot(v, v))`, it takes it as
    the hypothesis `NormalizeScales`. */
module Glm {
  import opened Vectors

  datatype Mat4 = Mat4(c0: Vec4, c1: Vec4, c2: Vec4, c3: Vec4)

  datatype GlmMath = GlmMath(
    cos: real -> real,
    sin: real -> real,
    radians: real -> real,
    inverseSqrt: real -> real,
    normalize: Vec3 -> Vec3,
    lookAt: (Vec3, Vec3, Vec3) -> Mat4)

  // The uninterpreted glm functions, applied through the record.

  function Cos(m: GlmMath, x: real): real { m.cos(x) }

  function Sin(m: GlmMath, x: real): real { m.sin(x) }

  /** glm::radians: degrees to radians. */
  function Radians(m: GlmMath, degrees: real): real { m.radians(degrees) }

  function InverseSqrt(m: GlmMath, x: real): real { m.inverseSqrt(x) }

  /** glm::lookAt(eye, center, up). */
  function LookAt(m: GlmMath, eye: Vec3, center: Vec3, up: Vec3): Mat4 { m.lookAt(eye, center, up) }

  /** glm::normalize. */
  function Normalize(m: GlmMath, v: Vec3): Vec3 { m.normalize(v) }

  /** glm's definition of normalize: the vector scaled by the inverse square root of its squared
      length. Statements that need it take it as a precondition; the square root stays uninterpreted. */
  ghost predicate NormalizeScales(m: GlmMath) {
    forall v :: Normalize(m, v) == Scale(InverseSqrt(m, Dot(v, v)), v)
  }

  /** A normalized cross product is orthogonal to both operands, whatever the inverse square root is. */
  lemma NormalizedCrossOrthogonal(m: GlmMath, a: Vec3, b: Vec3)
    requires NormalizeScales(m)
    ensures Dot(Normalize(m, Cross(a, b)), a) == 0.0
    ensures Dot(Normalize(m, Cross(a, b)), b) == 0.0
  {
    ScaledCrossOrthogonal(InverseSqrt(m, Dot(Cross(a, b), Cross(a, b))), a, b);
  }

  // A glm::mat4 is stored column by column: m[c][r] is column c, row r.

  function Identity(): Mat4 {
    Mat4(Vec4(1.0, 0.0, 0.0, 0.0),
         Vec4(0.0, 1.0, 0.0, 0.0),
         Vec4(0.0, 0.0, 1.0, 0.0),
         Vec4(0.0, 0.0, 0.0, 1.0))
  }

  /** Matrix times column vector: entry r is row r of the matrix dotted with the vector. */
  function MatVec(a: Mat4, v: Vec4): Vec4 {
    Vec4(a.c0.x * v.x + a.c1.x * v.y + a.c2.x * v.z + a.c3.x * v.w,
         a.c0.y * v.x + a.c1.y * v.y + a.c2.y * v.z + a.c3.y * v.w,
         a.c0.z * v.x + a.c1.z * v.y + a.c2.z * v.z + a.c3.z * v.w,
         a.c0.w * v.x + a.c1.w * v.y + a.c2.w * v.z + a.c3.w * v.w)
  }

  /** Matrix product: column j of `a * b` is `a` applied to column j of `b`. */
  function MatMul(a: Mat4, b: Mat4): Mat4 {
    Mat4(MatVec(a, b.c0), MatVec(a, b.c1), MatVec(a, b.c2), MatVec(a, b.c3))
  }
}
