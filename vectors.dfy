/** Three- and four-component real vectors, the part of glm's vec3/vec4 arithmetic the camera uses.
    Components are real numbers; single-precision rounding is not modelled. */
module Vectors {

  datatype Vec3 = Vec3(x: real, y: real, z: real)

  datatype Vec4 = Vec4(x: real, y: real, z: real, w: real)

  function Add(a: Vec3, b: Vec3): Vec3 {
    Vec3(a.x + b.x, a.y + b.y, a.z + b.z)
  }

  function Sub(a: Vec3, b: Vec3): Vec3 {
    Vec3(a.x - b.x, a.y - b.y, a.z - b.z)
  }

  function Neg(a: Vec3): Vec3 {
    Vec3(-a.x, -a.y, -a.z)
  }

  /** Scalar times vector, glm's `float * vec3`. */
  function Scale(k: real, a: Vec3): Vec3 {
    Vec3(k * a.x, k * a.y, k * a.z)
  }

  function Dot(a: Vec3, b: Vec3): real {
    a.x * b.x + a.y * b.y + a.z * b.z
  }

  /** Right-handed cross product, glm::cross. */
  function Cross(a: Vec3, b: Vec3): Vec3 {
    Vec3(a.y * b.z - a.z * b.y,
         a.z * b.x - a.x * b.z,
         a.x * b.y - a.y * b.x)
  }

  /** Two displacements that are opposite vectors bring a point back where it started. */
  lemma OppositeDisplacementsCancel(a: Vec3, b: Vec3, c: Vec3, d: Vec3)
    requires Sub(b, a) == d
    requires Sub(c, b) == Neg(d)
    ensures c == a
  {
  }

  lemma ScaleNeg(k: real, v: Vec3)
    ensures Scale(k, Neg(v)) == Neg(Scale(k, v))
  {
  }

  lemma DotScaleLeft(k: real, u: Vec3, v: Vec3)
    ensures Dot(Scale(k, u), v) == k * Dot(u, v)
  {
    calc {
      Dot(Scale(k, u), v);
      (k * u.x) * v.x + (k * u.y) * v.y + (k * u.z) * v.z;
      k * (u.x * v.x) + k * (u.y * v.y) + k * (u.z * v.z);
      k * Dot(u, v);
    }
  }

  /** The cross product is orthogonal to both of its operands. */
  lemma CrossOrthogonal(a: Vec3, b: Vec3)
    ensures Dot(Cross(a, b), a) == 0.0
    ensures Dot(Cross(a, b), b) == 0.0
  {
    var c := Cross(a, b);
    assert c.x * a.x == a.y * b.z * a.x - a.z * b.y * a.x;
    assert c.y * a.y == a.z * b.x * a.y - a.x * b.z * a.y;
    assert c.z * a.z == a.x * b.y * a.z - a.y * b.x * a.z;
    assert c.x * b.x == a.y * b.z * b.x - a.z * b.y * b.x;
    assert c.y * b.y == a.z * b.x * b.y - a.x * b.z * b.y;
    assert c.z * b.z == a.x * b.y * b.z - a.y * b.x * b.z;
  }

  /** Any multiple of a cross product is still orthogonal to both operands. */
  lemma ScaledCrossOrthogonal(k: real, a: Vec3, b: Vec3)
    ensures Dot(Scale(k, Cross(a, b)), a) == 0.0
    ensures Dot(Scale(k, Cross(a, b)), b) == 0.0
  {
    CrossOrthogonal(a, b);
    DotScaleLeft(k, Cross(a, b), a);
    DotScaleLeft(k, Cross(a, b), b);
  }
}
