/** Three-dimensional points and vectors over the reals, the part of the
    three.js Vector3 API that the simulation uses (add, sub, multiplyScalar,
    length). Lengths involve a square root and are not computed here: a
    length is supplied by the caller and tied to the dot product. */
module Vectors {

  datatype Vec3 = Vec3(x: real, y: real, z: real)

  const Zero: Vec3 := Vec3(0.0, 0.0, 0.0)

  function Add(a: Vec3, b: Vec3): Vec3 {
    Vec3(a.x + b.x, a.y + b.y, a.z + b.z)
  }

  function Sub(a: Vec3, b: Vec3): Vec3 {
    Vec3(a.x - b.x, a.y - b.y, a.z - b.z)
  }

  function Scale(a: Vec3, k: real): Vec3 {
    Vec3(a.x * k, a.y * k, a.z * k)
  }

  function Dot(a: Vec3, b: Vec3): real {
    a.x * b.x + a.y * b.y + a.z * b.z
  }

  /** `length` behaves as Vector3.length(): a non-negative square root of
      the squared norm. */
  ghost predicate IsLength(length: Vec3 -> real) {
    forall v :: length(v) >= 0.0 && length(v) * length(v) == Dot(v, v)
  }

  lemma SubAdd(a: Vec3, d: Vec3)
    ensures Sub(Add(a, d), a) == d
  {
  }

  lemma ScaleScale(u: Vec3, a: real, b: real)
    ensures Scale(Scale(u, a), b) == Scale(u, a * b)
  {
    assert (u.x * a) * b == u.x * (a * b);
    assert (u.y * a) * b == u.y * (a * b);
    assert (u.z * a) * b == u.z * (a * b);
  }

  lemma DotScaleLeft(u: Vec3, k: real, w: Vec3)
    ensures Dot(Scale(u, k), w) == k * Dot(u, w)
  {
    calc {
      Dot(Scale(u, k), w);
      (u.x * k) * w.x + (u.y * k) * w.y + (u.z * k) * w.z;
      k * (u.x * w.x) + k * (u.y * w.y) + k * (u.z * w.z);
      k * Dot(u, w);
    }
  }

  lemma DotScaleBoth(u: Vec3, k: real)
    ensures Dot(Scale(u, k), Scale(u, k)) == k * k * Dot(u, u)
  {
    DotScaleLeft(u, k, Scale(u, k));
    DotScaleLeft(u, k, u);
    assert Dot(u, Scale(u, k)) == Dot(Scale(u, k), u);
  }
}
