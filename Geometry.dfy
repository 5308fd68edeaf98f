/** Exact-real 3D vectors and the car's orthonormal frame.
    Unity's Vector3 works on 32-bit floats; here every component is a real. */
module Geometry {

  datatype Vec3 = Vec3(x: real, y: real, z: real)

  const Zero: Vec3 := Vec3(0.0, 0.0, 0.0)

  function Add(a: Vec3, b: Vec3): Vec3 {
    Vec3(a.x + b.x, a.y + b.y, a.z + b.z)
  }

  /** `a * k` in Unity's notation. */
  function Scale(a: Vec3, k: real): Vec3 {
    Vec3(a.x * k, a.y * k, a.z * k)
  }

  /** Unary `-a`. */
  function Neg(a: Vec3): Vec3 {
    Vec3(-a.x, -a.y, -a.z)
  }

  /** `Vector3.Dot`. */
  function Dot(a: Vec3, b: Vec3): real {
    a.x * b.x + a.y * b.y + a.z * b.z
  }

  /** `Vector3.sqrMagnitude`. */
  function SqrMagnitude(a: Vec3): real {
    Dot(a, a)
  }

  /** `Vector3.Cross`; used only to state that two vectors are parallel. */
  function Cross(a: Vec3, b: Vec3): Vec3 {
    Vec3(a.y * b.z - a.z * b.y, a.z * b.x - a.x * b.z, a.x * b.y - a.y * b.x)
  }

  function Abs(r: real): real {
    if r < 0.0 then -r else r
  }

  /** The car's `transform.forward`, `transform.right` and `transform.up`. */
  datatype Frame = Frame(forward: Vec3, right: Vec3, up: Vec3)

  /** What a Unity transform guarantees of its three axes. */
  predicate Orthonormal(fr: Frame) {
    && Dot(fr.forward, fr.forward) == 1.0
    && Dot(fr.right, fr.right) == 1.0
    && Dot(fr.up, fr.up) == 1.0
    && Dot(fr.forward, fr.right) == 0.0
    && Dot(fr.forward, fr.up) == 0.0
    && Dot(fr.right, fr.up) == 0.0
  }

  lemma DotCommutes(a: Vec3, b: Vec3)
    ensures Dot(a, b) == Dot(b, a)
  {
  }

  /** The dot product is linear in its first argument. */
  lemma DotLinear(a: Vec3, p: real, b: Vec3, q: real, c: Vec3)
    ensures Dot(Add(Scale(a, p), Scale(b, q)), c) == p * Dot(a, c) + q * Dot(b, c)
  {
    calc {
      Dot(Add(Scale(a, p), Scale(b, q)), c);
      (a.x * p + b.x * q) * c.x + (a.y * p + b.y * q) * c.y + (a.z * p + b.z * q) * c.z;
      p * (a.x * c.x + a.y * c.y + a.z * c.z) + q * (b.x * c.x + b.y * c.y + b.z * c.z);
    }
  }

  lemma DotScale(a: Vec3, p: real, c: Vec3)
    ensures Dot(Scale(a, p), c) == p * Dot(a, c)
  {
    calc {
      Dot(Scale(a, p), c);
      (a.x * p) * c.x + (a.y * p) * c.y + (a.z * p) * c.z;
      p * (a.x * c.x + a.y * c.y + a.z * c.z);
    }
  }

  /** Unity's `-a * p * q * t`, evaluated left to right, is one multiple of `a`. */
  lemma NegScaleChain(a: Vec3, p: real, q: real, t: real)
    ensures Scale(Scale(Scale(Neg(a), p), q), t) == Scale(a, -p * q * t)
  {
    assert Neg(a).x == -a.x && Neg(a).y == -a.y && Neg(a).z == -a.z;
  }

  lemma MulNonneg(a: real, b: real)
    requires a >= 0.0 && b >= 0.0
    ensures a * b >= 0.0
  {
  }

  /** Cauchy-Schwarz, via Lagrange's identity: the squared projection onto a
      vector is at most the product of the squared lengths. */
  lemma CauchySchwarz(a: Vec3, b: Vec3)
    ensures Dot(a, b) * Dot(a, b) <= SqrMagnitude(a) * SqrMagnitude(b)
  {
    var c := Cross(a, b);
    assert SqrMagnitude(a) * SqrMagnitude(b) - Dot(a, b) * Dot(a, b) == SqrMagnitude(c);
    assert SqrMagnitude(c) >= 0.0;
  }

  /** A multiple of `a` is parallel to `a`. */
  lemma ScaleParallel(a: Vec3, p: real)
    ensures Cross(Scale(a, p), a) == Zero
  {
  }
}
