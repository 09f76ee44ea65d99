/** Vectors in world space. The game keeps every position and direction as a
    three-element array [x, y, z] of numbers; here they are exact reals. */
module Geometry {

  datatype Vec3 = Vec3(x: real, y: real, z: real)

  function Add(a: Vec3, b: Vec3): Vec3 {
    Vec3(a.x + b.x, a.y + b.y, a.z + b.z)
  }

  function Scale(a: Vec3, k: real): Vec3 {
    Vec3(a.x * k, a.y * k, a.z * k)
  }

  /** Squared length of the horizontal (x, z) part of a vector. */
  function PlanarNormSq(v: Vec3): real {
    v.x * v.x + v.z * v.z
  }

  /** A heading on the ground plane: no vertical part, horizontal length 1. */
  predicate IsHorizontalUnit(d: Vec3) {
    d.y == 0.0 && PlanarNormSq(d) == 1.0
  }

  function Abs(x: real): real {
    if x < 0.0 then -x else x
  }

  // The facts below about squares go through the function Sq so that the
  // solver treats each square as one term and combines them linearly.

  function Sq(x: real): real {
    x * x
  }

  lemma SqOfQuotient(a: real, n: real)
    requires n > 0.0
    ensures Sq(a / n) * Sq(n) == Sq(a)
  {
    var p := a / n;
    assert p * n == a;
    calc {
      Sq(p) * Sq(n);
      == (p * p) * (n * n);
      == (p * n) * (p * n);
      == a * a;
    }
  }

  lemma CancelSum(u: real, v: real, x: real, y: real, m: real)
    requires m > 0.0 && u * m == x && v * m == y && m == x + y
    ensures u + v == 1.0
  {
    assert (u + v) * m == u * m + v * m;
    assert (u + v - 1.0) * m == 0.0;
  }

  /** A non-negative square root of a positive number is positive. */
  lemma RootPositive(n: real, q: real)
    requires n >= 0.0 && n * n == q && q > 0.0
    ensures n > 0.0
  {
    if n == 0.0 {
      assert false;
    }
  }

  /** Dividing a non-zero (a, b) by its length n gives a vector of length 1. */
  lemma NormalizedIsUnit(a: real, b: real, n: real)
    requires a * a + b * b > 0.0
    requires n > 0.0 && n * n == a * a + b * b
    ensures (a / n) * (a / n) + (b / n) * (b / n) == 1.0
  {
    assert Sq(n) == Sq(a) + Sq(b) && Sq(n) > 0.0;
    SqOfQuotient(a, n);
    SqOfQuotient(b, n);
    CancelSum(Sq(a / n), Sq(b / n), Sq(a), Sq(b), Sq(n));
    assert Sq(a / n) + Sq(b / n) == 1.0;
  }
}
