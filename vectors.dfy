/**
 * Three-dimensional vectors over the reals, standing for the external vector
 * library's IVector3d. Dot, cross, lerp and the arithmetic are exact. The
 * library's `normalized` divides by the magnitude, a square root: the reciprocal
 * of the magnitude is a parameter of the operations that normalize (see Recip).
 */
module Vectors {

  datatype Vec3 = Vec3(x: real, y: real, z: real)

  const Zero := Vec3(0.0, 0.0, 0.0)

  /** One over the magnitude of a vector, which needs a square root. The callers pass
      it in; properties that need its value require ExactRecip. */
  type Recip = Vec3 -> real

  /** recip(v) is the positive number whose square times |v|² is one, for every
      non-zero v. */
  ghost predicate ExactRecip(recip: Recip)
  {
    forall v: Vec3 {:trigger recip(v)} :: v != Zero ==> recip(v) > 0.0 && recip(v) * recip(v) * Dot(v, v) == 1.0
  }

  /** The library's `normalized`: v scaled by one over its magnitude. The library
      divides the zero vector by zero; here it stays the zero vector. */
  function Normalized(v: Vec3, recip: Recip): Vec3 { Times(v, recip(v)) }

  function Plus(a: Vec3, b: Vec3): Vec3 { Vec3(a.x + b.x, a.y + b.y, a.z + b.z) }

  function Minus(a: Vec3, b: Vec3): Vec3 { Vec3(a.x - b.x, a.y - b.y, a.z - b.z) }

  function Times(a: Vec3, s: real): Vec3 { Vec3(a.x * s, a.y * s, a.z * s) }

  function Negated(a: Vec3): Vec3 { Vec3(-a.x, -a.y, -a.z) }

  function Dot(a: Vec3, b: Vec3): real { a.x * b.x + a.y * b.y + a.z * b.z }

  function Cross(a: Vec3, b: Vec3): Vec3
  {
    Vec3(a.y * b.z - a.z * b.y, a.z * b.x - a.x * b.z, a.x * b.y - a.y * b.x)
  }

  /** Linear interpolation a + (b - a)·t. */
  function Lerp(a: Vec3, b: Vec3, t: real): Vec3 { Plus(a, Times(Minus(b, a), t)) }

  function Abs(r: real): real { if r < 0.0 then -r else r }

  /** Only the zero vector normalizes to the zero vector. */
  lemma NormalizedZero(v: Vec3, recip: Recip)
    requires ExactRecip(recip)
    ensures Normalized(v, recip) == Zero <==> v == Zero
  {
    if v != Zero {
      assert recip(v) > 0.0;
    }
  }

  /** A vector of length one normalizes to itself. */
  lemma NormalizedUnit(v: Vec3, recip: Recip)
    requires ExactRecip(recip)
    requires Dot(v, v) == 1.0
    ensures Normalized(v, recip) == v
  {
    assert v != Zero;
    var k := recip(v);
    assert k > 0.0 && k * k == 1.0;
    assert (k - 1.0) * (k + 1.0) == k * k - 1.0;
  }

  /** The reciprocal magnitude of a unit vector is one. */
  lemma RecipOfUnit(v: Vec3, recip: Recip)
    requires ExactRecip(recip)
    requires Dot(v, v) == 1.0
    ensures recip(v) == 1.0
  {
    NormalizedUnit(v, recip);
    assert v.x * recip(v) == v.x && v.y * recip(v) == v.y && v.z * recip(v) == v.z;
    assert v != Zero;
  }

  /** A normalized non-zero vector has length one. */
  lemma NormalizedIsUnit(v: Vec3, recip: Recip)
    requires ExactRecip(recip) && v != Zero
    ensures Dot(Normalized(v, recip), Normalized(v, recip)) == 1.0
  {
    var k := recip(v);
    DotTimes(v, k, Normalized(v, recip));
    DotTimes(v, k, v);
    assert Dot(v, Normalized(v, recip)) == Dot(Normalized(v, recip), v);
  }

  lemma DotTimes(v: Vec3, k: real, w: Vec3)
    ensures Dot(Times(v, k), w) == k * Dot(v, w)
  {
  }

  lemma DotMinus(n: Vec3, b: Vec3, a: Vec3)
    ensures Dot(n, Minus(b, a)) == Dot(n, b) - Dot(n, a)
  {
  }

  /** The cross product is orthogonal to both factors. */
  lemma CrossOrthogonal(u: Vec3, w: Vec3)
    ensures Dot(Cross(u, w), u) == 0.0 && Dot(Cross(u, w), w) == 0.0
  {
  }

  lemma NegatedTwice(a: Vec3)
    ensures Negated(Negated(a)) == a
  {
  }

  lemma DotNegated(a: Vec3, b: Vec3)
    ensures Dot(a, Negated(b)) == -Dot(a, b)
  {
  }

  /** Interpolation reaches its two ends at t = 0 and t = 1. */
  lemma LerpEnds(a: Vec3, b: Vec3)
    ensures Lerp(a, b, 0.0) == a && Lerp(a, b, 1.0) == b
  {
  }

  /** The dot product with an interpolated point is the interpolated dot product. */
  lemma DotLerp(n: Vec3, a: Vec3, b: Vec3, t: real)
    ensures Dot(n, Lerp(a, b, t)) == Dot(n, a) + t * Dot(n, Minus(b, a))
  {
    calc {
      Dot(n, Lerp(a, b, t));
      n.x * (a.x + (b.x - a.x) * t) + n.y * (a.y + (b.y - a.y) * t) + n.z * (a.z + (b.z - a.z) * t);
      { assert n.x * ((b.x - a.x) * t) == t * (n.x * (b.x - a.x));
        assert n.y * ((b.y - a.y) * t) == t * (n.y * (b.y - a.y));
        assert n.z * ((b.z - a.z) * t) == t * (n.z * (b.z - a.z)); }
      Dot(n, a) + t * Dot(n, Minus(b, a));
    }
  }
}
