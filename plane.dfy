/**
 * The splitting plane of the BSP engine (CSharpCSG/Plane.cs): a normal and the
 * distance from the origin, normal·p = dist. Plane objects are values here:
 * `flip`, which negates both fields in place, returns the flipped plane.
 */
module Planes {
  import opened Vectors

  datatype Plane = Plane(normal: Vec3, dist: real)

  /** The tolerance for deciding that a point lies on a plane, 1e-8. */
  const Epsilon: real := 0.00000001

  /** The constructor normalizes the normal it is given. */
  function New(normal: Vec3, dist: real, recip: Recip): Plane
  {
    Plane(Normalized(normal, recip), dist)
  }

  /** The plane through three points: the normalized (b - a) × (c - a), and a's
      distance along it. The constructor normalizes that normal once more. */
  function CreateFromPoints(a: Vec3, b: Vec3, c: Vec3, recip: Recip): Plane
  {
    var n := Normalized(Cross(Minus(b, a), Minus(c, a)), recip);
    New(n, Dot(n, a), recip)
  }

  /** A copy built through the constructor, which normalizes the normal again. */
  function Clone(p: Plane, recip: Recip): Plane
  {
    New(p.normal, p.dist, recip)
  }

  function Flip(p: Plane): Plane
  {
    Plane(Negated(p.normal), -p.dist)
  }

  /** flip negates the normal and the distance, so flipping twice restores the plane;
      a point's signed distance changes sign. */
  lemma FlipNegates(p: Plane, v: Vec3)
    ensures Flip(p).normal == Negated(p.normal) && Flip(p).dist == -p.dist
    ensures Flip(Flip(p)) == p
    ensures Dot(Flip(p).normal, v) - Flip(p).dist == -(Dot(p.normal, v) - p.dist)
  {
  }

  /** With an exact square root, the plane through three points has a unit normal when
      the points are not collinear, passes through all three, and its normal is the zero
      vector exactly when they are collinear. Cloning it changes nothing. */
  lemma CreateFromPointsContainsPoints(a: Vec3, b: Vec3, c: Vec3, recip: Recip)
    requires ExactRecip(recip)
    ensures var p := CreateFromPoints(a, b, c, recip);
      && (p.normal == Zero <==> Cross(Minus(b, a), Minus(c, a)) == Zero)
      && (p.normal != Zero ==> Dot(p.normal, p.normal) == 1.0)
      && Dot(p.normal, a) == p.dist
      && Dot(p.normal, b) == p.dist
      && Dot(p.normal, c) == p.dist
      && Clone(p, recip) == p
  {
    var u, w := Minus(b, a), Minus(c, a);
    var cr := Cross(u, w);
    var n := Normalized(cr, recip);
    NormalizedZero(cr, recip);
    if cr == Zero {
      assert n == Zero;
      assert Normalized(n, recip) == Zero;
    } else {
      NormalizedIsUnit(cr, recip);
      NormalizedUnit(n, recip);
      CrossOrthogonal(u, w);
      DotTimes(cr, recip(cr), u);
      DotTimes(cr, recip(cr), w);
      DotMinus(n, b, a);
      DotMinus(n, c, a);
    }
  }

  /** The classes of a point against a plane, two bits: FRONT is bit 0, BACK bit 1. */
  type Kind = k: int | 0 <= k <= 3
  const Coplanar: Kind := 0
  const Front: Kind := 1
  const Back: Kind := 2
  const Spanning: Kind := 3

  /** Bit 0 of a class: some point is in front. */
  predicate HasFront(k: Kind) { k == Front || k == Spanning }

  /** Bit 1 of a class: some point is behind. */
  predicate HasBack(k: Kind) { k == Back || k == Spanning }

  /** Bitwise or of two classes. */
  function Or(a: Kind, b: Kind): (r: Kind)
    ensures HasFront(r) <==> HasFront(a) || HasFront(b)
    ensures HasBack(r) <==> HasBack(a) || HasBack(b)
  {
    if a == b || b == Coplanar then a else if a == Coplanar then b else Spanning
  }

  /** A class is determined by its two bits. */
  lemma KindByBits(a: Kind, b: Kind)
    requires HasFront(a) == HasFront(b) && HasBack(a) == HasBack(b)
    ensures a == b
  {
  }

  /** Or agrees with the integer bitwise or on two-bit values: bit by bit, the larger. */
  lemma OrIsBitwise(a: Kind, b: Kind)
    ensures Or(a, b) == (if a % 2 < b % 2 then b % 2 else a % 2) + 2 * (if a / 2 < b / 2 then b / 2 else a / 2)
  {
  }

  /** A point is BACK when its signed distance is below -Epsilon, FRONT when above
      Epsilon, COPLANAR otherwise. */
  function Classify(p: Plane, v: Vec3): (k: Kind)
    ensures k == Back <==> Dot(p.normal, v) - p.dist < -Epsilon
    ensures k == Front <==> Dot(p.normal, v) - p.dist > Epsilon
    ensures k == Coplanar <==> -Epsilon <= Dot(p.normal, v) - p.dist <= Epsilon
    ensures k != Spanning
  {
    var t := Dot(p.normal, v) - p.dist;
    if t < -Epsilon then Back else if t > Epsilon then Front else Coplanar
  }

  /** A point exactly on the plane is COPLANAR. */
  lemma OnPlaneIsCoplanar(p: Plane, v: Vec3)
    requires Dot(p.normal, v) == p.dist
    ensures Classify(p, v) == Coplanar
  {
  }

  /** Flipping the plane swaps FRONT and BACK and keeps COPLANAR. */
  lemma ClassifyFlipped(p: Plane, v: Vec3)
    ensures Classify(Flip(p), v) == (if Classify(p, v) == Front then Back
                                     else if Classify(p, v) == Back then Front else Coplanar)
  {
    FlipNegates(p, v);
  }
}
