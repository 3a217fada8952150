/**
 * Axis-aligned bounding boxes (CSharpCSG/Bounds.cs). The box is a value; the
 * cube CSG it caches is modelled with the CSG operations (BoxSolids).
 */
module Boxes {
  import opened Vectors
  import opened Wrappers
  import Vertices

  /** center and extent are derived from min and max when the box is made. */
  datatype Bounds = Bounds(center: Vec3, extent: Vec3, min: Vec3, max: Vec3)

  /** The constructor: center (min + max) / 2 and extent |max - min| per axis. */
  function New(min: Vec3, max: Vec3): (b: Bounds)
    ensures b.min == min && b.max == max
    ensures Plus(b.center, b.center) == Plus(min, max)
    ensures b.extent.x >= 0.0 && b.extent.y >= 0.0 && b.extent.z >= 0.0
    ensures min.x <= max.x ==> b.extent.x == max.x - min.x
    ensures min.y <= max.y ==> b.extent.y == max.y - min.y
    ensures min.z <= max.z ==> b.extent.z == max.z - min.z
  {
    Bounds(Vec3((max.x + min.x) / 2.0, (max.y + min.y) / 2.0, (max.z + min.z) / 2.0),
           Vec3(Abs(max.x - min.x), Abs(max.y - min.y), Abs(max.z - min.z)),
           min, max)
  }

  /** clone is a box with the same corners, hence the same center and extent. */
  function Clone(b: Bounds): (c: Bounds)
    ensures c.min == b.min && c.max == b.max
    ensures b == New(b.min, b.max) ==> c == b
  {
    New(b.min, b.max)
  }

  /** contains(point): every coordinate lies in the closed interval [min, max]. */
  predicate ContainsPoint(b: Bounds, v: Vec3)
  {
    && b.min.x <= v.x <= b.max.x
    && b.min.y <= v.y <= b.max.y
    && b.min.z <= v.z <= b.max.z
  }

  /** contains(vertex) looks at the vertex's position only. */
  predicate ContainsVertex(b: Bounds, v: Vertices.Vertex)
  {
    ContainsPoint(b, v.pos)
  }

  /** intersects(Bounds): false as soon as the intervals are disjoint on one axis. */
  predicate Intersects(a: Bounds, b: Bounds)
  {
    if b.min.x > a.max.x || b.max.x < a.min.x then false
    else if b.min.y > a.max.y || b.max.y < a.min.y then false
    else if b.min.z > a.max.z || b.max.z < a.min.z then false
    else true
  }

  /** intersects(Polygon) is not implemented: it throws for every polygon. */
  function IntersectsPolygon<P>(b: Bounds, p: P): (r: Result<bool>)
    ensures r == Failure(NotSupported)
  {
    Failure(NotSupported)
  }

  /** Both corners lie in the box when min <= max on every axis. */
  predicate Proper(b: Bounds)
  {
    b.min.x <= b.max.x && b.min.y <= b.max.y && b.min.z <= b.max.z
  }

  /** Two boxes intersect exactly when some point lies in both; so intersects is
      symmetric, and reflexive for a box with min <= max. */
  lemma IntersectsMeansCommonPoint(a: Bounds, b: Bounds)
    requires Proper(a) && Proper(b)
    ensures Intersects(a, b) <==> exists v :: ContainsPoint(a, v) && ContainsPoint(b, v)
    ensures Intersects(a, b) == Intersects(b, a)
    ensures Intersects(a, a)
  {
    if Intersects(a, b) {
      var v := Vec3(Max(a.min.x, b.min.x), Max(a.min.y, b.min.y), Max(a.min.z, b.min.z));
      assert ContainsPoint(a, v) && ContainsPoint(b, v);
    }
    if exists v :: ContainsPoint(a, v) && ContainsPoint(b, v) {
      var v :| ContainsPoint(a, v) && ContainsPoint(b, v);
      assert Intersects(a, b);
    }
  }

  function Max(a: real, b: real): real { if a < b then b else a }

  /** A box contains its own corners when min <= max, and a point lies in the box made
      from two corners exactly when it lies between them. */
  lemma ContainsCorners(min: Vec3, max: Vec3)
    requires min.x <= max.x && min.y <= max.y && min.z <= max.z
    ensures ContainsPoint(New(min, max), min) && ContainsPoint(New(min, max), max)
    ensures ContainsPoint(New(min, max), New(min, max).center)
  {
  }
}
