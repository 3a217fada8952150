/**
 * Convex polygons (CSharpCSG/Polygon.cs). A polygon object is a value with an
 * explicit reference number `ref` standing for its identity: a clone or a new
 * polygon gets a number no other polygon has, and an in-place `flip` keeps it.
 * The shared property storage is a real object, shared by reference.
 */
module Polygons {
  import opened Vectors
  import opened Wrappers
  import opened Vertices
  import Planes
  import Boxes
  import opened Storage

  /** The vector library's plane that getPlane returns: a point and a normal. */
  datatype Surface = Surface(anchor: Vec3, normal: Vec3)

  datatype Polygon = Polygon(
    ref: nat,
    vertices: seq<Vertex>,
    plane: Planes.Plane,
    surface: Surface,
    storage: PropertyStorage,
    valid: bool)

  /** The index after i among n, wrapping round: (i + 1) mod n. */
  function Following(i: nat, n: nat): (j: nat)
    requires i < n
    ensures j < n && j == (i + 1) % n
  {
    if i + 1 < n then i + 1 else 0
  }

  function Positions(vs: seq<Vertex>): (ps: seq<Vec3>)
    ensures |ps| == |vs| && forall i :: 0 <= i < |vs| ==> ps[i] == vs[i].pos
  {
    seq(|vs|, i requires 0 <= i < |vs| => vs[i].pos)
  }

  /** The storages the polygons hold, each once. */
  function StoragesOf(ps: seq<Polygon>): set<PropertyStorage>
  {
    set i | 0 <= i < |ps| :: ps[i].storage
  }

  function Sum(ps: seq<Vec3>): Vec3
  {
    if ps == [] then Zero else Plus(Sum(ps[..|ps| - 1]), ps[|ps| - 1])
  }

  /** The centroid: the sum of the positions over their number. */
  function Centroid(vs: seq<Vertex>): Vec3
    requires |vs| > 0
  {
    Times(Sum(Positions(vs)), 1.0 / (|vs| as real))
  }

  /** The centroid of a polygon whose vertices all sit at one point is that point. */
  lemma CentroidOfOnePoint(vs: seq<Vertex>, c: Vec3)
    requires |vs| > 0
    requires forall i :: 0 <= i < |vs| ==> vs[i].pos == c
    ensures Centroid(vs) == c
  {
    SumOfCopies(Positions(vs), c);
    var n := |vs| as real;
    assert Sum(Positions(vs)) == Times(c, n);
    assert c.x * n * (1.0 / n) == c.x;
    assert c.y * n * (1.0 / n) == c.y;
    assert c.z * n * (1.0 / n) == c.z;
  }

  lemma {:induction false} SumOfCopies(ps: seq<Vec3>, c: Vec3)
    requires forall i :: 0 <= i < |ps| ==> ps[i] == c
    ensures Sum(ps) == Times(c, |ps| as real)
  {
    if ps != [] {
      SumOfCopies(ps[..|ps| - 1], c);
    }
  }

  /** Every vertex with its normal replaced by n. */
  function WithNormal(vs: seq<Vertex>, n: Vec3): (ws: seq<Vertex>)
    ensures |ws| == |vs|
    ensures forall i :: 0 <= i < |vs| ==> ws[i] == vs[i].(normal := n)
  {
    seq(|vs|, i requires 0 <= i < |vs| => vs[i].(normal := n))
  }

  /** The constructor on at least three vertices: the plane through the first three
      positions, the library plane through the centroid, every vertex's normal set to
      the plane's normal, and the polygon marked invalid when that normal is zero. */
  function Make(ref: nat, vs: seq<Vertex>, storage: PropertyStorage, recip: Recip): Polygon
    requires |vs| >= 3
  {
    var plane := Planes.CreateFromPoints(vs[0].pos, vs[1].pos, vs[2].pos, recip);
    Polygon(ref, WithNormal(vs, plane.normal), plane, Surface(Centroid(vs), plane.normal),
            storage, plane.normal != Zero)
  }

  /** The constructor: with fewer than three vertices, reading the third vertex throws. */
  function New(ref: nat, vs: seq<Vertex>, storage: PropertyStorage, recip: Recip): (r: Result<Polygon>)
    ensures r.Success? <==> |vs| >= 3
    ensures r.Failure? ==> r.error == IndexOutOfRange
    ensures r.Success? ==> var p := r.value;
      && p.ref == ref && p.storage == storage && Positions(p.vertices) == Positions(vs)
      && p.plane == Planes.CreateFromPoints(vs[0].pos, vs[1].pos, vs[2].pos, recip)
      && (forall i :: 0 <= i < |vs| ==> p.vertices[i].normal == p.plane.normal && p.vertices[i].weight == vs[i].weight)
      && p.surface.normal == p.plane.normal
      && (p.valid <==> p.plane.normal != Zero)
  {
    if |vs| < 3 then Failure(IndexOutOfRange) else Success(Make(ref, vs, storage, recip))
  }

  /** Every vertex list has the three vertices the constructor needs. */
  predicate Constructible(vss: seq<seq<Vertex>>)
  {
    forall k :: 0 <= k < |vss| ==> |vss[k]| >= 3
  }

  /** The constructor on each vertex list in turn, with consecutive references from
      next: what a generator's loop collects. */
  function MakeAll(vss: seq<seq<Vertex>>, storage: PropertyStorage, next: nat, recip: Recip): (ps: seq<Polygon>)
    requires Constructible(vss)
    ensures |ps| == |vss|
  {
    seq(|vss|, k requires 0 <= k < |vss| => Make(next + k, vss[k], storage, recip))
  }

  /** Constructing two runs of lists one after the other is constructing their
      concatenation. */
  lemma MakeAllAppend(a: seq<seq<Vertex>>, b: seq<seq<Vertex>>, storage: PropertyStorage, next: nat, recip: Recip)
    requires Constructible(a) && Constructible(b)
    ensures Constructible(a + b)
    ensures MakeAll(a + b, storage, next, recip) == MakeAll(a, storage, next, recip) + MakeAll(b, storage, next + |a|, recip)
  {
    assert Constructible(a + b) by {
      forall k | 0 <= k < |a + b| ensures |(a + b)[k]| >= 3 {
        if k >= |a| {
          assert (a + b)[k] == b[k - |a|];
        }
      }
    }
    var l := MakeAll(a + b, storage, next, recip);
    var m := MakeAll(a, storage, next, recip) + MakeAll(b, storage, next + |a|, recip);
    forall k | 0 <= k < |l| ensures l[k] == m[k] {
      if k < |a| {
        assert (a + b)[k] == a[k];
      } else {
        assert (a + b)[k] == b[k - |a|];
      }
    }
  }

  /** Constructing one more list appends its polygon, under the next reference. */
  lemma MakeAllSnoc(a: seq<seq<Vertex>>, vs: seq<Vertex>, storage: PropertyStorage, next: nat, recip: Recip)
    requires Constructible(a) && |vs| >= 3
    ensures Constructible(a + [vs])
    ensures MakeAll(a + [vs], storage, next, recip) == MakeAll(a, storage, next, recip) + [Make(next + |a|, vs, storage, recip)]
  {
    MakeAllAppend(a, [vs], storage, next, recip);
    assert MakeAll([vs], storage, next + |a|, recip) == [Make(next + |a|, vs, storage, recip)];
  }

  /** MakeAll gives, list by list, what the constructor makes of each list. */
  lemma MakeAllOfNew(vss: seq<seq<Vertex>>, ps: seq<Polygon>, storage: PropertyStorage, next: nat, recip: Recip)
    requires |ps| == |vss|
    requires forall k :: 0 <= k < |vss| ==> New(next + k, vss[k], storage, recip) == Success(ps[k])
    ensures Constructible(vss) && MakeAll(vss, storage, next, recip) == ps
  {
  }

  /** Polygon k of MakeAll has the storage, reference next + k and the positions of
      vertex list k. */
  lemma MakeAllShape(vss: seq<seq<Vertex>>, storage: PropertyStorage, next: nat, recip: Recip, k: nat)
    requires Constructible(vss) && k < |vss|
    ensures var p := MakeAll(vss, storage, next, recip)[k];
      p.storage == storage && p.ref == next + k && Positions(p.vertices) == Positions(vss[k])
  {
    assert New(next + k, vss[k], storage, recip) == Success(MakeAll(vss, storage, next, recip)[k]);
  }

  /** With an exact square root, a polygon is invalid exactly when its first three
      positions are collinear. */
  lemma InvalidIffCollinear(ref: nat, vs: seq<Vertex>, storage: PropertyStorage, recip: Recip)
    requires |vs| >= 3 && ExactRecip(recip)
    ensures !Make(ref, vs, storage, recip).valid <==> Cross(Minus(vs[1].pos, vs[0].pos), Minus(vs[2].pos, vs[0].pos)) == Zero
  {
    Planes.CreateFromPointsContainsPoints(vs[0].pos, vs[1].pos, vs[2].pos, recip);
  }

  /** fromPoints: a vertex per point, with the default weight, then the constructor. */
  function FromPoints(ref: nat, points: seq<Vec3>, storage: PropertyStorage, recip: Recip): (r: Result<Polygon>)
    ensures r.Success? <==> |points| >= 3
    ensures r.Success? ==> Positions(r.value.vertices) == points && r.value.storage == storage && r.value.ref == ref
    ensures r.Success? ==> forall i :: 0 <= i < |points| ==> r.value.vertices[i].weight == DefaultWeight
    ensures r.Success? ==> r.value.plane == Planes.CreateFromPoints(points[0], points[1], points[2], recip)
    ensures r.Success? ==> r.value.surface.normal == r.value.plane.normal
    ensures r.Success? ==> (r.value.valid <==> r.value.plane.normal != Zero)
  {
    if |points| < 3 then Failure(IndexOutOfRange)
    else
      var n := Planes.CreateFromPoints(points[0], points[1], points[2], recip).normal;
      New(ref, seq(|points|, i requires 0 <= i < |points| => Vertices.New(points[i], n)), storage, recip)
  }

  function IsValid(p: Polygon): bool { p.valid }

  function GetStorage(p: Polygon): PropertyStorage { p.storage }

  /** clone: copies of the vertices through the constructor, sharing the storage. */
  function Clone(p: Polygon, ref: nat, recip: Recip): Polygon
    requires |p.vertices| >= 3
  {
    Make(ref, seq(|p.vertices| , i requires 0 <= i < |p.vertices| => Vertices.Clone(p.vertices[i])), GetStorage(p), recip)
  }

  /** The constructor looks at positions and weights only: the normals it is given are
      overwritten. */
  lemma MakeIgnoresNormals(ref: nat, vs: seq<Vertex>, ws: seq<Vertex>, storage: PropertyStorage, recip: Recip)
    requires |vs| == |ws| >= 3
    requires forall i :: 0 <= i < |vs| ==> vs[i].pos == ws[i].pos && vs[i].weight == ws[i].weight
    ensures Make(ref, vs, storage, recip) == Make(ref, ws, storage, recip)
  {
    assert Positions(vs) == Positions(ws);
    var n := Planes.CreateFromPoints(vs[0].pos, vs[1].pos, vs[2].pos, recip).normal;
    assert WithNormal(vs, n) == WithNormal(ws, n);
  }

  /** A clone has the new reference, the same storage object and the same positions,
      and cloning a polygon the constructor made gives the same polygon under the new
      reference. */
  lemma CloneShares(p: Polygon, ref: nat, recip: Recip)
    requires |p.vertices| >= 3
    ensures Clone(p, ref, recip).ref == ref && Clone(p, ref, recip).storage == p.storage
    ensures Positions(Clone(p, ref, recip).vertices) == Positions(p.vertices)
    ensures forall r0: nat, vs: seq<Vertex> | |vs| >= 3 && p == Make(r0, vs, p.storage, recip) ::
      Clone(p, ref, recip) == Make(ref, vs, p.storage, recip)
  {
    var copies := seq(|p.vertices| , i requires 0 <= i < |p.vertices| => Vertices.Clone(p.vertices[i]));
    assert copies == p.vertices;
    assert Positions(Clone(p, ref, recip).vertices) == Positions(p.vertices);
    forall r0: nat, vs: seq<Vertex> | |vs| >= 3 && p == Make(r0, vs, p.storage, recip)
      ensures Clone(p, ref, recip) == Make(ref, vs, p.storage, recip)
    {
      MakeIgnoresNormals(ref, p.vertices, vs, p.storage, recip);
    }
  }

  /** Vertex order reversed, with every vertex flipped. */
  function FlipVertices(vs: seq<Vertex>): (ws: seq<Vertex>)
    ensures |ws| == |vs|
    ensures forall i :: 0 <= i < |vs| ==> ws[i] == Vertices.Flip(vs[|vs| - 1 - i])
  {
    var flipped := seq(|vs|, i requires 0 <= i < |vs| => Vertices.Flip(vs[i]));
    seq(|flipped|, i requires 0 <= i < |flipped| => flipped[|flipped| - 1 - i])
  }

  /** flip: every vertex flipped, the order reversed, both planes flipped. The object
      keeps its identity and storage. */
  function Flip(p: Polygon): Polygon
  {
    p.(vertices := FlipVertices(p.vertices),
       plane := Planes.Flip(p.plane),
       surface := Surface(p.surface.anchor, Negated(p.surface.normal)))
  }

  /** Flipping twice restores order, normals and planes; flipping keeps identity,
      storage, validity and the set of positions (in reverse order). */
  lemma FlipTwice(p: Polygon)
    ensures Flip(Flip(p)) == p
    ensures Flip(p).ref == p.ref && Flip(p).storage == p.storage && Flip(p).valid == p.valid
    ensures |Flip(p).vertices| == |p.vertices|
    ensures forall i :: 0 <= i < |p.vertices| ==> Flip(p).vertices[i].pos == p.vertices[|p.vertices| - 1 - i].pos
  {
    var vs := p.vertices;
    var ws := FlipVertices(FlipVertices(vs));
    forall i | 0 <= i < |vs| ensures ws[i] == vs[i] {
      Vertices.FlipOnlyNegatesNormal(vs[i]);
    }
    assert ws == vs;
    Planes.FlipNegates(p.plane, Zero);
    NegatedTwice(p.surface.normal);
  }

  /** flipped: a flipped clone; the receiver is a value and stays as it was. */
  function Flipped(p: Polygon, ref: nat, recip: Recip): Polygon
    requires |p.vertices| >= 3
  {
    Flip(Clone(p, ref, recip))
  }

  /** A flipped clone has the new reference, the same storage and the positions of
      the original in reverse order. */
  lemma FlippedPositions(p: Polygon, ref: nat, recip: Recip)
    requires |p.vertices| >= 3
    ensures var q := Flipped(p, ref, recip);
      && q.ref == ref && q.storage == p.storage && |q.vertices| == |p.vertices|
      && forall k :: 0 <= k < |p.vertices| ==> q.vertices[k].pos == p.vertices[|p.vertices| - 1 - k].pos
  {
    var c := Clone(p, ref, recip);
    ClonePositions(p, ref, recip);
    var ws := FlipVertices(c.vertices);
    forall k | 0 <= k < |p.vertices| ensures ws[k].pos == p.vertices[|p.vertices| - 1 - k].pos {
      assert ws[k] == Vertices.Flip(c.vertices[|p.vertices| - 1 - k]);
    }
  }

  /** A clone has the new reference, the same storage and the same positions. */
  lemma ClonePositions(p: Polygon, ref: nat, recip: Recip)
    requires |p.vertices| >= 3
    ensures var c := Clone(p, ref, recip);
      && c.ref == ref && c.storage == p.storage && |c.vertices| == |p.vertices|
      && forall k :: 0 <= k < |p.vertices| ==> c.vertices[k].pos == p.vertices[k].pos
  {
  }

  /** When the cross product u of the two edges has a reciprocal magnitude of one, u is
      the plane's normal. */
  lemma UnitCrossIsNormal(a: Vec3, b: Vec3, c: Vec3, recip: Recip)
    requires recip(Cross(Minus(b, a), Minus(c, a))) == 1.0
    ensures Planes.CreateFromPoints(a, b, c, recip).normal == Cross(Minus(b, a), Minus(c, a))
  {
  }

  lemma CounterClockwiseCross(a: Vec3, b: Vec3, c: Vec3)
    requires a == Vec3(1.0, 1.0, 0.0) && b == Vec3(2.0, 1.0, 0.0) && c == Vec3(1.0, 2.0, 0.0)
    ensures Cross(Minus(b, a), Minus(c, a)) == Vec3(0.0, 0.0, 1.0)
  {
  }

  /** fromPoints on points whose edge cross product u has a reciprocal magnitude of one:
      the surface normal is u, and -u after flip. */
  lemma FromPointsUnitCross(pts: seq<Vec3>, storage: PropertyStorage, ref: nat, recip: Recip)
    requires |pts| >= 3
    requires recip(Cross(Minus(pts[1], pts[0]), Minus(pts[2], pts[0]))) == 1.0
    ensures FromPoints(ref, pts, storage, recip).Success?
    ensures FromPoints(ref, pts, storage, recip).value.surface.normal == Cross(Minus(pts[1], pts[0]), Minus(pts[2], pts[0]))
    ensures FromPoints(ref, pts, storage, recip).value.valid <==> Cross(Minus(pts[1], pts[0]), Minus(pts[2], pts[0])) != Zero
    ensures Flip(FromPoints(ref, pts, storage, recip).value).surface.normal
      == Negated(Cross(Minus(pts[1], pts[0]), Minus(pts[2], pts[0])))
  {
    UnitCrossIsNormal(pts[0], pts[1], pts[2], recip);
  }

  /** The counter-clockwise triangle (1,1), (2,1), (1,2) in the xy-plane has normal -z
      after flip. The only property of the square root used is that +z has
      magnitude one, which ExactRecip implies (Vectors.RecipOfUnit). */
  lemma FlipOfCounterClockwiseTriangle(pts: seq<Vec3>, storage: PropertyStorage, ref: nat, recip: Recip)
    requires recip(Vec3(0.0, 0.0, 1.0)) == 1.0
    requires |pts| == 3
    requires pts[0] == Vec3(1.0, 1.0, 0.0) && pts[1] == Vec3(2.0, 1.0, 0.0) && pts[2] == Vec3(1.0, 2.0, 0.0)
    ensures var r := FromPoints(ref, pts, storage, recip);
      r.Success? && Flip(r.value).surface.normal == Vec3(0.0, 0.0, -1.0)
  {
    CounterClockwiseTriangle(pts, storage, ref, recip);
  }

  /** The counter-clockwise triangle (1,1), (2,1), (1,2) in the xy-plane makes a valid
      polygon with normal +z. */
  lemma CounterClockwiseTriangle(pts: seq<Vec3>, storage: PropertyStorage, ref: nat, recip: Recip)
    requires recip(Vec3(0.0, 0.0, 1.0)) == 1.0
    requires |pts| == 3
    requires pts[0] == Vec3(1.0, 1.0, 0.0) && pts[1] == Vec3(2.0, 1.0, 0.0) && pts[2] == Vec3(1.0, 2.0, 0.0)
    ensures var r := FromPoints(ref, pts, storage, recip);
      r.Success? && r.value.valid && r.value.surface.normal == Vec3(0.0, 0.0, 1.0)
  {
    CounterClockwiseCross(pts[0], pts[1], pts[2]);
    FromPointsUnitCross(pts, storage, ref, recip);
  }

  /** toTriangles as positions: triangle i is (v0, v(i+1), v(i+2)); nothing for fewer
      than three vertices. */
  function Fan(ps: seq<Vec3>): (ts: seq<seq<Vec3>>)
    ensures |ps| < 3 ==> ts == []
    ensures |ps| >= 3 ==> |ts| == |ps| - 2
    ensures forall i :: 0 <= i < |ts| ==> ts[i] == [ps[0], ps[i + 1], ps[i + 2]]
  {
    if |ps| < 3 then [] else seq(|ps| - 2, i requires 0 <= i < |ps| - 2 => [ps[0], ps[i + 1], ps[i + 2]])
  }

  /** toTriangles: for each triangle of the fan, fromPoints with a new storage (whose
      random colour draw is the corresponding entry of `draws`) and a new reference. */
  method ToTriangles(p: Polygon, next: nat, draws: seq<real>, recip: Recip)
    returns (ts: seq<Polygon>, next': nat)
    requires |draws| >= |p.vertices| - 2
    requires forall i :: 0 <= i < |draws| ==> 0.0 <= draws[i] < 1.0
    ensures |ts| == |Fan(Positions(p.vertices))|
    ensures forall i :: 0 <= i < |ts| ==> Positions(ts[i].vertices) == Fan(Positions(p.vertices))[i]
    ensures forall i :: 0 <= i < |ts| ==> ts[i].ref == next + i && fresh(ts[i].storage)
    ensures forall i, j :: 0 <= i < j < |ts| ==> ts[i].storage != ts[j].storage
    ensures next' == next + |ts|
  {
    ts := [];
    next' := next;
    var n := |p.vertices|;
    ghost var fan := Fan(Positions(p.vertices));
    if n >= 3 {
      var i := 0;
      while i < n - 2
        invariant 0 <= i <= n - 2
        invariant |ts| == i && next' == next + i
        invariant forall k :: 0 <= k < i ==> Positions(ts[k].vertices) == fan[k]
        invariant forall k :: 0 <= k < i ==> ts[k].ref == next + k && fresh(ts[k].storage)
        invariant forall k, l :: 0 <= k < l < i ==> ts[k].storage != ts[l].storage
      {
        var t := FanTriangle(p, i, next', draws[i], recip);
        ts := ts + [t];
        next' := next' + 1;
        i := i + 1;
      }
    }
  }

  /** Triangle i of the fan, as a polygon with a new storage and the reference `ref`. */
  method FanTriangle(p: Polygon, i: nat, ref: nat, draw: real, recip: Recip) returns (t: Polygon)
    requires i + 2 < |p.vertices|
    requires 0.0 <= draw < 1.0
    ensures Positions(t.vertices) == Fan(Positions(p.vertices))[i]
    ensures t.ref == ref && fresh(t.storage)
  {
    var s := new PropertyStorage(draw);
    var r := FromPoints(ref, [p.vertices[0].pos, p.vertices[i + 1].pos, p.vertices[i + 2].pos], s, recip);
    t := r.value;
  }

  /** One STL facet: the plane normal and three vertices. */
  datatype Facet = Facet(normal: Vec3, a: Vertex, b: Vertex, c: Vertex)

  /** toStlString's structure: n - 2 facets, each starting with the first vertex and
      carrying the polygon's plane normal; none for fewer than three vertices. */
  function StlFacets(p: Polygon): (fs: seq<Facet>)
    ensures |p.vertices| < 3 ==> fs == []
    ensures |p.vertices| >= 3 ==> |fs| == |p.vertices| - 2
    ensures forall i :: 0 <= i < |fs| ==>
      fs[i] == Facet(p.plane.normal, p.vertices[0], p.vertices[i + 1], p.vertices[i + 2])
  {
    var vs := p.vertices;
    if |vs| < 3 then []
    else seq(|vs| - 2, i requires 0 <= i < |vs| - 2 => Facet(p.plane.normal, vs[0], vs[i + 1], vs[i + 2]))
  }

  /** The smaller of each coordinate. */
  function Lower(m: Vec3, v: Vec3): Vec3
  {
    Vec3(if v.x < m.x then v.x else m.x, if v.y < m.y then v.y else m.y, if v.z < m.z then v.z else m.z)
  }

  /** The larger of each coordinate. */
  function Upper(m: Vec3, v: Vec3): Vec3
  {
    Vec3(if v.x > m.x then v.x else m.x, if v.y > m.y then v.y else m.y, if v.z > m.z then v.z else m.z)
  }

  /** The smallest and largest coordinates over a non-empty list of points. */
  function MinCorner(ps: seq<Vec3>): (m: Vec3)
    requires |ps| > 0
    ensures forall i :: 0 <= i < |ps| ==> m.x <= ps[i].x && m.y <= ps[i].y && m.z <= ps[i].z
  {
    if |ps| == 1 then ps[0] else Lower(MinCorner(ps[..|ps| - 1]), ps[|ps| - 1])
  }

  function MaxCorner(ps: seq<Vec3>): (m: Vec3)
    requires |ps| > 0
    ensures forall i :: 0 <= i < |ps| ==> m.x >= ps[i].x && m.y >= ps[i].y && m.z >= ps[i].z
  {
    if |ps| == 1 then ps[0] else Upper(MaxCorner(ps[..|ps| - 1]), ps[|ps| - 1])
  }

  /** The corners of a longer prefix take one more point into account. */
  lemma CornersStep(ps: seq<Vec3>, i: nat)
    requires 0 < i < |ps|
    ensures MinCorner(ps[..i + 1]) == Lower(MinCorner(ps[..i]), ps[i])
    ensures MaxCorner(ps[..i + 1]) == Upper(MaxCorner(ps[..i]), ps[i])
  {
    assert ps[..i + 1][..i] == ps[..i];
  }

  /** The box of a non-empty list of points: every point is inside it. */
  function BoxOf(ps: seq<Vec3>): (b: Boxes.Bounds)
    requires |ps| > 0
    ensures forall i :: 0 <= i < |ps| ==> Boxes.ContainsPoint(b, ps[i])
    ensures Boxes.Proper(b)
  {
    Boxes.New(MinCorner(ps), MaxCorner(ps))
  }

  /** getBounds: a running minimum and maximum over the vertices. The library starts
      from plus and minus infinity, which the first vertex always replaces; the loop
      here starts from the first vertex. */
  method GetBounds(p: Polygon) returns (b: Boxes.Bounds)
    requires |p.vertices| > 0
    ensures b == BoxOf(Positions(p.vertices))
  {
    var ps := Positions(p.vertices);
    var lo, hi := p.vertices[0].pos, p.vertices[0].pos;
    var i := 1;
    while i < |p.vertices|
      invariant 1 <= i <= |p.vertices|
      invariant lo == MinCorner(ps[..i]) && hi == MaxCorner(ps[..i])
    {
      var v := p.vertices[i].pos;
      CornersStep(ps, i);
      var minX := if v.x < lo.x then v.x else lo.x;
      var minY := if v.y < lo.y then v.y else lo.y;
      var minZ := if v.z < lo.z then v.z else lo.z;
      var maxX := if v.x > hi.x then v.x else hi.x;
      var maxY := if v.y > hi.y then v.y else hi.y;
      var maxZ := if v.z > hi.z then v.z else hi.z;
      lo, hi := Vec3(minX, minY, minZ), Vec3(maxX, maxY, maxZ);
      i := i + 1;
    }
    assert ps[..i] == ps;
    b := Boxes.New(lo, hi);
  }

  /** The polygon's box as a function, for the specifications that use it. */
  function BoundsOf(p: Polygon): Boxes.Bounds
    requires |p.vertices| > 0
  {
    BoxOf(Positions(p.vertices))
  }

  /** Bounds.contains(Polygon): every vertex is in the box. */
  predicate BoundsContainsPolygon(b: Boxes.Bounds, p: Polygon)
  {
    forall i :: 0 <= i < |p.vertices| ==> Boxes.ContainsVertex(b, p.vertices[i])
  }

  /** A polygon lies in its own box. */
  lemma InOwnBounds(p: Polygon)
    requires |p.vertices| > 0
    ensures BoundsContainsPolygon(BoundsOf(p), p)
  {
  }

  /** contains(Polygon): every vertex of q passes contains(point) of p. The point test
      is floating-point geometry and is a parameter. */
  predicate ContainsPolygon(p: Polygon, q: Polygon, containsPoint: (Polygon, Vec3) -> bool)
  {
    forall i :: 0 <= i < |q.vertices| ==> containsPoint(p, q.vertices[i].pos)
  }

  /** intersects(Polygon): false when the boxes are disjoint, otherwise not implemented. */
  function Intersects(p: Polygon, q: Polygon): (r: Result<bool>)
    requires |p.vertices| > 0 && |q.vertices| > 0
    ensures !Boxes.Intersects(BoundsOf(p), BoundsOf(q)) <==> r == Success(false)
    ensures Boxes.Intersects(BoundsOf(p), BoundsOf(q)) <==> r == Failure(NotSupported)
  {
    if !Boxes.Intersects(BoundsOf(p), BoundsOf(q)) then Success(false) else Failure(NotSupported)
  }

  /** Every position moved by d; normals and weights kept. */
  function TranslateVertices(vs: seq<Vertex>, d: Vec3): (ws: seq<Vertex>)
    ensures |ws| == |vs|
    ensures forall i :: 0 <= i < |vs| ==> ws[i] == vs[i].(pos := Plus(vs[i].pos, d))
  {
    seq(|vs|, i requires 0 <= i < |vs| => vs[i].(pos := Plus(vs[i].pos, d)))
  }

  /** The BSP plane after the library's translate: the unnormalized edge cross product
      of the moved points, with the distance kept at its old value. */
  function PlaneAfterTranslateAsWritten(p: Polygon, d: Vec3): Planes.Plane
    requires |p.vertices| >= 3
  {
    var a, b, c := Plus(p.vertices[0].pos, d), Plus(p.vertices[1].pos, d), Plus(p.vertices[2].pos, d);
    Planes.Plane(Cross(Minus(b, a), Minus(c, a)), p.plane.dist)
  }

  /** translate as the library writes it: the positions move, the BSP plane becomes
      PlaneAfterTranslateAsWritten, and the library plane is rebuilt at the new centroid
      with the same normal. */
  function TranslateAsWritten(p: Polygon, d: Vec3): Polygon
    requires |p.vertices| >= 3
  {
    var vs := TranslateVertices(p.vertices, d);
    var plane := PlaneAfterTranslateAsWritten(p, d);
    p.(vertices := vs, plane := plane, surface := Surface(Centroid(vs), plane.normal))
  }

  /** A triangle (0,0,0), (1,0,0), (0,1,0) whose plane has distance zero, as the
      constructor gives it (OriginOnItsPlane), lies in its own plane, but after the
      library's translate by (0,0,1) its first vertex is classified FRONT of the plane the
      polygon then carries: the distance was not moved with the points. */
  lemma TranslateAsWrittenLeavesPlaneBehind(p: Polygon)
    requires |p.vertices| == 3 && p.plane.dist == 0.0
    requires p.vertices[0].pos == Zero && p.vertices[1].pos == Vec3(1.0, 0.0, 0.0) && p.vertices[2].pos == Vec3(0.0, 1.0, 0.0)
    ensures Planes.Classify(p.plane, p.vertices[0].pos) == Planes.Coplanar
    ensures Plus(p.vertices[0].pos, Vec3(0.0, 0.0, 1.0)) == Vec3(0.0, 0.0, 1.0)
    ensures Planes.Classify(PlaneAfterTranslateAsWritten(p, Vec3(0.0, 0.0, 1.0)), Vec3(0.0, 0.0, 1.0)) == Planes.Front
  {
    assert Dot(p.plane.normal, p.vertices[0].pos) == 0.0;
    Planes.OnPlaneIsCoplanar(p.plane, p.vertices[0].pos);
    StalePlaneAfterTranslate(p);
    UnitZFront();
  }

  lemma UnitZFront()
    ensures Planes.Classify(Planes.Plane(Vec3(0.0, 0.0, 1.0), 0.0), Vec3(0.0, 0.0, 1.0)) == Planes.Front
  {
  }

  /** The library's translate moves every position by d and leaves the polygon carrying
      PlaneAfterTranslateAsWritten. */
  lemma TranslateAsWrittenShape(p: Polygon, d: Vec3)
    requires |p.vertices| >= 3
    ensures TranslateAsWritten(p, d).plane == PlaneAfterTranslateAsWritten(p, d)
    ensures TranslateAsWritten(p, d).vertices == TranslateVertices(p.vertices, d)
    ensures TranslateAsWritten(p, d).vertices[0].pos == Plus(p.vertices[0].pos, d)
  {
  }

  lemma StalePlaneAfterTranslate(p: Polygon)
    requires |p.vertices| >= 3 && p.plane.dist == 0.0
    requires p.vertices[0].pos == Zero && p.vertices[1].pos == Vec3(1.0, 0.0, 0.0) && p.vertices[2].pos == Vec3(0.0, 1.0, 0.0)
    ensures PlaneAfterTranslateAsWritten(p, Vec3(0.0, 0.0, 1.0)) == Planes.Plane(Vec3(0.0, 0.0, 1.0), 0.0)
  {
    var a, b, c := p.vertices[0].pos, p.vertices[1].pos, p.vertices[2].pos;
    CrossOfUnitTriangle(a, b, c);
    TranslatedCrossUnchanged(a, b, c, Vec3(0.0, 0.0, 1.0));
  }

  /** The plane through three points of which the first is the origin has distance zero. */
  lemma OriginOnItsPlane(a: Vec3, b: Vec3, c: Vec3, recip: Recip)
    requires a == Zero
    ensures Planes.CreateFromPoints(a, b, c, recip).dist == 0.0
  {
  }

  lemma CrossOfUnitTriangle(a: Vec3, b: Vec3, c: Vec3)
    requires a == Zero && b == Vec3(1.0, 0.0, 0.0) && c == Vec3(0.0, 1.0, 0.0)
    ensures Cross(Minus(b, a), Minus(c, a)) == Vec3(0.0, 0.0, 1.0)
  {
  }

  /** Moving three points by the same vector keeps their edge cross product. */
  lemma TranslatedCrossUnchanged(a: Vec3, b: Vec3, c: Vec3, d: Vec3)
    ensures Cross(Minus(Plus(b, d), Plus(a, d)), Minus(Plus(c, d), Plus(a, d))) == Cross(Minus(b, a), Minus(c, a))
  {
    assert Minus(Plus(b, d), Plus(a, d)) == Minus(b, a) && Minus(Plus(c, d), Plus(a, d)) == Minus(c, a);
  }

  /** translate with the plane rebuilt from the moved points, as the constructor does. */
  function Translate(p: Polygon, d: Vec3, recip: Recip): Polygon
    requires |p.vertices| >= 3
  {
    Make(p.ref, TranslateVertices(p.vertices, d), p.storage, recip)
  }

  /** With an exact square root, translating a polygon the constructor made keeps its
      identity, storage and normal, moves every position by d, and gives a plane that
      passes through the moved first three vertices: its distance grows by n·d. */
  lemma TranslateMovesPlane(p: Polygon, d: Vec3, recip: Recip)
    requires |p.vertices| >= 3 && ExactRecip(recip)
    requires p.plane == Planes.CreateFromPoints(p.vertices[0].pos, p.vertices[1].pos, p.vertices[2].pos, recip)
    ensures var q := Translate(p, d, recip);
      && q.ref == p.ref && q.storage == p.storage && |q.vertices| == |p.vertices|
      && (forall i :: 0 <= i < |p.vertices| ==> q.vertices[i].pos == Plus(p.vertices[i].pos, d))
      && q.plane.normal == p.plane.normal
      && q.plane.dist == p.plane.dist + Dot(p.plane.normal, d)
      && Dot(q.plane.normal, q.vertices[0].pos) == q.plane.dist
      && Dot(q.plane.normal, q.vertices[1].pos) == q.plane.dist
      && Dot(q.plane.normal, q.vertices[2].pos) == q.plane.dist
  {
    var a, b, c := p.vertices[0].pos, p.vertices[1].pos, p.vertices[2].pos;
    var a', b', c' := Plus(a, d), Plus(b, d), Plus(c, d);
    assert Minus(b', a') == Minus(b, a) && Minus(c', a') == Minus(c, a);
    Planes.CreateFromPointsContainsPoints(a, b, c, recip);
    Planes.CreateFromPointsContainsPoints(a', b', c', recip);
    var n := p.plane.normal;
    assert Dot(n, a') == Dot(n, a) + Dot(n, d);
  }

  /** flipped() clones through the constructor, which rebuilds the plane and the normals
      from the positions: after it, the library's translate and the corrected one give
      the same polygon. */
  lemma FlippedForgetsTranslatePlane(c: Polygon, d: Vec3, ref: nat, recip: Recip)
    requires |c.vertices| >= 3
    ensures Flipped(TranslateAsWritten(c, d), ref, recip) == Flipped(Translate(c, d, recip), ref, recip)
  {
    var x, y := TranslateAsWritten(c, d), Translate(c, d, recip);
    var xs := seq(|x.vertices|, i requires 0 <= i < |x.vertices| => Vertices.Clone(x.vertices[i]));
    var ys := seq(|y.vertices|, i requires 0 <= i < |y.vertices| => Vertices.Clone(y.vertices[i]));
    assert Clone(x, ref, recip) == Make(ref, xs, x.storage, recip);
    assert Clone(y, ref, recip) == Make(ref, ys, y.storage, recip);
    MakeIgnoresNormals(ref, xs, ys, c.storage, recip);
  }
}
