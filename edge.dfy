/**
 * Edges of polygons (CSharpCSG/Edge.cs): an edge is a pair of vertices with the
 * direction from the first to the second. Edge lists are walked back into boundary
 * paths, and boundary paths nested inside one another are sorted into outlines and
 * holes. Whether a point lies on an edge and whether one polygon contains another
 * are floating-point geometry and are parameters here.
 */
module Edges {
  import opened Vectors
  import opened Wrappers
  import Vertices
  import opened Polygons
  import opened Storage
  import Planes
  import opened BspTrees

  type Vertex = Vertices.Vertex

  datatype Edge = Edge(p1: Vertex, p2: Vertex, direction: Vec3)

  /** The constructor: the direction is p2 - p1, normalized. */
  function NewEdge(p1: Vertex, p2: Vertex, recip: Recip): (e: Edge)
    ensures e.p1 == p1 && e.p2 == p2
  {
    Edge(p1, p2, Normalized(Minus(p2.pos, p1.pos), recip))
  }

  // ---- edges of a polygon and back ----------------------------------------------------

  /** The n edges of a polygon with n vertices: edge i runs from vertex i to vertex
      (i + 1) mod n. */
  function EdgesOf(vs: seq<Vertex>, recip: Recip): (es: seq<Edge>)
    ensures |es| == |vs|
  {
    seq(|vs|, i requires 0 <= i < |vs| => NewEdge(vs[i], vs[Following(i, |vs|)], recip))
  }

  /** fromPolygon: one edge per vertex, appended in order. */
  method FromPolygon(poly: Polygon, recip: Recip) returns (edges: seq<Edge>)
    ensures edges == EdgesOf(poly.vertices, recip)
  {
    var vs := poly.vertices;
    edges := [];
    var i := 0;
    while i < |vs|
      invariant 0 <= i <= |vs| && |edges| == i
      invariant forall k :: 0 <= k < i ==> edges[k] == NewEdge(vs[k], vs[Following(k, |vs|)], recip)
    {
      edges := edges + [NewEdge(vs[i], vs[Following(i, |vs|)], recip)];
      i := i + 1;
    }
  }

  /** toVertices: the first vertex of each edge, in order. */
  function ToVertices(edges: seq<Edge>): (vs: seq<Vertex>)
    ensures |vs| == |edges| && forall i :: 0 <= i < |edges| ==> vs[i] == edges[i].p1
  {
    seq(|edges|, i requires 0 <= i < |edges| => edges[i].p1)
  }

  /** toPoints: the position of the first vertex of each edge, in order. */
  function ToPoints(edges: seq<Edge>): (ps: seq<Vec3>)
    ensures ps == Positions(ToVertices(edges))
  {
    seq(|edges|, i requires 0 <= i < |edges| => edges[i].p1.pos)
  }

  /** The edges of a polygon form a closed chain: each edge ends where the next one
      starts, the last ends where the first starts, and their first vertices are the
      polygon's vertices again. */
  lemma EdgesOfPolygonAreClosed(vs: seq<Vertex>, recip: Recip)
    ensures ToVertices(EdgesOf(vs, recip)) == vs
    ensures ToPoints(EdgesOf(vs, recip)) == Positions(vs)
    ensures forall i :: 0 <= i < |vs| ==> EdgesOf(vs, recip)[i].p2 == EdgesOf(vs, recip)[Following(i, |vs|)].p1
  {
    var es := EdgesOf(vs, recip);
    assert ToVertices(es) == vs;
  }

  // ---- equality and hash code ---------------------------------------------------------

  /** Equals(Edge) as written: e's first vertex equals one of this edge's vertices, and
      e's second vertex equals one of them. Vertices compare by position. */
  predicate EqualsAsWritten(a: Edge, e: Edge)
  {
    && (Vertices.Equals(a.p1, e.p1) || Vertices.Equals(a.p2, e.p1))
    && (Vertices.Equals(a.p2, e.p2) || Vertices.Equals(a.p1, e.p2))
  }

  /** Edge equality as intended: the same two end points, in either order. */
  predicate EdgeEquals(a: Edge, e: Edge)
  {
    || (Vertices.Equals(a.p1, e.p1) && Vertices.Equals(a.p2, e.p2))
    || (Vertices.Equals(a.p1, e.p2) && Vertices.Equals(a.p2, e.p1))
  }

  /** As written, Equals is not symmetric once an edge starts and ends at one point: the
      edge from a to b equals the edge from a to a, but not the other way round. */
  lemma EqualsAsWrittenNotSymmetric(a: Vertex, b: Vertex, d: Vec3)
    requires a.pos != b.pos
    ensures EqualsAsWritten(Edge(a, b, d), Edge(a, a, d))
    ensures !EqualsAsWritten(Edge(a, a, d), Edge(a, b, d))
  {
  }

  /** Edge equality is an equivalence that identifies an edge with its reverse. */
  lemma EdgeEqualsIsEquivalence(a: Edge, b: Edge, c: Edge)
    ensures EdgeEquals(a, a)
    ensures EdgeEquals(a, b) ==> EdgeEquals(b, a)
    ensures EdgeEquals(a, b) && EdgeEquals(b, c) ==> EdgeEquals(a, c)
    ensures forall d :: EdgeEquals(a, Edge(a.p2, a.p1, d))
  {
  }

  /** On edges whose two end points differ, Equals as written is edge equality. */
  lemma EqualsAsWrittenOnProperEdges(a: Edge, e: Edge)
    requires a.p1.pos != a.p2.pos && e.p1.pos != e.p2.pos
    ensures EqualsAsWritten(a, e) <==> EdgeEquals(a, e)
  {
  }

  /** GetHashCode as written: 71 * (71 * 7 + hash(p1)) + hash(p2), in wrapping 32-bit
      arithmetic. The position hash is the vector library's and a parameter. */
  function HashCode(e: Edge, posHash: Vec3 -> int): int
  {
    Vertices.Wrap32(71 * Vertices.Wrap32(71 * 7 + Vertices.HashCode(e.p1, posHash)) + Vertices.HashCode(e.p2, posHash))
  }

  /** The hash code depends on the order of the end points, so an edge and its reverse,
      which are equal, can hash differently. */
  lemma HashCodeOrderDependent(a: Vertex, b: Vertex, d: Vec3, d': Vec3)
    requires a.pos != b.pos
    ensures EdgeEquals(Edge(a, b, d), Edge(b, a, d')) && EqualsAsWritten(Edge(a, b, d), Edge(b, a, d'))
    ensures var h := (p: Vec3) => if p == a.pos then 0 else 1;
      HashCode(Edge(a, b, d), h) != HashCode(Edge(b, a, d'), h)
  {
    var h := (p: Vec3) => if p == a.pos then 0 else 1;
    assert Vertices.HashCode(a, h) == 371;
    assert Vertices.HashCode(b, h) == 372;
    assert HashCode(Edge(a, b, d), h) == 62000;
    assert HashCode(Edge(b, a, d'), h) == 62070;
  }

  /** A hash code that agrees with edge equality: 7 plus the end points' hashes. */
  function SymmetricHashCode(e: Edge, posHash: Vec3 -> int): int
  {
    Vertices.Wrap32(7 + Vertices.HashCode(e.p1, posHash) + Vertices.HashCode(e.p2, posHash))
  }

  /** Equal edges have equal symmetric hash codes, whatever the position hash is. */
  lemma SymmetricHashCodeAgreesWithEquals(a: Edge, e: Edge, posHash: Vec3 -> int)
    requires EdgeEquals(a, e)
    ensures SymmetricHashCode(a, posHash) == SymmetricHashCode(e, posHash)
  {
    if Vertices.Equals(a.p1, e.p1) && Vertices.Equals(a.p2, e.p2) {
      Vertices.EqualsAgreesWithHashCode(a.p1, e.p1, posHash);
      Vertices.EqualsAgreesWithHashCode(a.p2, e.p2, posHash);
    } else {
      Vertices.EqualsAgreesWithHashCode(a.p1, e.p2, posHash);
      Vertices.EqualsAgreesWithHashCode(a.p2, e.p1, posHash);
    }
  }

  // ---- unused flags -------------------------------------------------------------------

  /** nextUnused: the smallest index whose flag is false, or -1 when every flag is set. */
  method NextUnused(usage: array<bool>) returns (r: int)
    ensures -1 <= r < usage.Length
    ensures r == -1 <==> forall k :: 0 <= k < usage.Length ==> usage[k]
    ensures r >= 0 ==> !usage[r] && forall k :: 0 <= k < r ==> usage[k]
  {
    var i := 0;
    while i < usage.Length
      invariant 0 <= i <= usage.Length
      invariant forall k :: 0 <= k < i ==> usage[k]
    {
      if usage[i] == false {
        return i;
      }
      i := i + 1;
    }
    return -1;
  }

  // ---- the boundary walk of toPolygons -------------------------------------------------

  /** The first index from k on whose edge satisfies p, as Where(p).First() and IndexOf
      find it. */
  function FirstWhere(edges: seq<Edge>, p: Edge -> bool, k: nat): (r: Option<nat>)
    requires k <= |edges|
    ensures r.Some? ==> k <= r.value < |edges| && p(edges[r.value])
    ensures r.Some? ==> forall j :: k <= j < r.value ==> !p(edges[j])
    ensures r.None? ==> forall j :: k <= j < |edges| ==> !p(edges[j])
    decreases |edges| - k
  {
    if k == |edges| then None
    else if p(edges[k]) then Some(k)
    else FirstWhere(edges, p, k + 1)
  }

  /** The step of the walk from edge i: the first edge that starts where edge i ends,
      then the index IndexOf gives for it, the first list element whose Equals, as
      written, accepts it. With no edge starting there, First() throws. */
  function NextEdge(edges: seq<Edge>, i: nat): (r: Result<nat>)
    requires i < |edges|
    ensures r.Failure? <==> forall j :: 0 <= j < |edges| ==> edges[j].p1.pos != edges[i].p2.pos
    ensures r.Failure? ==> r.error == InvalidOperation
    ensures r.Success? ==> r.value < |edges|
  {
    match FirstWhere(edges, (e: Edge) => Vertices.Equals(edges[i].p2, e.p1), 0)
    case None => Failure(InvalidOperation)
    case Some(m) =>
      var same := (e: Edge) => EqualsAsWritten(e, edges[m]);
      assert same(edges[m]);
      Success(FirstWhere(edges, same, 0).value)
  }

  /** Two tests that agree on every edge from k on find the same edge. */
  lemma {:induction false} FirstWhereAgrees(edges: seq<Edge>, p: Edge -> bool, q: Edge -> bool, k: nat)
    requires k <= |edges|
    requires forall j :: k <= j < |edges| ==> p(edges[j]) == q(edges[j])
    ensures FirstWhere(edges, p, k) == FirstWhere(edges, q, k)
    decreases |edges| - k
  {
    if k < |edges| {
      FirstWhereAgrees(edges, p, q, k + 1);
    }
  }

  /** Every edge has two different end points. */
  predicate ProperEdges(edges: seq<Edge>)
  {
    forall j :: 0 <= j < |edges| ==> edges[j].p1.pos != edges[j].p2.pos
  }

  /** When no edge starts and ends at one point, the step lands on the first edge
      equal, in either direction, to the first edge that starts where edge i ends. */
  lemma NextEdgeOnProperEdges(edges: seq<Edge>, i: nat)
    requires i < |edges| && ProperEdges(edges)
    ensures var m := FirstWhere(edges, (e: Edge) => Vertices.Equals(edges[i].p2, e.p1), 0);
      m.Some? ==> NextEdge(edges, i) == Success(FirstWhere(edges, (e: Edge) => EdgeEquals(e, edges[m.value]), 0).value)
  {
    var m := FirstWhere(edges, (e: Edge) => Vertices.Equals(edges[i].p2, e.p1), 0);
    if m.Some? {
      var same := (e: Edge) => EqualsAsWritten(e, edges[m.value]);
      var intended := (e: Edge) => EdgeEquals(e, edges[m.value]);
      forall j | 0 <= j < |edges| ensures same(edges[j]) == intended(edges[j]) {
        EqualsAsWrittenOnProperEdges(edges[j], edges[m.value]);
      }
      FirstWhereAgrees(edges, same, intended, 0);
    }
  }

  /** No index occurs twice. */
  predicate Distinct(order: seq<nat>)
  {
    forall j, k :: 0 <= j < k < |order| ==> order[j] != order[k]
  }

  /** The edges visited so far, in `order`: the walk starts at edge 0, each step
      follows NextEdge, and no edge is visited twice. ClosedWalk and StuckWalk say how
      it may end. */
  predicate Walk(edges: seq<Edge>, order: seq<nat>)
  {
    && |order| >= 1 && order[0] == 0 && Distinct(order)
    && (forall k :: 0 <= k < |order| ==> order[k] < |edges|)
    && (forall k :: 0 <= k < |order| - 1 ==> NextEdge(edges, order[k]) == Success(order[k + 1]))
  }

  /** The positions the walk adds: the first vertex of each visited edge. */
  function Path(edges: seq<Edge>, order: seq<nat>): (ps: seq<Vec3>)
    requires forall k :: 0 <= k < |order| ==> order[k] < |edges|
    ensures |ps| == |order|
  {
    seq(|order|, k requires 0 <= k < |order| => edges[order[k]].p1.pos)
  }

  /** The walk has ended: the step after its last edge lands on an edge already
      visited. */
  predicate ClosedWalk(edges: seq<Edge>, order: seq<nat>)
  {
    Walk(edges, order) && var last := NextEdge(edges, order[|order| - 1]); last.Success? && last.value in order
  }

  /** The walk is stuck: no edge starts where its last edge ends, so First() throws. */
  predicate StuckWalk(edges: seq<Edge>, order: seq<nat>)
  {
    Walk(edges, order) && NextEdge(edges, order[|order| - 1]).Failure?
  }

  /** Two walks agree on their common length: each step is determined by the one
      before it. */
  lemma {:induction false} WalksAgree(edges: seq<Edge>, o1: seq<nat>, o2: seq<nat>, k: nat)
    requires Walk(edges, o1) && Walk(edges, o2) && k <= |o1| && k <= |o2|
    ensures o1[..k] == o2[..k]
    decreases k
  {
    if k > 1 {
      WalksAgree(edges, o1, o2, k - 1);
      assert o1[k - 2] == o2[k - 2];
      assert Success(o1[k - 1]) == NextEdge(edges, o1[k - 2]) == Success(o2[k - 1]);
      assert o1[..k] == o1[..k - 1] + [o1[k - 1]];
      assert o2[..k] == o2[..k - 1] + [o2[k - 1]];
    }
  }

  /** A longer walk goes on from the end of a shorter one to an edge the shorter one
      has not visited. */
  lemma WalkPast(edges: seq<Edge>, o1: seq<nat>, o2: seq<nat>)
    requires Walk(edges, o1) && Walk(edges, o2) && |o2| > |o1|
    ensures NextEdge(edges, o1[|o1| - 1]) == Success(o2[|o1|]) && o2[|o1|] !in o1
  {
    var n := |o1|;
    WalksAgree(edges, o1, o2, n);
    assert o2[n - 1] == o2[..n][n - 1] == o1[..n][n - 1] == o1[n - 1];
    forall j | 0 <= j < n ensures o1[j] != o2[n] {
      assert o1[j] == o1[..n][j] == o2[..n][j] == o2[j];
    }
  }

  /** A closed or stuck walk is the longest walk: every walk is a prefix of it. So
      the loop of toPolygons has exactly one way to end. */
  lemma MaximalWalkUnique(edges: seq<Edge>, o1: seq<nat>, o2: seq<nat>)
    requires ClosedWalk(edges, o1) || StuckWalk(edges, o1)
    requires Walk(edges, o2)
    ensures |o2| <= |o1| && o2 == o1[..|o2|]
  {
    if |o2| > |o1| {
      WalkPast(edges, o1, o2);
      assert false;
    }
    WalksAgree(edges, o1, o2, |o2|);
    assert o2[..|o2|] == o2;
  }

  /** A list of distinct indices below n has at most n elements. */
  lemma {:induction false} DistinctBounded(order: seq<nat>, n: nat)
    requires forall k :: 0 <= k < |order| ==> order[k] < n
    requires Distinct(order)
    ensures |order| <= n
    decreases |order|
  {
    if |order| > 0 {
      var x := order[|order| - 1];
      var rest := seq(|order| - 1, k requires 0 <= k < |order| - 1 => if order[k] == n - 1 then x else order[k]);
      forall k | 0 <= k < |rest| ensures rest[k] < n - 1 {
        assert order[k] != x;
      }
      forall j, k | 0 <= j < k < |rest| ensures rest[j] != rest[k] {
        assert order[j] != x && order[k] != x;
      }
      DistinctBounded(rest, n - 1);
    }
  }

  /** Adding the last visited edge's position extends the path by one. */
  lemma PathGrows(edges: seq<Edge>, order: seq<nat>)
    requires |order| >= 1 && forall k :: 0 <= k < |order| ==> order[k] < |edges|
    ensures Path(edges, order) == Path(edges, order[..|order| - 1]) + [edges[order[|order| - 1]].p1.pos]
  {
  }

  /** A step to an edge not yet visited extends the walk. */
  lemma WalkGrows(edges: seq<Edge>, order: seq<nat>, next: nat)
    requires Walk(edges, order) && NextEdge(edges, order[|order| - 1]) == Success(next) && next !in order
    ensures Walk(edges, order + [next])
  {
    var o := order + [next];
    forall k | 0 <= k < |o| - 1 ensures NextEdge(edges, o[k]) == Success(o[k + 1]) {
      if k < |order| - 1 {
        assert o[k] == order[k] && o[k + 1] == order[k + 1];
      }
    }
  }

  /** The walk of toPolygons: from edge 0, add the edge's first position, step to the
      next edge and stop at the first edge already used. An empty list has no edge 0;
      a step with no edge to go to throws. Every edge enters the path at most once. */
  method BoundaryPath(edges: seq<Edge>) returns (r: Result<seq<Vec3>>, ghost order: seq<nat>)
    ensures edges == [] <==> r == Failure(IndexOutOfRange)
    ensures edges != [] ==> Walk(edges, order) && |order| <= |edges|
    ensures r.Success? ==> ClosedWalk(edges, order) && r.value == Path(edges, order)
    ensures r.Failure? && edges != [] ==> r.error == InvalidOperation && StuckWalk(edges, order)
  {
    if |edges| == 0 {
      return Failure(IndexOutOfRange), [];
    }
    var path: seq<Vec3> := [];
    var used := new bool[|edges|](_ => false);
    var edge := 0;
    used[0] := true;
    order := [0];
    while true
      invariant 0 <= edge < |edges| && Walk(edges, order) && order[|order| - 1] == edge
      invariant forall k :: 0 <= k < |edges| ==> (used[k] <==> k in order)
      invariant path == Path(edges, order[..|order| - 1])
      decreases |edges| - |order|
    {
      DistinctBounded(order, |edges|);
      path := path + [edges[edge].p1.pos];
      PathGrows(edges, order);
      var next := NextEdge(edges, edge);
      if next.Failure? {
        return Failure(InvalidOperation), order;
      }
      if used[next.value] {
        break;
      }
      WalkGrows(edges, order, next.value);
      edge := next.value;
      used[edge] := true;
      order := order + [edge];
    }
    DistinctBounded(order, |edges|);
    assert order[..|order|] == order;
    r := Success(path);
  }

  /** toPolygons: the walked path as one polygon (fromPoints, which needs three points),
      every vertex given the plane's normal. An empty list throws, a walk that gets
      stuck throws, and a closed walk of fewer than three edges makes fromPoints throw;
      otherwise the polygon's positions are those of the closed walk, which is the only
      walk that can end (MaximalWalkUnique). The storage fromPoints creates is a
      parameter. The list-based _toPolygons is the same walk. */
  method ToPolygons(edges: seq<Edge>, plane: Planes.Plane, storage: PropertyStorage, ref: nat, recip: Recip)
    returns (r: Result<seq<Polygon>>)
    ensures edges == [] ==> r == Failure(IndexOutOfRange)
    ensures r.Success? ==> |r.value| == 1 && r.value[0].storage == storage && r.value[0].ref == ref
    ensures r.Success? ==>
      exists order :: ClosedWalk(edges, order) && |order| >= 3 && Positions(r.value[0].vertices) == Path(edges, order)
    ensures r.Success? ==> forall v :: v in r.value[0].vertices ==> v.normal == plane.normal
    ensures r == Failure(InvalidOperation) ==> exists order :: StuckWalk(edges, order)
    ensures r.Failure? && r.error != InvalidOperation ==>
      r.error == IndexOutOfRange && (edges == [] || (exists order :: ClosedWalk(edges, order) && |order| < 3))
  {
    var path, order := BoundaryPath(edges);
    if path.Failure? {
      return Failure(path.error);
    }
    var p := FromPoints(ref, path.value, storage, recip);
    if p.Failure? {
      return Failure(p.error);
    }
    var q := p.value.(vertices := WithNormal(p.value.vertices, plane.normal));
    assert Positions(q.vertices) == Positions(p.value.vertices);
    r := Success([q]);
  }

  // ---- false boundary edges ------------------------------------------------------------

  /** The two edges share an end point position. */
  predicate SharedEndPoint(fbe: Edge, e: Edge)
  {
    || e.p1.pos == fbe.p1.pos || e.p1.pos == fbe.p2.pos
    || e.p2.pos == fbe.p1.pos || e.p2.pos == fbe.p2.pos
  }

  /** falseBoundaryEdgeSharedWithOtherEdge: edges with a shared end point are never a
      false boundary; otherwise e counts when one of its end points lies on fbe.
      `onEdge` is the tolerance test contains(point). */
  function FalseBoundaryEdgeShared(fbe: Edge, e: Edge, onEdge: (Edge, Vec3) -> bool): (r: bool)
    ensures SharedEndPoint(fbe, e) ==> !r
    ensures r <==> !SharedEndPoint(fbe, e) && (onEdge(fbe, e.p1.pos) || onEdge(fbe, e.p2.pos))
  {
    if SharedEndPoint(fbe, e) then false
    else onEdge(fbe, e.p1.pos) || onEdge(fbe, e.p2.pos)
  }

  // ---- outlines and holes --------------------------------------------------------------

  /** The storage key under which a polygon's holes are listed. */
  const HolesKey := "jcsg:edge:polygon-holes"

  /** getValue<List<Polygon>>: a stored list of polygons, or null for anything else. */
  const HolesType := TypeArg((v: Value) => v.PolygonRefs?, false, Str(""))

  /** The holes recorded in a storage: the polygons of its hole list, none without one. */
  function Holes(s: PropertyStorage): seq<nat>
    reads s
  {
    if HolesKey in s.entries && s.entries[HolesKey].PolygonRefs? then s.entries[HolesKey].refs else []
  }

  /** The indices of the other polygons that contain polygon i, among the first m, in
      increasing order. */
  function Containers(ps: seq<Polygon>, contains: (Polygon, Polygon) -> bool, i: nat, m: nat): (r: seq<nat>)
    requires i < |ps| && m <= |ps|
    ensures forall k :: 0 <= k < |r| ==> r[k] < m
  {
    if m == 0 then []
    else Containers(ps, contains, i, m - 1) + (if m - 1 != i && contains(ps[m - 1], ps[i]) then [m - 1] else [])
  }

  /** The containers of i are exactly the other polygons that contain it, each once and
      in increasing order. */
  lemma {:induction false} ContainersMeaning(ps: seq<Polygon>, contains: (Polygon, Polygon) -> bool, i: nat, m: nat)
    requires i < |ps| && m <= |ps|
    ensures forall j :: j in Containers(ps, contains, i, m) <==> 0 <= j < m && j != i && contains(ps[j], ps[i])
    ensures forall j, k :: 0 <= j < k < |Containers(ps, contains, i, m)| ==>
      Containers(ps, contains, i, m)[j] < Containers(ps, contains, i, m)[k]
  {
    if m > 0 {
      ContainersMeaning(ps, contains, i, m - 1);
    }
  }

  /** parents: for every polygon, its containers. */
  function Parents(ps: seq<Polygon>, contains: (Polygon, Polygon) -> bool): (r: seq<seq<nat>>)
    ensures |r| == |ps| && WellFormed(r)
  {
    seq(|ps|, i requires 0 <= i < |ps| => Containers(ps, contains, i, |ps|))
  }

  /** Every listed container is an index of the list. */
  predicate WellFormed(parents: seq<seq<nat>>)
  {
    forall i, k :: 0 <= i < |parents| && 0 <= k < |parents[i]| ==> parents[i][k] < |parents|
  }

  /** isHole: a polygon is a hole when an odd number of other polygons contain it. */
  function HoleFlags(parents: seq<seq<nat>>): (r: seq<bool>)
    ensures |r| == |parents|
  {
    seq(|parents|, i requires 0 <= i < |parents| => |parents[i]| % 2 != 0)
  }

  /** The first loop of boundaryPathsWithHoles: for each polygon the list of the others
      that contain it, and whether it is a hole. */
  method CollectParents(ps: seq<Polygon>, contains: (Polygon, Polygon) -> bool)
    returns (parents: seq<seq<nat>>, isHole: seq<bool>)
    ensures parents == Parents(ps, contains) && isHole == HoleFlags(parents)
    ensures WellFormed(parents)
  {
    parents, isHole := [], [];
    var i := 0;
    while i < |ps|
      invariant 0 <= i <= |ps| && |parents| == |isHole| == i
      invariant forall k :: 0 <= k < i ==> parents[k] == Containers(ps, contains, k, |ps|)
      invariant forall k :: 0 <= k < i ==> isHole[k] == (|parents[k]| % 2 != 0)
    {
      var parentsOfI: seq<nat> := [];
      var j := 0;
      while j < |ps|
        invariant 0 <= j <= |ps| && parentsOfI == Containers(ps, contains, i, j)
      {
        if i != j && contains(ps[j], ps[i]) {
          parentsOfI := parentsOfI + [j];
        }
        j := j + 1;
      }
      parents := parents + [parentsOfI];
      isHole := isHole + [|parentsOfI| % 2 != 0];
      i := i + 1;
    }
  }

  /** The scan for the parent over the containers left in par, with the largest count
      seen so far and its index: a container replaces the best only when it has strictly
      more containers of its own. */
  function Deepest(parents: seq<seq<nat>>, par: seq<nat>, max: int, maxIndex: nat): (r: nat)
    requires forall k :: 0 <= k < |par| ==> par[k] < |parents|
    ensures r == maxIndex || r in par
  {
    if par == [] then maxIndex
    else if max < |parents[par[0]]| then Deepest(parents, par[1..], |parents[par[0]]|, par[0])
    else Deepest(parents, par[1..], max, maxIndex)
  }

  /** The parent as written: the scan starts from a count of 0 at index 0, so a hole
      whose containers have no containers of their own gets index 0. */
  function ParentAsWritten(parents: seq<seq<nat>>, i: nat): (r: nat)
    requires WellFormed(parents) && i < |parents|
    ensures r < |parents|
  {
    Deepest(parents, parents[i], 0, 0)
  }

  /** The parent as intended: the first container with the most containers of its own,
      and 0 for a polygon no other contains. */
  function ParentOf(parents: seq<seq<nat>>, i: nat): (r: nat)
    requires WellFormed(parents) && i < |parents|
    ensures r < |parents|
  {
    Deepest(parents, parents[i], -1, 0)
  }

  /** What the scan of par from (max, maxIndex) ends on: the index it holds when no
      container beats the count, and otherwise the first container with the largest
      count. */
  ghost predicate Scanned(parents: seq<seq<nat>>, par: seq<nat>, max: int, maxIndex: nat, r: nat)
    requires forall k :: 0 <= k < |par| ==> par[k] < |parents|
  {
    || (r == maxIndex && forall k :: 0 <= k < |par| ==> |parents[par[k]]| <= max)
    || (r < |parents|
        && exists k0 :: (0 <= k0 < |par| && par[k0] == r && max < |parents[r]|
                         && (forall k :: 0 <= k < k0 ==> |parents[par[k]]| < |parents[r]|)
                         && (forall k :: 0 <= k < |par| ==> |parents[par[k]]| <= |parents[r]|)))
  }

  lemma {:induction false} DeepestFacts(parents: seq<seq<nat>>, par: seq<nat>, max: int, maxIndex: nat)
    requires forall k :: 0 <= k < |par| ==> par[k] < |parents|
    ensures Scanned(parents, par, max, maxIndex, Deepest(parents, par, max, maxIndex))
    decreases |par|, 1
  {
    if par != [] {
      if max < |parents[par[0]]| {
        DeepestTakes(parents, par, max, maxIndex);
      } else {
        DeepestSkips(parents, par, max, maxIndex);
      }
    }
  }

  /** The first container beats the count: the scan goes on from it. */
  lemma {:induction false} DeepestTakes(parents: seq<seq<nat>>, par: seq<nat>, max: int, maxIndex: nat)
    requires forall k :: 0 <= k < |par| ==> par[k] < |parents|
    requires par != [] && max < |parents[par[0]]|
    ensures Scanned(parents, par, max, maxIndex, Deepest(parents, par, max, maxIndex))
    decreases |par|, 0
  {
    var p := par[0];
    DeepestFacts(parents, par[1..], |parents[p]|, p);
    var r := Deepest(parents, par[1..], |parents[p]|, p);
    assert r == Deepest(parents, par, max, maxIndex);
    if r == p && forall k :: 0 <= k < |par| - 1 ==> |parents[par[1..][k]]| <= |parents[p]| {
      forall k | 0 <= k < |par| ensures |parents[par[k]]| <= |parents[r]| {
        if k > 0 { assert par[k] == par[1..][k - 1]; }
      }
      assert par[0] == r;
    } else {
      var k1 :| 0 <= k1 < |par| - 1 && par[1..][k1] == r && |parents[p]| < |parents[r]|
        && (forall k :: 0 <= k < k1 ==> |parents[par[1..][k]]| < |parents[r]|)
        && (forall k :: 0 <= k < |par| - 1 ==> |parents[par[1..][k]]| <= |parents[r]|);
      Shifted(parents, par, k1, r);
    }
  }

  /** The first container does not beat the count: the scan goes on as before. */
  lemma {:induction false} DeepestSkips(parents: seq<seq<nat>>, par: seq<nat>, max: int, maxIndex: nat)
    requires forall k :: 0 <= k < |par| ==> par[k] < |parents|
    requires par != [] && |parents[par[0]]| <= max
    ensures Scanned(parents, par, max, maxIndex, Deepest(parents, par, max, maxIndex))
    decreases |par|, 0
  {
    DeepestFacts(parents, par[1..], max, maxIndex);
    var r := Deepest(parents, par[1..], max, maxIndex);
    assert r == Deepest(parents, par, max, maxIndex);
    if r == maxIndex && forall k :: 0 <= k < |par| - 1 ==> |parents[par[1..][k]]| <= max {
      forall k | 0 <= k < |par| ensures |parents[par[k]]| <= max {
        if k > 0 { assert par[k] == par[1..][k - 1]; }
      }
    } else {
      var k1 :| 0 <= k1 < |par| - 1 && par[1..][k1] == r && max < |parents[r]|
        && (forall k :: 0 <= k < k1 ==> |parents[par[1..][k]]| < |parents[r]|)
        && (forall k :: 0 <= k < |par| - 1 ==> |parents[par[1..][k]]| <= |parents[r]|);
      Shifted(parents, par, k1, r);
    }
  }

  /** A container found at k1 in par[1..] sits at k1 + 1 in par, beating every one
      before it, with par[0] no larger. */
  lemma Shifted(parents: seq<seq<nat>>, par: seq<nat>, k1: nat, r: nat)
    requires forall k :: 0 <= k < |par| ==> par[k] < |parents|
    requires k1 < |par| - 1 && par[1..][k1] == r && |parents[par[0]]| < |parents[r]|
    requires forall k :: 0 <= k < k1 ==> |parents[par[1..][k]]| < |parents[r]|
    requires forall k :: 0 <= k < |par| - 1 ==> |parents[par[1..][k]]| <= |parents[r]|
    ensures par[k1 + 1] == r
    ensures forall k :: 0 <= k < k1 + 1 ==> |parents[par[k]]| < |parents[r]|
    ensures forall k :: 0 <= k < |par| ==> |parents[par[k]]| <= |parents[r]|
  {
    forall k | 0 <= k < k1 + 1 ensures |parents[par[k]]| < |parents[r]| {
      if k > 0 { assert par[k] == par[1..][k - 1]; }
    }
    forall k | 0 <= k < |par| ensures |parents[par[k]]| <= |parents[r]| {
      if k > 0 { assert par[k] == par[1..][k - 1]; }
    }
  }

  /** The parent of a polygon some other polygon contains is one of its containers: the
      first with the most containers of its own. Without containers the parent is 0. */
  lemma ParentIsDeepestContainer(parents: seq<seq<nat>>, i: nat)
    requires WellFormed(parents) && i < |parents|
    ensures parents[i] == [] ==> ParentOf(parents, i) == 0
    ensures parents[i] != [] ==> var r := ParentOf(parents, i);
      && r in parents[i]
      && (forall p :: p in parents[i] ==> |parents[p]| <= |parents[r]|)
      && exists k0 :: 0 <= k0 < |parents[i]| && parents[i][k0] == r
           && forall k :: 0 <= k < k0 ==> |parents[parents[i][k]]| < |parents[r]|
  {
    DeepestFacts(parents, parents[i], -1, 0);
    if parents[i] != [] {
      assert |parents[parents[i][0]]| > -1;
    }
  }

  /** As written, a hole whose only container is contained by nothing gets parent 0,
      which need not contain it: with polygon 2 containing polygon 1 and nothing else
      nested, polygon 1's parent is 0 instead of 2. */
  lemma ParentAsWrittenMissesContainer()
    ensures var parents := [[], [2], []];
      && WellFormed(parents) && ParentAsWritten(parents, 1) == 0 && 0 !in parents[1]
      && ParentOf(parents, 1) == 2
  {
    var parents: seq<seq<nat>> := [[], [2], []];
    assert parents[1] == [2] && parents[1][1..] == [];
  }

  /** When some container has containers of its own, the scan as written picks the
      intended parent. */
  lemma ParentAsWrittenWhenNested(parents: seq<seq<nat>>, i: nat)
    requires WellFormed(parents) && i < |parents|
    requires exists p :: p in parents[i] && |parents[p]| > 0
    ensures ParentAsWritten(parents, i) == ParentOf(parents, i)
  {
    DeepestFacts(parents, parents[i], 0, 0);
    DeepestFacts(parents, parents[i], -1, 0);
  }

  /** The parent as written is a container of the hole, the first with the most
      containers of its own, whenever some container is itself contained; otherwise
      it is polygon 0. */
  lemma ParentAsWrittenContains(parents: seq<seq<nat>>, i: nat)
    requires WellFormed(parents) && i < |parents|
    ensures (exists p :: p in parents[i] && |parents[p]| > 0) ==>
      ParentAsWritten(parents, i) in parents[i]
      && forall p :: p in parents[i] ==> |parents[p]| <= |parents[ParentAsWritten(parents, i)]|
    ensures (forall p :: p in parents[i] ==> |parents[p]| == 0) ==> ParentAsWritten(parents, i) == 0
  {
    DeepestFacts(parents, parents[i], 0, 0);
    if exists p :: p in parents[i] && |parents[p]| > 0 {
      ParentAsWrittenWhenNested(parents, i);
      ParentIsDeepestContainer(parents, i);
    }
  }

  /** The parent loop of boundaryPathsWithHoles for polygon i, as written: the scan
      starts from a count of 0 at index 0 and moves to a container only when it has
      strictly more containers of its own. */
  method ChooseParent(parents: seq<seq<nat>>, i: nat) returns (maxIndex: nat)
    requires WellFormed(parents) && i < |parents|
    ensures maxIndex == ParentAsWritten(parents, i)
  {
    var par := parents[i];
    var max := 0;
    maxIndex := 0;
    var k := 0;
    while k < |par|
      invariant 0 <= k <= |par|
      invariant Deepest(parents, par[k..], max, maxIndex) == Deepest(parents, par, 0, 0)
    {
      var pIndex := par[k];
      var pSize := |parents[pIndex]|;
      assert par[k..][1..] == par[k + 1..];
      if max < pSize {
        max := pSize;
        maxIndex := pIndex;
      }
      k := k + 1;
    }
  }

  /** Polygon i is recorded as a hole of its parent (as written): it is a hole and its
      parent is not. */
  predicate Registers(parents: seq<seq<nat>>, isHole: seq<bool>, i: nat)
    requires WellFormed(parents) && |isHole| == |parents| && i < |parents|
  {
    isHole[i] && !isHole[ParentAsWritten(parents, i)]
  }

  /** The holes among the first k polygons that go to storage s, in order. */
  function HolesFor(ps: seq<Polygon>, parents: seq<seq<nat>>, isHole: seq<bool>, k: nat, s: PropertyStorage): seq<nat>
    requires WellFormed(parents) && |isHole| == |parents| == |ps| && k <= |ps|
  {
    if k == 0 then []
    else
      var i := k - 1;
      var mine := Registers(parents, isHole, i) && ps[ParentAsWritten(parents, i)].storage == s;
      HolesFor(ps, parents, isHole, i, s) + (if mine then [ps[i].ref] else [])
  }

  /** Adds p to the hole list of storage s; a storage without one gets a new list. */
  method AddHole(s: PropertyStorage, p: Polygon)
    modifies s
    ensures s.entries == old(s.entries)[HolesKey := PolygonRefs(old(Holes(s)) + [p.ref])]
    ensures Holes(s) == old(Holes(s)) + [p.ref]
  {
    var found := s.GetValue(HolesKey, HolesType);
    var holes: seq<nat>;
    if found.Success? && found.value.Some? {
      holes := found.value.value.refs;
    } else {
      holes := [];
    }
    s.Set(HolesKey, PolygonRefs(holes + [p.ref]));
  }

  /** The other entries of the storage are those it had. */
  predicate OthersKept(after: map<string, Value>, before: map<string, Value>)
  {
    after - {HolesKey} == before - {HolesKey}
  }

  /** The parent loop of boundaryPathsWithHoles: each hole whose parent, chosen by the
      scan as written (ParentAsWritten), is not a hole is added to the hole list of the
      parent's storage. Every storage of the polygons ends
      with the holes it had, then the holes that went to it, in order; its other entries
      are kept. */
  method RegisterHoles(ps: seq<Polygon>, parents: seq<seq<nat>>, isHole: seq<bool>)
    requires WellFormed(parents) && |isHole| == |parents| == |ps|
    modifies StoragesOf(ps)
    ensures forall s :: s in StoragesOf(ps) ==> Holes(s) == old(Holes(s)) + HolesFor(ps, parents, isHole, |ps|, s)
    ensures forall s :: s in StoragesOf(ps) ==> OthersKept(s.entries, old(s.entries))
  {
    ghost var ss := StoragesOf(ps);
    ghost var holes0 := map s | s in ss :: Holes(s);
    for i := 0 to |ps|
      invariant forall s :: s in ss ==> Holes(s) == holes0[s] + HolesFor(ps, parents, isHole, i, s)
      invariant forall s :: s in ss ==> OthersKept(s.entries, old(s.entries))
    {
      RegisterOne(ps, parents, isHole, i, ss, holes0);
    }
  }

  /** The holes polygon i adds to storage s: itself, when it is recorded with a parent
      whose storage is s. */
  function Added(ps: seq<Polygon>, parents: seq<seq<nat>>, isHole: seq<bool>, i: nat, s: PropertyStorage): seq<nat>
    requires WellFormed(parents) && |isHole| == |parents| == |ps| && i < |ps|
  {
    if Registers(parents, isHole, i) && ps[ParentAsWritten(parents, i)].storage == s then [ps[i].ref] else []
  }

  /** One turn of the parent loop: the parent of polygon i, and the hole recorded with it
      when polygon i is a hole and its parent is not. */
  method RegisterOne(ps: seq<Polygon>, parents: seq<seq<nat>>, isHole: seq<bool>, i: nat,
                     ghost ss: set<PropertyStorage>, ghost holes0: map<PropertyStorage, seq<nat>>)
    requires WellFormed(parents) && |isHole| == |parents| == |ps| && i < |ps| && ss == StoragesOf(ps)
    requires forall s :: s in ss ==> s in holes0 && Holes(s) == holes0[s] + HolesFor(ps, parents, isHole, i, s)
    modifies ss
    ensures forall s :: s in ss ==> Holes(s) == holes0[s] + HolesFor(ps, parents, isHole, i + 1, s)
    ensures forall s :: s in ss ==> OthersKept(s.entries, old(s.entries))
  {
    var maxIndex := ChooseParent(parents, i);
    if !isHole[maxIndex] && isHole[i] {
      AddHole(ps[maxIndex].storage, ps[i]);
    }
    forall s | s in ss
      ensures Holes(s) == holes0[s] + HolesFor(ps, parents, isHole, i + 1, s)
    {
      Appended(holes0[s], HolesFor(ps, parents, isHole, i, s), Added(ps, parents, isHole, i, s), old(Holes(s)), Holes(s));
    }
  }

  lemma Appended(h0: seq<nat>, hf: seq<nat>, added: seq<nat>, before: seq<nat>, now: seq<nat>)
    requires before == h0 + hf && now == before + added
    ensures now == h0 + (hf + added)
  {
  }

  /** Copies keep the storages. */
  lemma CopiesShareStorages(cs: seq<Polygon>, ps: seq<Polygon>, lo: nat, hi: nat)
    requires Copies(cs, ps, lo, hi)
    ensures StoragesOf(cs) == StoragesOf(ps)
  {
    forall s | s in StoragesOf(cs) ensures s in StoragesOf(ps) {
      var i :| 0 <= i < |cs| && cs[i].storage == s;
      assert ps[i].storage == s;
    }
    forall s | s in StoragesOf(ps) ensures s in StoragesOf(cs) {
      var i :| 0 <= i < |ps| && ps[i].storage == s;
      assert cs[i].storage == s;
    }
  }

  /** boundaryPathsWithHoles: clones of the paths, in order; a clone is a hole when an
      odd number of the other clones contain it, and a hole whose parent (the scan as
      written) is not a hole is added to the hole list of its parent's storage (clones share their original's
      storage). `contains` is Polygon.contains(Polygon). */
  method BoundaryPathsWithHoles(paths: seq<Polygon>, contains: (Polygon, Polygon) -> bool, next: nat, recip: Recip)
    returns (result: seq<Polygon>, next': nat)
    requires Proper(paths)
    modifies StoragesOf(paths)
    ensures Copies(result, paths, next, next') && next' == next + |paths|
    ensures var parents := Parents(result, contains);
      forall s :: s in StoragesOf(paths) ==>
        Holes(s) == old(Holes(s)) + HolesFor(result, parents, HoleFlags(parents), |result|, s)
    ensures forall s :: s in StoragesOf(paths) ==> OthersKept(s.entries, old(s.entries))
  {
    var clones := CloneAll(paths, next, recip);
    result, next' := clones.0, clones.1;
    CloneAllCopies(paths, next, recip);
    CopiesShareStorages(result, paths, next, next');
    var parents, isHole := CollectParents(result, contains);
    RegisterHoles(result, parents, isHole);
  }
}
