/**
 * The boolean operations of CSharpCSG/CSG.cs as the source runs them: two Node
 * objects built from clones, a fixed sequence of calls on them, and loops over the
 * polygon lists for the bounding-box short-cuts. Every method is proved equal to the
 * function of the same name in Booleans.
 */
module Solids {
  import opened Vectors
  import opened Wrappers
  import opened Polygons
  import Boxes
  import opened Storage
  import BspTrees
  import opened Nodes
  import opened CSGs
  import Booleans
  import Cubes

  /** new Node(c.clone().polygons). */
  method NewNodeOf(c: CSG, defaultOpt: OptType, next: nat, recip: Recip, fuel: nat) returns (node: Node, next': nat)
    requires BspTrees.Proper(c.polygons)
    ensures node.Valid() && fresh(node.Repr)
    ensures (node.Model(), next') == Booleans.NodeOf(c, defaultOpt, next, recip, fuel)
  {
    var (copy, n) := CSGs.Clone(c, defaultOpt, next, recip);
    node, next' := NewNode(copy.polygons, n, recip, fuel);
  }

  /** b.invert(); b.clipTo(a); b.invert(): the clipping of the inverted tree. */
  method ClipInverted(x: Node, y: Node, next: nat, recip: Recip) returns (next': nat)
    requires x.Valid() && y.Valid() && x.Repr !! y.Repr
    modifies x.Repr
    ensures x.Valid() && x.Repr == old(x.Repr)
    ensures var (t, n) := BspTrees.ClipTo(BspTrees.Invert(old(x.Model()), recip), y.Model(), next, recip);
      x.Model() == BspTrees.Invert(t, recip) && next' == n
  {
    x.Invert(recip);
    next' := x.ClipTo(y, next, recip);
    x.Invert(recip);
  }

  /** a.build(b.allPolygons()). */
  method BuildFrom(x: Node, y: Node, next: nat, recip: Recip, fuel: nat) returns (next': nat)
    requires x.Valid() && y.Valid() && x.Repr !! y.Repr
    modifies x.Repr
    ensures x.Valid() && fresh(x.Repr - old(x.Repr)) && x.Repr !! y.Repr
    ensures (x.Model(), next') == BspTrees.Build(old(x.Model()), BspTrees.AllPolygons(y.Model()), next, recip, fuel)
  {
    var ps := y.AllPolygons();
    next' := x.Build(ps, next, recip, fuel);
  }

  /** a.clipTo(b); b.clipTo(a): each tree clipped by the other, the second by the
      first's new state. */
  method ClipEachOther(a: Node, b: Node, next: nat, recip: Recip) returns (next': nat)
    requires a.Valid() && b.Valid() && a.Repr !! b.Repr
    modifies a.Repr, b.Repr
    ensures a.Valid() && b.Valid() && a.Repr == old(a.Repr) && b.Repr == old(b.Repr)
    ensures var (a1, n1) := BspTrees.ClipTo(old(a.Model()), old(b.Model()), next, recip);
      var (b1, n2) := BspTrees.ClipTo(old(b.Model()), a1, n1, recip);
      a.Model() == a1 && b.Model() == b1 && next' == n2
  {
    var n1 := a.ClipTo(b, next, recip);
    next' := b.ClipTo(a, n1, recip);
  }

  /** b.invert(); b.clipTo(a); b.invert(); a.build(b.allPolygons()): the tail the
      union and the difference share. */
  method MergeClipped(a: Node, b: Node, next: nat, recip: Recip, fuel: nat) returns (next': nat)
    requires a.Valid() && b.Valid() && a.Repr !! b.Repr
    modifies a.Repr, b.Repr
    ensures a.Valid() && fresh(a.Repr - old(a.Repr))
    ensures var (b1, n1) := BspTrees.ClipTo(BspTrees.Invert(old(b.Model()), recip), old(a.Model()), next, recip);
      (a.Model(), next') == BspTrees.Build(old(a.Model()), BspTrees.AllPolygons(BspTrees.Invert(b1, recip)), n1, recip, fuel)
  {
    ghost var a0 := a.Model();
    var n1 := ClipInverted(b, a, next, recip);
    assert a.Model() == a0;
    next' := BuildFrom(a, b, n1, recip, fuel);
  }

  /** a.invert(); then a.allPolygons(). */
  method InvertedPolygons(a: Node, recip: Recip) returns (r: seq<Polygon>)
    requires a.Valid()
    modifies a.Repr
    ensures r == BspTrees.AllPolygons(BspTrees.Invert(old(a.Model()), recip))
  {
    a.Invert(recip);
    r := a.AllPolygons();
  }

  /** The node calls of _unionNoOpt on two separate trees. */
  method UnionNodes(a: Node, b: Node, next: nat, recip: Recip, fuel: nat) returns (r: seq<Polygon>, next': nat)
    requires a.Valid() && b.Valid() && a.Repr !! b.Repr
    modifies a.Repr, b.Repr
    ensures (r, next') == Booleans.UnionTrees(old(a.Model()), old(b.Model()), next, recip, fuel)
  {
    var n2 := ClipEachOther(a, b, next, recip);
    next' := MergeClipped(a, b, n2, recip, fuel);
    r := a.AllPolygons();
  }

  /** The node calls of _differenceNoOpt on two separate trees. */
  method DifferenceNodes(a: Node, b: Node, next: nat, recip: Recip, fuel: nat) returns (r: seq<Polygon>, next': nat)
    requires a.Valid() && b.Valid() && a.Repr !! b.Repr
    modifies a.Repr, b.Repr
    ensures (r, next') == Booleans.DifferenceTrees(old(a.Model()), old(b.Model()), next, recip, fuel)
  {
    ghost var b0 := b.Model();
    a.Invert(recip);
    assert b.Model() == b0;
    var n2 := ClipEachOther(a, b, next, recip);
    next' := MergeClipped(a, b, n2, recip, fuel);
    r := InvertedPolygons(a, recip);
  }

  /** a.invert(); b.clipTo(a); b.invert(); a.clipTo(b); b.clipTo(a): the clipping
      steps of intersect. */
  method IntersectClips(a: Node, b: Node, next: nat, recip: Recip) returns (next': nat)
    requires a.Valid() && b.Valid() && a.Repr !! b.Repr
    modifies a.Repr, b.Repr
    ensures a.Valid() && b.Valid() && a.Repr == old(a.Repr) && b.Repr == old(b.Repr)
    ensures var a1 := BspTrees.Invert(old(a.Model()), recip);
      var (b1, n1) := BspTrees.ClipTo(old(b.Model()), a1, next, recip);
      var (a2, n2) := BspTrees.ClipTo(a1, BspTrees.Invert(b1, recip), n1, recip);
      var (b3, n3) := BspTrees.ClipTo(BspTrees.Invert(b1, recip), a2, n2, recip);
      a.Model() == a2 && b.Model() == b3 && next' == n3
  {
    ghost var b0 := b.Model();
    a.Invert(recip);
    assert b.Model() == b0;
    ghost var a1 := a.Model();
    var n1 := b.ClipTo(a, next, recip);
    b.Invert(recip);
    assert a.Model() == a1;
    next' := ClipEachOther(a, b, n1, recip);
  }

  /** The node calls of intersect on two separate trees. */
  method IntersectNodes(a: Node, b: Node, next: nat, recip: Recip, fuel: nat) returns (r: seq<Polygon>, next': nat)
    requires a.Valid() && b.Valid() && a.Repr !! b.Repr
    modifies a.Repr, b.Repr
    ensures (r, next') == Booleans.IntersectTrees(old(a.Model()), old(b.Model()), next, recip, fuel)
  {
    var n3 := IntersectClips(a, b, next, recip);
    next' := BuildFrom(a, b, n3, recip, fuel);
    r := InvertedPolygons(a, recip);
  }

  /** _unionNoOpt. */
  method UnionNoOpt(a: CSG, b: CSG, defaultOpt: OptType, next: nat, recip: Recip, fuel: nat) returns (r: CSG, next': nat)
    requires BspTrees.Proper(a.polygons) && BspTrees.Proper(b.polygons)
    ensures (r, next') == Booleans.UnionNoOpt(a, b, defaultOpt, next, recip, fuel)
  {
    var na, n1 := NewNodeOf(a, defaultOpt, next, recip, fuel);
    ghost var ta := na.Model();
    var nb, n2 := NewNodeOf(b, defaultOpt, n1, recip, fuel);
    assert na.Model() == ta;
    var ps;
    ps, next' := UnionNodes(na, nb, n2, recip, fuel);
    r := CSG(ps, Some(GetOptType(a, defaultOpt)));
  }

  /** _differenceNoOpt. */
  method DifferenceNoOpt(a: CSG, b: CSG, defaultOpt: OptType, next: nat, recip: Recip, fuel: nat) returns (r: CSG, next': nat)
    requires BspTrees.Proper(a.polygons) && BspTrees.Proper(b.polygons)
    ensures (r, next') == Booleans.DifferenceNoOpt(a, b, defaultOpt, next, recip, fuel)
  {
    var na, n1 := NewNodeOf(a, defaultOpt, next, recip, fuel);
    ghost var ta := na.Model();
    var nb, n2 := NewNodeOf(b, defaultOpt, n1, recip, fuel);
    assert na.Model() == ta;
    var ps;
    ps, next' := DifferenceNodes(na, nb, n2, recip, fuel);
    r := CSG(ps, Some(GetOptType(a, defaultOpt)));
  }

  /** intersect. */
  method Intersect(a: CSG, b: CSG, defaultOpt: OptType, next: nat, recip: Recip, fuel: nat) returns (r: CSG, next': nat)
    requires BspTrees.Proper(a.polygons) && BspTrees.Proper(b.polygons)
    ensures (r, next') == Booleans.Intersect(a, b, defaultOpt, next, recip, fuel)
  {
    var na, n1 := NewNodeOf(a, defaultOpt, next, recip, fuel);
    ghost var ta := na.Model();
    var nb, n2 := NewNodeOf(b, defaultOpt, n1, recip, fuel);
    assert na.Model() == ta;
    var ps;
    ps, next' := IntersectNodes(na, nb, n2, recip, fuel);
    r := CSG(ps, Some(GetOptType(a, defaultOpt)));
  }

  /** The ForEach of the POLYGON_BOUND paths: each polygon goes to the inner list when
      its box meets the box, otherwise to the outer list. */
  method PartitionByBounds(ps: seq<Polygon>, box: Boxes.Bounds) returns (inner: seq<Polygon>, outer: seq<Polygon>)
    requires BspTrees.Proper(ps)
    ensures inner == Booleans.Inner(ps, box) && outer == Booleans.Outer(ps, box)
  {
    inner, outer := [], [];
    var i := 0;
    while i < |ps|
      invariant 0 <= i <= |ps|
      invariant inner == Booleans.Inner(ps[..i], box) && outer == Booleans.Outer(ps[..i], box)
    {
      var pb := Polygons.GetBounds(ps[i]);
      Booleans.PrefixSidesStep(ps, box, i);
      if Boxes.Intersects(box, pb) {
        inner := inner + [ps[i]];
      } else {
        outer := outer + [ps[i]];
      }
      i := i + 1;
    }
    assert ps[..i] == ps;
  }

  /** The loop of _unionIntersectOpt: whether some polygon's box meets the box,
      stopping at the first that does. */
  method AnyMeets(ps: seq<Polygon>, box: Boxes.Bounds) returns (meets: bool)
    requires BspTrees.Proper(ps)
    ensures meets <==> Booleans.Inner(ps, box) != []
  {
    var hits := Booleans.Hits(ps, box);
    Booleans.HitsMeaning(ps, box);
    meets := false;
    var i := 0;
    while i < |ps|
      invariant 0 <= i <= |ps|
      invariant forall j :: 0 <= j < i ==> !hits[j]
      invariant !meets
    {
      var pb := Polygons.GetBounds(ps[i]);
      if Boxes.Intersects(box, pb) {
        assert hits[i];
        meets := true;
        break;
      }
      i := i + 1;
    }
    Booleans.KeptEmptyIff(ps, hits, true);
  }

  /** _unionIntersectOpt. */
  method UnionIntersectOpt(a: CSG, b: CSG, defaultOpt: OptType, next: nat, recip: Recip, fuel: nat) returns (r: CSG, next': nat)
    requires BspTrees.Proper(a.polygons) && BspTrees.Proper(b.polygons)
    ensures (r, next') == Booleans.UnionIntersectOpt(a, b, defaultOpt, next, recip, fuel)
  {
    var box := CSGs.GetBounds(b);
    var meets := AnyMeets(a.polygons, box);
    if meets {
      r, next' := UnionNoOpt(a, b, defaultOpt, next, recip, fuel);
    } else {
      r, next' := CSG(a.polygons + b.polygons, Some(GetOptType(a, defaultOpt))), next;
    }
  }

  /** _unionPolygonBoundsOpt. */
  method UnionPolygonBounds(a: CSG, b: CSG, defaultOpt: OptType, next: nat, recip: Recip, fuel: nat) returns (r: CSG, next': nat)
    requires BspTrees.Proper(a.polygons) && BspTrees.Proper(b.polygons)
    ensures (r, next') == Booleans.UnionPolygonBounds(a, b, defaultOpt, next, recip, fuel)
  {
    var box := CSGs.GetBounds(b);
    var inner, outer := PartitionByBounds(a.polygons, box);
    Booleans.InnerProper(a.polygons, box);
    if inner != [] {
      var u;
      u, next' := UnionNoOpt(FromPolygons(inner), b, defaultOpt, next, recip, fuel);
      r := CSG(outer + u.polygons, Some(GetOptType(a, defaultOpt)));
    } else {
      r, next' := CSG(a.polygons + b.polygons, Some(GetOptType(a, defaultOpt))), next;
    }
  }

  /** _differencePolygonBoundsOpt. */
  method DifferencePolygonBounds(a: CSG, b: CSG, defaultOpt: OptType, next: nat, recip: Recip, fuel: nat) returns (r: CSG, next': nat)
    requires BspTrees.Proper(a.polygons) && BspTrees.Proper(b.polygons)
    ensures (r, next') == Booleans.DifferencePolygonBounds(a, b, defaultOpt, next, recip, fuel)
  {
    var box := CSGs.GetBounds(b);
    var inner, outer := PartitionByBounds(a.polygons, box);
    Booleans.InnerProper(a.polygons, box);
    var d;
    d, next' := DifferenceNoOpt(FromPolygons(inner), b, defaultOpt, next, recip, fuel);
    r := CSG(outer + d.polygons, Some(GetOptType(a, defaultOpt)));
  }

  /** Bounds.toCSG on a fresh box: the box's cube (centred at the box's center, the
      extent as dimensions, a storage of its own with the colour draw `draw`) as a CSG
      whose polygons share the cube's storage. */
  method BoxSolid(box: Boxes.Bounds, draw: real, next: nat, recip: Recip) returns (c: CSG, next': nat, ghost storage: PropertyStorage)
    requires 0.0 <= draw < 1.0
    ensures fresh(storage)
    ensures (c, next') == Booleans.BoxSolid(box, storage, next, recip)
  {
    var cube := new Cubes.Cube.At(box.center, box.extent, draw);
    var ps;
    ps, next' := cube.ToPolygons(next, recip);
    c := FromPolygonsSharing(cube.properties, ps);
    storage := cube.properties;
  }

  /** _differenceCSGBoundsOpt, each use of the other solid's box making its own cube. */
  method DifferenceCsgBounds(a: CSG, b: CSG, defaultOpt: OptType, draw1: real, draw2: real,
                             next: nat, recip: Recip, fuel: nat)
    returns (r: CSG, next': nat, ghost s1: PropertyStorage, ghost s2: PropertyStorage)
    requires BspTrees.Proper(a.polygons) && BspTrees.Proper(b.polygons)
    requires 0.0 <= draw1 < 1.0 && 0.0 <= draw2 < 1.0
    ensures fresh(s1) && fresh(s2)
    ensures (r, next') == Booleans.DifferenceCsgBounds(a, b, defaultOpt, s1, s2, next, recip, fuel)
  {
    var box := CSGs.GetBounds(b);
    var c1, n1;
    c1, n1, s1 := BoxSolid(box, draw1, next, recip);
    Booleans.BoxSolidShape(box, s1, next, recip);
    var a1, n2 := DifferenceNoOpt(a, c1, defaultOpt, n1, recip, fuel);
    Booleans.DifferenceMakesNew(a, c1, defaultOpt, n1, recip, fuel);
    var c2, n3;
    c2, n3, s2 := BoxSolid(box, draw2, n2, recip);
    Booleans.BoxSolidShape(box, s2, n2, recip);
    var a2, n4 := Intersect(a, c2, defaultOpt, n3, recip, fuel);
    Booleans.IntersectMakesNew(a, c2, defaultOpt, n3, recip, fuel);
    var a3, n5 := DifferenceNoOpt(a2, b, defaultOpt, n4, recip, fuel);
    Booleans.DifferenceMakesNew(a2, b, defaultOpt, n4, recip, fuel);
    var u;
    u, next' := UnionIntersectOpt(a3, a1, defaultOpt, n5, recip, fuel);
    r := Optimization(u, Some(GetOptType(a, defaultOpt)));
  }

  /** union(CSG). */
  method Union(a: CSG, b: CSG, defaultOpt: OptType, next: nat, recip: Recip, fuel: nat) returns (r: CSG, next': nat)
    requires BspTrees.Proper(a.polygons) && BspTrees.Proper(b.polygons)
    ensures (r, next') == Booleans.Union(a, b, defaultOpt, next, recip, fuel)
  {
    match GetOptType(a, defaultOpt)
    case CsgBound =>
      r, next' := UnionIntersectOpt(a, b, defaultOpt, next, recip, fuel);
    case PolygonBound =>
      r, next' := UnionPolygonBounds(a, b, defaultOpt, next, recip, fuel);
    case NoOptimization =>
      r, next' := UnionNoOpt(a, b, defaultOpt, next, recip, fuel);
  }

  /** difference(CSG). Only the CSG_BOUND path makes the two box solids, and their
      storages are returned; on the other paths they are null and the result does not
      depend on them. */
  method Difference(a: CSG, b: CSG, defaultOpt: OptType, draw1: real, draw2: real, next: nat, recip: Recip, fuel: nat)
    returns (r: CSG, next': nat, ghost s1: PropertyStorage?, ghost s2: PropertyStorage?)
    requires BspTrees.Proper(a.polygons) && BspTrees.Proper(b.polygons)
    requires 0.0 <= draw1 < 1.0 && 0.0 <= draw2 < 1.0
    ensures GetOptType(a, defaultOpt) == CsgBound <==> s1 != null && s2 != null
    ensures s1 != null && s2 != null ==> (r, next') == Booleans.Difference(a, b, defaultOpt, s1, s2, next, recip, fuel)
    ensures s1 == null || s2 == null ==> forall t1: PropertyStorage, t2: PropertyStorage ::
      (r, next') == Booleans.Difference(a, b, defaultOpt, t1, t2, next, recip, fuel)
  {
    s1, s2 := null, null;
    match GetOptType(a, defaultOpt)
    case CsgBound =>
      r, next', s1, s2 := DifferenceCsgBounds(a, b, defaultOpt, draw1, draw2, next, recip, fuel);
    case PolygonBound =>
      r, next' := DifferencePolygonBounds(a, b, defaultOpt, next, recip, fuel);
    case NoOptimization =>
      r, next' := DifferenceNoOpt(a, b, defaultOpt, next, recip, fuel);
  }

  /** union(List<CSG>): the running result united with each solid in turn. */
  method UnionAll(a: CSG, cs: seq<CSG>, defaultOpt: OptType, next: nat, recip: Recip, fuel: nat) returns (r: CSG, next': nat)
    requires BspTrees.Proper(a.polygons) && Booleans.AllProper(cs)
    ensures (r, next') == Booleans.UnionAll(a, cs, defaultOpt, next, recip, fuel)
  {
    r, next' := a, next;
    for i := 0 to |cs|
      invariant (r, next') == Booleans.UnionAll(a, cs[..i], defaultOpt, next, recip, fuel)
    {
      assert cs[..i + 1][..i] == cs[..i];
      r, next' := Union(r, cs[i], defaultOpt, next', recip, fuel);
    }
    assert cs[..|cs|] == cs;
  }

  /** difference(List<CSG>): a clone for an empty list, otherwise the union of the list
      from its first solid on, then the difference with it. */
  method DifferenceAll(a: CSG, cs: seq<CSG>, defaultOpt: OptType, draw1: real, draw2: real, next: nat, recip: Recip, fuel: nat)
    returns (r: CSG, next': nat, ghost s1: PropertyStorage?, ghost s2: PropertyStorage?)
    requires BspTrees.Proper(a.polygons) && Booleans.AllProper(cs)
    requires 0.0 <= draw1 < 1.0 && 0.0 <= draw2 < 1.0
    ensures s1 != null && s2 != null ==> (r, next') == Booleans.DifferenceAll(a, cs, defaultOpt, s1, s2, next, recip, fuel)
    ensures s1 == null || s2 == null ==> forall t1: PropertyStorage, t2: PropertyStorage ::
      (r, next') == Booleans.DifferenceAll(a, cs, defaultOpt, t1, t2, next, recip, fuel)
  {
    if |cs| == 0 {
      var cl := CSGs.Clone(a, defaultOpt, next, recip);
      r, next' := cl.0, cl.1;
      s1, s2 := null, null;
      return;
    }
    var u, n := UnionAll(cs[0], cs[1..], defaultOpt, next, recip, fuel);
    r, next', s1, s2 := Difference(a, u, defaultOpt, draw1, draw2, n, recip, fuel);
  }

  /** intersect(List<CSG>): a clone for an empty list, otherwise the union of the list
      from its first solid on, then the intersection with it. */
  method IntersectAll(a: CSG, cs: seq<CSG>, defaultOpt: OptType, next: nat, recip: Recip, fuel: nat) returns (r: CSG, next': nat)
    requires BspTrees.Proper(a.polygons) && Booleans.AllProper(cs)
    ensures (r, next') == Booleans.IntersectAll(a, cs, defaultOpt, next, recip, fuel)
  {
    if |cs| == 0 {
      var cl := CSGs.Clone(a, defaultOpt, next, recip);
      r, next' := cl.0, cl.1;
      return;
    }
    var u, n := UnionAll(cs[0], cs[1..], defaultOpt, next, recip, fuel);
    r, next' := Intersect(a, u, defaultOpt, n, recip, fuel);
  }
}
