/**
 * CSharpCSG/Node.cs: a node of a BSP tree, updated in place. Every method is proved
 * against the function of the same name on BspTrees.Tree, the node's Model().
 */
module Nodes {
  import opened Vectors
  import opened Wrappers
  import Planes
  import opened Polygons
  import Splitting
  import BspTrees

  class Node {
    var polygons: seq<Polygon>
    var plane: Option<Planes.Plane>
    var front: Node?
    var back: Node?
    ghost var Repr: set<object>

    /** The node and its subtrees own disjoint sets of objects. */
    ghost predicate Valid()
      reads this, Repr
      decreases Repr
    {
      && this in Repr
      && (front != null ==> front in Repr && front.Repr <= Repr && this !in front.Repr && front.Valid())
      && (back != null ==> back in Repr && back.Repr <= Repr && this !in back.Repr && back.Valid())
      && (front != null && back != null ==> front.Repr !! back.Repr)
    }

    /** The tree of values this node stands for. */
    ghost function Model(): BspTrees.Tree
      reads this, Repr
      requires Valid()
      decreases Repr
    {
      BspTrees.Cell(polygons, plane,
                    if front == null then BspTrees.Nil else front.Model(),
                    if back == null then BspTrees.Nil else back.Model())
    }

    /** Node(): no polygons, no plane, no children. */
    constructor Empty()
      ensures Valid() && fresh(Repr)
      ensures Model() == BspTrees.Empty
    {
      polygons := [];
      plane := None;
      front := null;
      back := null;
      Repr := {this};
    }

    /** invert: the node's polygons are flipped one by one, the plane taken from the
        first polygon when the node has none, then flipped; the subtrees are inverted
        and swapped. */
    method Invert(recip: Recip)
      requires Valid()
      modifies Repr
      ensures Valid() && Repr == old(Repr)
      ensures Model() == BspTrees.Invert(old(Model()), recip)
      decreases Repr, 1
    {
      var qs := FlipEach(polygons);
      if plane.None? && |qs| == 0 {
        return;
      }
      var p := if plane.Some? then plane.value else Planes.Clone(qs[0].plane, recip);
      InvertChildren(recip);
      SetInverted(qs, Planes.Flip(p));
    }

    /** Both subtrees inverted, the front one first. */
    method InvertChildren(recip: Recip)
      requires Valid()
      modifies Repr
      ensures Valid() && Repr == old(Repr)
      ensures polygons == old(polygons) && plane == old(plane)
      ensures Model().front == BspTrees.Invert(old(Model()).front, recip)
      ensures Model().back == BspTrees.Invert(old(Model()).back, recip)
      decreases Repr, 0
    {
      if front != null {
        front.Invert(recip);
      }
      if back != null {
        back.Invert(recip);
      }
    }

    /** The flipped polygons and plane stored, and front and back swapped. */
    method SetInverted(qs: seq<Polygon>, p: Planes.Plane)
      requires Valid()
      modifies this
      ensures Valid() && Repr == old(Repr)
      ensures Model() == BspTrees.Cell(qs, Some(p), old(Model()).back, old(Model()).front)
    {
      polygons, plane, front, back := qs, Some(p), back, front;
    }

    /** clipPolygons: the list as it is when the node has no plane; otherwise each
        polygon split by the plane into a front and a back list, those clipped by the
        subtrees, and the back list dropped where there is no back subtree. */
    method ClipPolygons(ps: seq<Polygon>, next: nat, recip: Recip) returns (r: seq<Polygon>, next': nat)
      requires Valid()
      ensures (r, next') == BspTrees.Clip(Model(), ps, next, recip)
      decreases Repr
    {
      if plane.None? {
        return ps, next;
      }
      var fr, br;
      fr, br, next' := SplitEachForClip(plane.value, ps, next, recip);
      if front != null {
        fr, next' := front.ClipPolygons(fr, next', recip);
      }
      if back != null {
        br, next' := back.ClipPolygons(br, next', recip);
      } else {
        br := [];
      }
      r := fr + br;
    }

    /** clipTo: the node's polygons replaced by their clipping against bsp, and the
        same for every node below. bsp is a separate tree and stays as it is. */
    method ClipTo(bsp: Node, next: nat, recip: Recip) returns (next': nat)
      requires Valid() && bsp.Valid() && Repr !! bsp.Repr
      modifies Repr
      ensures Valid() && Repr == old(Repr)
      ensures (Model(), next') == BspTrees.ClipTo(old(Model()), bsp.Model(), next, recip)
      decreases Repr, 1
    {
      var qs;
      qs, next' := bsp.ClipPolygons(polygons, next, recip);
      ghost var m := bsp.Model();
      SetPolygons(qs);
      assert bsp.Model() == m;
      next' := ClipChildren(bsp, next', recip);
    }

    /** The node's list replaced, as clipTo does with the clipped list. */
    method SetPolygons(qs: seq<Polygon>)
      requires Valid()
      modifies this
      ensures Valid() && Repr == old(Repr)
      ensures Model() == BspTrees.Cell(qs, old(plane), old(Model()).front, old(Model()).back)
    {
      polygons := qs;
    }

    /** Both subtrees clipped against bsp, the front one first. */
    method ClipChildren(bsp: Node, next: nat, recip: Recip) returns (next': nat)
      requires Valid() && bsp.Valid() && Repr !! bsp.Repr
      modifies Repr
      ensures Valid() && Repr == old(Repr)
      ensures polygons == old(polygons) && plane == old(plane)
      ensures var front' := BspTrees.ClipTo(old(Model()).front, bsp.Model(), next, recip);
        var back' := BspTrees.ClipTo(old(Model()).back, bsp.Model(), front'.1, recip);
        Model().front == front'.0 && Model().back == back'.0 && next' == back'.1
      decreases Repr, 0
    {
      next' := next;
      if front != null {
        next' := front.ClipTo(bsp, next', recip);
      }
      if back != null {
        next' := back.ClipTo(bsp, next', recip);
      }
    }

    /** allPolygons: the node's polygons, then the front subtree's, then the back's. */
    method AllPolygons() returns (r: seq<Polygon>)
      requires Valid()
      ensures r == BspTrees.AllPolygons(Model())
      decreases Repr
    {
      r := polygons;
      if front != null {
        var fr := front.AllPolygons();
        r := r + fr;
      }
      if back != null {
        var br := back.AllPolygons();
        r := r + br;
      }
    }

    /** build: nothing for an empty list; otherwise the plane is taken from the first
        polygon when the node has none, each valid polygon, once per object, is split
        by it with the node's own list in both coplanar roles, and the front and back
        lists are built into the children, made when absent. The fuel bounds the depth. */
    method Build(ps: seq<Polygon>, next: nat, recip: Recip, fuel: nat) returns (next': nat)
      requires Valid()
      modifies Repr
      ensures Valid() && fresh(Repr - old(Repr))
      ensures (Model(), next') == BspTrees.Build(old(Model()), ps, next, recip, fuel)
      decreases fuel, 1
    {
      if |ps| == 0 || fuel == 0 {
        return next;
      }
      next' := BuildNonEmpty(ps, next, recip, fuel);
    }

    /** build on a non-empty list with fuel left: the partition, then the children. */
    method BuildNonEmpty(ps: seq<Polygon>, next: nat, recip: Recip, fuel: nat) returns (next': nat)
      requires Valid() && |ps| > 0 && fuel > 0
      modifies Repr
      ensures Valid() && fresh(Repr - old(Repr))
      ensures (Model(), next') == BspTrees.Build(old(Model()), ps, next, recip, fuel)
      decreases fuel, 0
    {
      ghost var t := Model();
      var fs, bs;
      fs, bs, next' := Partition(ps, next, recip);
      ghost var t1, n1 := Model(), next';
      next' := BuildChildren(fs, bs, next', recip, fuel - 1);
      BspTrees.BuildOfParts(t, t1, ps, next, recip, fuel, fs, bs, n1, Model(), next');
    }

    /** The second half of build: the front list built into the front child, then the
        back list into the back child. */
    method BuildChildren(fs: seq<Polygon>, bs: seq<Polygon>, next: nat, recip: Recip, fuel: nat) returns (next': nat)
      requires Valid()
      modifies Repr
      ensures Valid() && fresh(Repr - old(Repr))
      ensures var f := BspTrees.Descend(old(Model()).front, fs, next, recip, fuel);
        var b := BspTrees.Descend(old(Model()).back, bs, f.1, recip, fuel);
        Model() == BspTrees.Cell(old(Model()).polygons, old(Model()).plane, f.0, b.0) && next' == b.1
      decreases fuel, 4
    {
      next' := BuildFront(fs, next, recip, fuel);
      next' := BuildBack(bs, next', recip, fuel);
    }

    /** The first half of build: the plane chosen, and the valid polygons, each object
        once, split by it; the node keeps the coplanar ones. */
    method Partition(ps: seq<Polygon>, next: nat, recip: Recip) returns (fs: seq<Polygon>, bs: seq<Polygon>, next': nat)
      requires Valid() && |ps| > 0
      modifies this
      ensures Valid() && Repr == old(Repr)
      ensures var p := if old(Model()).plane.Some? then old(Model()).plane.value else Planes.Clone(ps[0].plane, recip);
        var parts := BspTrees.Partition(p, ps, next, recip);
        && Model() == BspTrees.Cell(old(Model()).polygons + parts.0, Some(p), old(Model()).front, old(Model()).back)
        && fs == parts.1 && bs == parts.2 && next' == parts.3
    {
      var p := if plane.Some? then plane.value else Planes.Clone(ps[0].plane, recip);
      var qs := BspTrees.Distinct(BspTrees.ValidOnly(ps));
      var own;
      own, fs, bs, next' := SplitEachForBuild(p, polygons, qs, next, recip);
      SetPartitioned(own, p);
    }

    /** The node keeps the coplanar polygons and takes the splitting plane. */
    method SetPartitioned(own: seq<Polygon>, p: Planes.Plane)
      requires Valid()
      modifies this
      ensures Valid() && Repr == old(Repr)
      ensures Model() == BspTrees.Cell(own, Some(p), old(Model()).front, old(Model()).back)
    {
      polygons, plane := own, Some(p);
    }

    /** A non-empty front list built into the front child, made when absent. */
    method BuildFront(fs: seq<Polygon>, next: nat, recip: Recip, fuel: nat) returns (next': nat)
      requires Valid()
      modifies Repr
      ensures Valid() && fresh(Repr - old(Repr))
      ensures Model() == BspTrees.Cell(old(polygons), old(plane), Model().front, old(Model()).back)
      ensures var d := BspTrees.Descend(old(Model()).front, fs, next, recip, fuel); Model().front == d.0 && next' == d.1
      decreases fuel, 3
    {
      next' := next;
      if |fs| > 0 {
        GrowFront();
        next' := BuildIntoFront(fs, next, recip, fuel);
      }
    }

    /** The build of a list into the existing front child. */
    method BuildIntoFront(fs: seq<Polygon>, next: nat, recip: Recip, fuel: nat) returns (next': nat)
      requires Valid() && front != null
      modifies Repr
      ensures Valid() && fresh(Repr - old(Repr))
      ensures Model() == BspTrees.Cell(old(polygons), old(plane), Model().front, Model().back)
      ensures Model().back == old(Model()).back
      ensures var r := BspTrees.Build(old(Model()).front, fs, next, recip, fuel); Model().front == r.0 && next' == r.1
      decreases fuel, 2
    {
      next' := front.Build(fs, next, recip, fuel);
      Repr := Repr + front.Repr;
    }

    /** A front child, a new empty node when there is none. */
    method GrowFront()
      requires Valid()
      modifies this
      ensures Valid() && fresh(Repr - old(Repr)) && front != null
      ensures Model() == BspTrees.Cell(polygons, plane, BspTrees.Grown(old(Model()).front), old(Model()).back)
      ensures polygons == old(polygons) && plane == old(plane)
    {
      if front == null {
        front := new Node.Empty();
        Repr := Repr + front.Repr;
      }
    }

    /** A non-empty back list built into the back child, made when absent. */
    method BuildBack(bs: seq<Polygon>, next: nat, recip: Recip, fuel: nat) returns (next': nat)
      requires Valid()
      modifies Repr
      ensures Valid() && fresh(Repr - old(Repr))
      ensures Model() == BspTrees.Cell(old(polygons), old(plane), old(Model()).front, Model().back)
      ensures var d := BspTrees.Descend(old(Model()).back, bs, next, recip, fuel); Model().back == d.0 && next' == d.1
      decreases fuel, 3
    {
      next' := next;
      if |bs| > 0 {
        GrowBack();
        next' := BuildIntoBack(bs, next, recip, fuel);
      }
    }

    /** The build of a list into the existing back child. */
    method BuildIntoBack(bs: seq<Polygon>, next: nat, recip: Recip, fuel: nat) returns (next': nat)
      requires Valid() && back != null
      modifies Repr
      ensures Valid() && fresh(Repr - old(Repr))
      ensures Model() == BspTrees.Cell(old(polygons), old(plane), Model().front, Model().back)
      ensures Model().front == old(Model()).front
      ensures var r := BspTrees.Build(old(Model()).back, bs, next, recip, fuel); Model().back == r.0 && next' == r.1
      decreases fuel, 2
    {
      next' := back.Build(bs, next, recip, fuel);
      Repr := Repr + back.Repr;
    }

    /** A back child, a new empty node when there is none. */
    method GrowBack()
      requires Valid()
      modifies this
      ensures Valid() && fresh(Repr - old(Repr)) && back != null
      ensures Model() == BspTrees.Cell(polygons, plane, old(Model()).front, BspTrees.Grown(old(Model()).back))
      ensures polygons == old(polygons) && plane == old(plane)
    {
      if back == null {
        back := new Node.Empty();
        Repr := Repr + back.Repr;
      }
    }

    /** clone: a new node with a copy of the plane, clones of the subtrees, front
        first, and clones of the polygons. */
    method Clone(next: nat, recip: Recip) returns (node: Node, next': nat)
      requires Valid() && BspTrees.ProperTree(Model())
      ensures node.Valid() && fresh(node.Repr)
      ensures (node.Model(), next') == BspTrees.CloneTree(Model(), next, recip)
      decreases Repr, 2
    {
      ghost var m := Model();
      var p := if plane.Some? then Some(Planes.Clone(plane.value, recip)) else None;
      var f, b;
      ghost var fm, bm, fn;
      f, b, next', fm, bm, fn := CloneChildren(next, recip);
      ghost var bn := next';
      var copies := BspTrees.CloneAll(polygons, next', recip);
      node := new Node.Make(copies.0, p, f, b, fm, bm);
      next' := copies.1;
      BspTrees.CloneTreeCell(m, next, recip, (fm, fn), (bm, bn));
    }

    /** Clones of both subtrees, the front one first, with their trees and the
        reference that follows the front one's. */
    method CloneChildren(next: nat, recip: Recip)
      returns (f: Node?, b: Node?, next': nat, ghost fm: BspTrees.Tree, ghost bm: BspTrees.Tree, ghost fn: nat)
      requires Valid() && BspTrees.ProperTree(Model())
      ensures f != null ==> f.Valid() && fresh(f.Repr) && f.Model() == fm
      ensures b != null ==> b.Valid() && fresh(b.Repr) && b.Model() == bm
      ensures f != null && b != null ==> f.Repr !! b.Repr
      ensures f == null ==> fm == BspTrees.Nil
      ensures b == null ==> bm == BspTrees.Nil
      ensures (fm, fn) == BspTrees.CloneTree(Model().front, next, recip)
      ensures (bm, next') == BspTrees.CloneTree(Model().back, fn, recip)
      decreases Repr, 1
    {
      f, next' := CloneFront(next, recip);
      fm := if f == null then BspTrees.Nil else f.Model();
      fn := next';
      b, next' := CloneBack(next', recip);
      bm := if b == null then BspTrees.Nil else b.Model();
    }

    /** A clone of the front subtree, or null when there is none. */
    method CloneFront(next: nat, recip: Recip) returns (f: Node?, next': nat)
      requires Valid() && BspTrees.ProperTree(Model())
      ensures f != null ==> f.Valid() && fresh(f.Repr)
      ensures var r := BspTrees.CloneTree(Model().front, next, recip);
        (if f == null then BspTrees.Nil else f.Model()) == r.0 && next' == r.1
      decreases Repr, 0
    {
      f, next' := null, next;
      if front != null {
        f, next' := front.Clone(next, recip);
      }
    }

    /** A clone of the back subtree, or null when there is none. */
    method CloneBack(next: nat, recip: Recip) returns (b: Node?, next': nat)
      requires Valid() && BspTrees.ProperTree(Model())
      ensures b != null ==> b.Valid() && fresh(b.Repr)
      ensures var r := BspTrees.CloneTree(Model().back, next, recip);
        (if b == null then BspTrees.Nil else b.Model()) == r.0 && next' == r.1
      decreases Repr, 0
    {
      b, next' := null, next;
      if back != null {
        b, next' := back.Clone(next, recip);
      }
    }

    /** A node with the given polygons, plane and children, as clone fills it in. */
    constructor Make(ps: seq<Polygon>, p: Option<Planes.Plane>, f: Node?, b: Node?,
                     ghost fm: BspTrees.Tree, ghost bm: BspTrees.Tree)
      requires f != null ==> f.Valid() && f.Model() == fm
      requires b != null ==> b.Valid() && b.Model() == bm
      requires f == null ==> fm == BspTrees.Nil
      requires b == null ==> bm == BspTrees.Nil
      requires f != null && b != null ==> f.Repr !! b.Repr
      ensures Valid()
      ensures Repr == {this} + (if f != null then f.Repr else {}) + (if b != null then b.Repr else {})
      ensures Model() == BspTrees.Cell(ps, p, fm, bm)
    {
      polygons, plane, front, back := ps, p, f, b;
      Repr := {this} + (if f != null then f.Repr else {}) + (if b != null then b.Repr else {});
    }
  }

  /** The loop of clipPolygons: each polygon split by the plane, with one list in both
      front roles and another in both back roles. */
  method SplitEachForClip(plane: Planes.Plane, ps: seq<Polygon>, next: nat, recip: Recip)
    returns (fs: seq<Polygon>, bs: seq<Polygon>, next': nat)
    ensures (fs, bs, next') == BspTrees.SplitForClip(plane, ps, next, recip)
  {
    var frontP := new Splitting.PolygonList([]);
    var backP := new Splitting.PolygonList([]);
    next' := next;
    var i := 0;
    while i < |ps|
      invariant 0 <= i <= |ps|
      invariant frontP.items == BspTrees.SplitForClip(plane, ps[..i], next, recip).0
      invariant backP.items == BspTrees.SplitForClip(plane, ps[..i], next, recip).1
      invariant next' == BspTrees.SplitForClip(plane, ps[..i], next, recip).2
    {
      BspTrees.SplitForClipStep(plane, ps, i, next, recip);
      next' := ClipStep(plane, ps[i], frontP, backP, next', recip);
      i := i + 1;
    }
    assert ps[..i] == ps;
    fs, bs := frontP.items, backP.items;
  }

  /** One turn of the loop of clipPolygons: p split into two distinct lists, the
      coplanar pieces going with the side they face. */
  method ClipStep(plane: Planes.Plane, p: Polygon, frontP: Splitting.PolygonList,
                  backP: Splitting.PolygonList, next: nat, recip: Recip) returns (next': nat)
    requires frontP != backP
    modifies frontP, backP
    ensures var s := Splitting.SplitPolygon(plane, p, next, recip);
      && frontP.items == old(frontP.items) + s.coplanarFront + s.front
      && backP.items == old(backP.items) + s.coplanarBack + s.back
      && next' == s.next
  {
    Splitting.ReceivedByTwo(frontP, backP, Splitting.SplitPolygon(plane, p, next, recip));
    next' := Splitting.SplitInto(plane, p, frontP, backP, frontP, backP, next, recip);
  }

  /** The loop of build: each polygon split by the plane, with one list in both
      coplanar roles. The coplanar pieces are gathered apart and then appended to the
      node's own list, which ends as if they had been appended one by one. */
  method SplitEachForBuild(plane: Planes.Plane, polygons: seq<Polygon>, qs: seq<Polygon>, next: nat, recip: Recip)
    returns (own: seq<Polygon>, fs: seq<Polygon>, bs: seq<Polygon>, next': nat)
    ensures own == polygons + BspTrees.SplitForBuild(plane, qs, next, recip).0
    ensures fs == BspTrees.SplitForBuild(plane, qs, next, recip).1
    ensures bs == BspTrees.SplitForBuild(plane, qs, next, recip).2
    ensures next' == BspTrees.SplitForBuild(plane, qs, next, recip).3
  {
    var ownP := new Splitting.PolygonList([]);
    var frontP := new Splitting.PolygonList([]);
    var backP := new Splitting.PolygonList([]);
    next' := next;
    var i := 0;
    ghost var r := BspTrees.SplitForBuild(plane, [], next, recip);
    while i < |qs|
      invariant 0 <= i <= |qs|
      invariant r == BspTrees.SplitForBuild(plane, qs[..i], next, recip)
      invariant ownP.items == r.0 && frontP.items == r.1 && backP.items == r.2 && next' == r.3
    {
      BspTrees.SplitForBuildStep(plane, qs, i, next, recip);
      ghost var s := Splitting.SplitPolygon(plane, qs[i], next', recip);
      next' := BuildStep(plane, qs[i], ownP, frontP, backP, next', recip);
      r := (r.0 + s.coplanarFront + s.coplanarBack, r.1 + s.front, r.2 + s.back, s.next);
      i := i + 1;
    }
    assert qs[..i] == qs;
    own, fs, bs := polygons + ownP.items, frontP.items, backP.items;
  }

  /** One turn of the loop of build: p split into three distinct lists, the node's
      own list in both coplanar roles. */
  method BuildStep(plane: Planes.Plane, p: Polygon, ownP: Splitting.PolygonList, frontP: Splitting.PolygonList,
                   backP: Splitting.PolygonList, next: nat, recip: Recip) returns (next': nat)
    requires ownP != frontP && ownP != backP && frontP != backP
    modifies ownP, frontP, backP
    ensures var s := Splitting.SplitPolygon(plane, p, next, recip);
      && ownP.items == old(ownP.items) + (s.coplanarFront + s.coplanarBack)
      && frontP.items == old(frontP.items) + s.front
      && backP.items == old(backP.items) + s.back
      && next' == s.next
  {
    Splitting.ReceivedByThree(ownP, frontP, backP, Splitting.SplitPolygon(plane, p, next, recip));
    next' := Splitting.SplitInto(plane, p, ownP, ownP, frontP, backP, next, recip);
  }

  /** polygons.ForEach(flip): every polygon flipped, in order. */
  method FlipEach(ps: seq<Polygon>) returns (qs: seq<Polygon>)
    ensures qs == BspTrees.FlipAll(ps)
  {
    qs := ps;
    var i := 0;
    while i < |qs|
      invariant 0 <= i <= |qs| == |ps|
      invariant forall j :: 0 <= j < i ==> qs[j] == Flip(ps[j])
      invariant forall j :: i <= j < |qs| ==> qs[j] == ps[j]
    {
      qs := qs[i := Flip(qs[i])];
      i := i + 1;
    }
  }

  /** Node(polygons): an empty node built from the list. */
  method NewNode(ps: seq<Polygon>, next: nat, recip: Recip, fuel: nat) returns (node: Node, next': nat)
    ensures node.Valid() && fresh(node.Repr)
    ensures (node.Model(), next') == BspTrees.Build(BspTrees.Empty, ps, next, recip, fuel)
  {
    node := new Node.Empty();
    next' := node.Build(ps, next, recip, fuel);
  }
}
