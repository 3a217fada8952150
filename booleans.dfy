/**
 * The boolean operations of CSharpCSG/CSG.cs as functions: union, difference and
 * intersect with their bounding-box short-cuts, the dispatch on the solid's
 * short-cut and the list overloads. Each operation clones both operands, builds a
 * BSP tree from each clone and runs a fixed sequence of tree operations; the
 * methods in solids.dfy run the same sequences on Node objects and are proved
 * against these functions.
 */
module Booleans {
  import opened Vectors
  import opened Wrappers
  import opened Polygons
  import Boxes
  import opened Storage
  import opened BspTrees
  import opened CSGs
  import Cubes

  /** The tree `new Node(c.clone().polygons)` makes. */
  function NodeOf(c: CSG, defaultOpt: OptType, next: nat, recip: Recip, fuel: nat): (r: (Tree, nat))
    requires Proper(c.polygons)
  {
    var (copy, n) := CSGs.Clone(c, defaultOpt, next, recip);
    Build(Empty, copy.polygons, n, recip, fuel)
  }

  /** The node calls of _unionNoOpt: a.clipTo(b); b.clipTo(a); b.invert(); b.clipTo(a);
      b.invert(); a.build(b.allPolygons()); then a.allPolygons(). */
  function UnionTrees(a: Tree, b: Tree, next: nat, recip: Recip, fuel: nat): (r: (seq<Polygon>, nat))
  {
    var (a1, n1) := ClipTo(a, b, next, recip);
    var (b1, n2) := ClipTo(b, a1, n1, recip);
    var (b2, n3) := ClipTo(Invert(b1, recip), a1, n2, recip);
    var (a2, n4) := Build(a1, AllPolygons(Invert(b2, recip)), n3, recip, fuel);
    (AllPolygons(a2), n4)
  }

  /** The node calls of _differenceNoOpt: a.invert(); a.clipTo(b); b.clipTo(a);
      b.invert(); b.clipTo(a); b.invert(); a.build(b.allPolygons()); a.invert(); then
      a.allPolygons(). */
  function DifferenceTrees(a: Tree, b: Tree, next: nat, recip: Recip, fuel: nat): (r: (seq<Polygon>, nat))
  {
    var (a1, n1) := ClipTo(Invert(a, recip), b, next, recip);
    var (b1, n2) := ClipTo(b, a1, n1, recip);
    var (b2, n3) := ClipTo(Invert(b1, recip), a1, n2, recip);
    var (a2, n4) := Build(a1, AllPolygons(Invert(b2, recip)), n3, recip, fuel);
    (AllPolygons(Invert(a2, recip)), n4)
  }

  /** The node calls of intersect: a.invert(); b.clipTo(a); b.invert(); a.clipTo(b);
      b.clipTo(a); a.build(b.allPolygons()); a.invert(); then a.allPolygons(). */
  function IntersectTrees(a: Tree, b: Tree, next: nat, recip: Recip, fuel: nat): (r: (seq<Polygon>, nat))
  {
    var a1 := Invert(a, recip);
    var (b1, n1) := ClipTo(b, a1, next, recip);
    var b2 := Invert(b1, recip);
    var (a2, n2) := ClipTo(a1, b2, n1, recip);
    var (b3, n3) := ClipTo(b2, a2, n2, recip);
    var (a3, n4) := Build(a2, AllPolygons(b3), n3, recip, fuel);
    (AllPolygons(Invert(a3, recip)), n4)
  }

  /** _unionNoOpt: both operands' clones built into trees, united, with this solid's
      short-cut. */
  function UnionNoOpt(a: CSG, b: CSG, defaultOpt: OptType, next: nat, recip: Recip, fuel: nat): (r: (CSG, nat))
    requires Proper(a.polygons) && Proper(b.polygons)
  {
    var (ta, n1) := NodeOf(a, defaultOpt, next, recip, fuel);
    var (tb, n2) := NodeOf(b, defaultOpt, n1, recip, fuel);
    var (ps, n3) := UnionTrees(ta, tb, n2, recip, fuel);
    (CSG(ps, Some(GetOptType(a, defaultOpt))), n3)
  }

  /** _differenceNoOpt. */
  function DifferenceNoOpt(a: CSG, b: CSG, defaultOpt: OptType, next: nat, recip: Recip, fuel: nat): (r: (CSG, nat))
    requires Proper(a.polygons) && Proper(b.polygons)
  {
    var (ta, n1) := NodeOf(a, defaultOpt, next, recip, fuel);
    var (tb, n2) := NodeOf(b, defaultOpt, n1, recip, fuel);
    var (ps, n3) := DifferenceTrees(ta, tb, n2, recip, fuel);
    (CSG(ps, Some(GetOptType(a, defaultOpt))), n3)
  }

  /** intersect: there is no short-cut for intersection. */
  function Intersect(a: CSG, b: CSG, defaultOpt: OptType, next: nat, recip: Recip, fuel: nat): (r: (CSG, nat))
    requires Proper(a.polygons) && Proper(b.polygons)
  {
    var (ta, n1) := NodeOf(a, defaultOpt, next, recip, fuel);
    var (tb, n2) := NodeOf(b, defaultOpt, n1, recip, fuel);
    var (ps, n3) := IntersectTrees(ta, tb, n2, recip, fuel);
    (CSG(ps, Some(GetOptType(a, defaultOpt))), n3)
  }

  // ---------------------------------------------------------------------------
  // Where the results come from.

  /** Every polygon was made from reference next on. */
  predicate AllMade(ps: seq<Polygon>, next: nat)
  {
    forall q :: q in ps ==> Made(q, next)
  }

  lemma AllMadeProper(ps: seq<Polygon>, next: nat)
    requires AllMade(ps, next)
    ensures Proper(ps)
  {
    forall i | 0 <= i < |ps| ensures |ps[i].vertices| >= 3 {
      assert ps[i] in ps;
    }
  }

  /** The tree built from a solid's clones is well formed and holds only new polygons. */
  lemma NodeOfMade(c: CSG, defaultOpt: OptType, next: nat, recip: Recip, fuel: nat)
    requires Proper(c.polygons)
    ensures var (t, n) := NodeOf(c, defaultOpt, next, recip, fuel);
      WellFormed(t) && AllMade(AllPolygons(t), next) && next <= n
  {
    var (copy, n) := CSGs.Clone(c, defaultOpt, next, recip);
    CloneCopies(c, defaultOpt, next, recip);
    forall q | q in copy.polygons ensures Made(q, next) {
      var i :| 0 <= i < |copy.polygons| && copy.polygons[i] == q;
      assert |Positions(q.vertices)| == |Positions(c.polygons[i].vertices)|;
    }
    BuildMade(Empty, copy.polygons, n, recip, fuel, next);
    BuildWellFormed(Empty, copy.polygons, n, recip, fuel);
  }

  /** Building into a tree of new polygons from new polygons gives new polygons. */
  lemma BuildMade(t: Tree, ps: seq<Polygon>, n: nat, recip: Recip, fuel: nat, next: nat)
    requires next <= n && AllMade(AllPolygons(t), next) && AllMade(ps, next)
    ensures AllMade(AllPolygons(Build(t, ps, n, recip, fuel).0), next)
  {
    BuildAddsOnly(t, ps, n, recip, fuel);
  }

  /** Clipping a tree of new polygons leaves new polygons, and keeps it well formed. */
  lemma ClipToMade(t: Tree, bsp: Tree, n: nat, recip: Recip, next: nat)
    requires next <= n && AllMade(AllPolygons(t), next)
    ensures AllMade(AllPolygons(ClipTo(t, bsp, n, recip).0), next)
    ensures WellFormed(t) ==> WellFormed(ClipTo(t, bsp, n, recip).0)
  {
    ClipToKeepsShape(t, bsp, n, recip);
  }

  /** Inverting a well-formed tree of new polygons flips them: still new, still well formed. */
  lemma InvertMade(t: Tree, recip: Recip, next: nat)
    requires WellFormed(t) && AllMade(AllPolygons(t), next)
    ensures WellFormed(Invert(t, recip)) && AllMade(AllPolygons(Invert(t, recip)), next)
  {
    InvertTwice(t, recip);
    InvertFlipsEveryPolygon(t, recip);
    var ps := AllPolygons(t);
    forall q | q in AllPolygons(Invert(t, recip)) ensures Made(q, next) {
      assert q in multiset(FlipAll(ps));
      var i :| 0 <= i < |ps| && FlipAll(ps)[i] == q;
      assert ps[i] in ps;
    }
  }

  lemma UnionTreesMade(a: Tree, b: Tree, n: nat, recip: Recip, fuel: nat, next: nat)
    requires WellFormed(a) && WellFormed(b) && next <= n
    requires AllMade(AllPolygons(a), next) && AllMade(AllPolygons(b), next)
    ensures AllMade(UnionTrees(a, b, n, recip, fuel).0, next)
  {
    var (a1, n1) := ClipTo(a, b, n, recip);
    ClipToMade(a, b, n, recip, next);
    var (b1, n2) := ClipTo(b, a1, n1, recip);
    ClipToMade(b, a1, n1, recip, next);
    InvertMade(b1, recip, next);
    var (b2, n3) := ClipTo(Invert(b1, recip), a1, n2, recip);
    ClipToMade(Invert(b1, recip), a1, n2, recip, next);
    InvertMade(b2, recip, next);
    BuildMade(a1, AllPolygons(Invert(b2, recip)), n3, recip, fuel, next);
  }

  lemma DifferenceTreesMade(a: Tree, b: Tree, n: nat, recip: Recip, fuel: nat, next: nat)
    requires WellFormed(a) && WellFormed(b) && next <= n
    requires AllMade(AllPolygons(a), next) && AllMade(AllPolygons(b), next)
    ensures AllMade(DifferenceTrees(a, b, n, recip, fuel).0, next)
  {
    InvertMade(a, recip, next);
    var (a1, n1) := ClipTo(Invert(a, recip), b, n, recip);
    ClipToMade(Invert(a, recip), b, n, recip, next);
    var (b1, n2) := ClipTo(b, a1, n1, recip);
    ClipToMade(b, a1, n1, recip, next);
    InvertMade(b1, recip, next);
    var (b2, n3) := ClipTo(Invert(b1, recip), a1, n2, recip);
    ClipToMade(Invert(b1, recip), a1, n2, recip, next);
    InvertMade(b2, recip, next);
    var (a2, n4) := Build(a1, AllPolygons(Invert(b2, recip)), n3, recip, fuel);
    BuildMade(a1, AllPolygons(Invert(b2, recip)), n3, recip, fuel, next);
    BuildWellFormed(a1, AllPolygons(Invert(b2, recip)), n3, recip, fuel);
    InvertMade(a2, recip, next);
  }

  lemma IntersectTreesMade(a: Tree, b: Tree, n: nat, recip: Recip, fuel: nat, next: nat)
    requires WellFormed(a) && WellFormed(b) && next <= n
    requires AllMade(AllPolygons(a), next) && AllMade(AllPolygons(b), next)
    ensures AllMade(IntersectTrees(a, b, n, recip, fuel).0, next)
  {
    var a1 := Invert(a, recip);
    InvertMade(a, recip, next);
    var (b1, n1) := ClipTo(b, a1, n, recip);
    ClipToMade(b, a1, n, recip, next);
    var b2 := Invert(b1, recip);
    InvertMade(b1, recip, next);
    var (a2, n2) := ClipTo(a1, b2, n1, recip);
    ClipToMade(a1, b2, n1, recip, next);
    var (b3, n3) := ClipTo(b2, a2, n2, recip);
    ClipToMade(b2, a2, n2, recip, next);
    var (a3, n4) := Build(a2, AllPolygons(b3), n3, recip, fuel);
    BuildMade(a2, AllPolygons(b3), n3, recip, fuel, next);
    BuildWellFormed(a2, AllPolygons(b3), n3, recip, fuel);
    InvertMade(a3, recip, next);
  }

  /** The un-optimised union works on clones only: every polygon of the result is a
      new object, made from reference next on, with at least three vertices, so the
      result shares no polygon with either operand. */
  lemma UnionMakesNew(a: CSG, b: CSG, defaultOpt: OptType, next: nat, recip: Recip, fuel: nat)
    requires Proper(a.polygons) && Proper(b.polygons)
    ensures var (r, n) := UnionNoOpt(a, b, defaultOpt, next, recip, fuel);
      AllMade(r.polygons, next) && Proper(r.polygons) && next <= n && r.optType == Some(GetOptType(a, defaultOpt))
  {
    var (ta, n1) := NodeOf(a, defaultOpt, next, recip, fuel);
    NodeOfMade(a, defaultOpt, next, recip, fuel);
    var (tb, n2) := NodeOf(b, defaultOpt, n1, recip, fuel);
    NodeOfMade(b, defaultOpt, n1, recip, fuel);
    UnionTreesMade(ta, tb, n2, recip, fuel, next);
    AllMadeProper(UnionNoOpt(a, b, defaultOpt, next, recip, fuel).0.polygons, next);
  }

  /** The un-optimised difference works on clones only. */
  lemma DifferenceMakesNew(a: CSG, b: CSG, defaultOpt: OptType, next: nat, recip: Recip, fuel: nat)
    requires Proper(a.polygons) && Proper(b.polygons)
    ensures var (r, n) := DifferenceNoOpt(a, b, defaultOpt, next, recip, fuel);
      AllMade(r.polygons, next) && Proper(r.polygons) && next <= n && r.optType == Some(GetOptType(a, defaultOpt))
  {
    var (ta, n1) := NodeOf(a, defaultOpt, next, recip, fuel);
    NodeOfMade(a, defaultOpt, next, recip, fuel);
    var (tb, n2) := NodeOf(b, defaultOpt, n1, recip, fuel);
    NodeOfMade(b, defaultOpt, n1, recip, fuel);
    DifferenceTreesMade(ta, tb, n2, recip, fuel, next);
    AllMadeProper(DifferenceNoOpt(a, b, defaultOpt, next, recip, fuel).0.polygons, next);
  }

  /** intersect works on clones only. */
  lemma IntersectMakesNew(a: CSG, b: CSG, defaultOpt: OptType, next: nat, recip: Recip, fuel: nat)
    requires Proper(a.polygons) && Proper(b.polygons)
    ensures var (r, n) := Intersect(a, b, defaultOpt, next, recip, fuel);
      AllMade(r.polygons, next) && Proper(r.polygons) && next <= n && r.optType == Some(GetOptType(a, defaultOpt))
  {
    var (ta, n1) := NodeOf(a, defaultOpt, next, recip, fuel);
    NodeOfMade(a, defaultOpt, next, recip, fuel);
    var (tb, n2) := NodeOf(b, defaultOpt, n1, recip, fuel);
    NodeOfMade(b, defaultOpt, n1, recip, fuel);
    IntersectTreesMade(ta, tb, n2, recip, fuel, next);
    AllMadeProper(Intersect(a, b, defaultOpt, next, recip, fuel).0.polygons, next);
  }

  // ---------------------------------------------------------------------------
  // An operand without polygons: a node that was never built has no plane, clips
  // nothing away and is not inverted.

  /** Clipping by a node that was never built keeps every polygon. */
  lemma {:induction false} ClipToByEmpty(t: Tree, next: nat, recip: Recip)
    ensures ClipTo(t, Empty, next, recip) == (t, next)
  {
    match t
    case Nil =>
    case Cell(ps, plane, f, b) =>
      ClipToByEmpty(f, next, recip);
      ClipToByEmpty(b, next, recip);
  }

  /** A node that was never built stays so when clipped. */
  lemma EmptyClipped(bsp: Tree, next: nat, recip: Recip)
    ensures ClipTo(Empty, bsp, next, recip) == (Empty, next)
  {
    ClipEmpty(bsp, next, recip);
  }

  /** A solid without polygons gives the node that was never built. */
  lemma NodeOfNothing(c: CSG, defaultOpt: OptType, next: nat, recip: Recip, fuel: nat)
    requires c.polygons == []
    ensures NodeOf(c, defaultOpt, next, recip, fuel) == (Empty, next)
  {
  }

  /** Union with a solid without polygons is this solid's clones built into a tree and
      read back: nothing is clipped away and nothing is added. */
  lemma UnionWithNothing(a: CSG, b: CSG, defaultOpt: OptType, next: nat, recip: Recip, fuel: nat)
    requires Proper(a.polygons) && b.polygons == []
    ensures var (ta, n) := NodeOf(a, defaultOpt, next, recip, fuel);
      UnionNoOpt(a, b, defaultOpt, next, recip, fuel) == (CSG(AllPolygons(ta), Some(GetOptType(a, defaultOpt))), n)
  {
    var (ta, n1) := NodeOf(a, defaultOpt, next, recip, fuel);
    NodeOfNothing(b, defaultOpt, n1, recip, fuel);
    ClipToByEmpty(ta, n1, recip);
    EmptyClipped(ta, n1, recip);
  }

  /** The difference of a solid without polygons and B is not empty: it is B's clones,
      built into a tree, rebuilt into a second tree and inverted, so it holds those
      polygons flipped. */
  lemma DifferenceOfNothing(a: CSG, b: CSG, defaultOpt: OptType, next: nat, recip: Recip, fuel: nat)
    requires a.polygons == [] && Proper(b.polygons)
    ensures var (tb, n) := NodeOf(b, defaultOpt, next, recip, fuel);
      var (t, n') := Build(Empty, AllPolygons(tb), n, recip, fuel);
      var (r, m) := DifferenceNoOpt(a, b, defaultOpt, next, recip, fuel);
      && r.polygons == AllPolygons(Invert(t, recip))
      && multiset(r.polygons) == multiset(FlipAll(AllPolygons(t)))
      && m == n'
  {
    var (tb, n) := NodeOf(b, defaultOpt, next, recip, fuel);
    NodeOfNothing(a, defaultOpt, next, recip, fuel);
    NodeOfMade(b, defaultOpt, next, recip, fuel);
    EmptyClipped(tb, n, recip);
    ClipToByEmpty(tb, n, recip);
    ClipToByEmpty(Invert(tb, recip), n, recip);
    InvertTwice(tb, recip);
    var t := Build(Empty, AllPolygons(tb), n, recip, fuel).0;
    BuildWellFormed(Empty, AllPolygons(tb), n, recip, fuel);
    InvertFlipsEveryPolygon(t, recip);
  }

  /** The intersection of a solid with one without polygons is not empty either: it is
      the solid's clones built into a tree and read back. */
  lemma IntersectWithNothing(a: CSG, b: CSG, defaultOpt: OptType, next: nat, recip: Recip, fuel: nat)
    requires Proper(a.polygons) && b.polygons == []
    ensures var (ta, n) := NodeOf(a, defaultOpt, next, recip, fuel);
      Intersect(a, b, defaultOpt, next, recip, fuel) == (CSG(AllPolygons(ta), Some(GetOptType(a, defaultOpt))), n)
  {
    var (ta, n1) := NodeOf(a, defaultOpt, next, recip, fuel);
    NodeOfMade(a, defaultOpt, next, recip, fuel);
    NodeOfNothing(b, defaultOpt, n1, recip, fuel);
    EmptyClipped(Invert(ta, recip), n1, recip);
    ClipToByEmpty(Invert(ta, recip), n1, recip);
    InvertTwice(ta, recip);
  }

  // ---------------------------------------------------------------------------
  // The bounding-box short-cuts.

  /** Whether each polygon's box meets the given box, one flag per polygon. */
  function Hits(ps: seq<Polygon>, box: Boxes.Bounds): (r: seq<bool>)
    requires Proper(ps)
    ensures |r| == |ps|
  {
    if ps == [] then []
    else Hits(ps[..|ps| - 1], box) + [Boxes.Intersects(box, BoundsOf(ps[|ps| - 1]))]
  }

  /** Each flag is the test of the polygon at the same place. */
  lemma {:induction false} HitsMeaning(ps: seq<Polygon>, box: Boxes.Bounds)
    requires Proper(ps)
    ensures forall i :: 0 <= i < |ps| ==> Hits(ps, box)[i] == Boxes.Intersects(box, BoundsOf(ps[i]))
  {
    if ps != [] {
      var init := ps[..|ps| - 1];
      HitsMeaning(init, box);
      forall i | 0 <= i < |ps| ensures Hits(ps, box)[i] == Boxes.Intersects(box, BoundsOf(ps[i])) {
        if i < |init| {
          assert ps[i] == init[i];
        }
      }
    }
  }

  /** The polygons whose flag is the given side, in order. */
  function Kept(ps: seq<Polygon>, hits: seq<bool>, side: bool): seq<Polygon>
    requires |hits| == |ps|
  {
    if ps == [] then []
    else
      var init := Kept(ps[..|ps| - 1], hits[..|ps| - 1], side);
      if hits[|ps| - 1] == side then init + [ps[|ps| - 1]] else init
  }

  /** The two sides together are the polygons. */
  lemma {:induction false} KeptTogether(ps: seq<Polygon>, hits: seq<bool>)
    requires |hits| == |ps|
    ensures multiset(Kept(ps, hits, true)) + multiset(Kept(ps, hits, false)) == multiset(ps)
  {
    if ps != [] {
      var init, p := ps[..|ps| - 1], ps[|ps| - 1];
      KeptTogether(init, hits[..|ps| - 1]);
      assert ps == init + [p];
    }
  }

  /** A kept polygon sits at a place whose flag is the side. */
  lemma {:induction false} KeptSide(ps: seq<Polygon>, hits: seq<bool>, side: bool)
    requires |hits| == |ps|
    ensures forall q :: q in Kept(ps, hits, side) ==> exists i :: 0 <= i < |ps| && ps[i] == q && hits[i] == side
  {
    if ps != [] {
      var init, h := ps[..|ps| - 1], hits[..|ps| - 1];
      KeptSide(init, h, side);
      forall q | q in Kept(ps, hits, side) ensures exists i :: 0 <= i < |ps| && ps[i] == q && hits[i] == side {
        if q in Kept(init, h, side) {
          var i :| 0 <= i < |init| && init[i] == q && h[i] == side;
          assert ps[i] == q && hits[i] == side;
        } else {
          assert ps[|ps| - 1] == q && hits[|ps| - 1] == side;
        }
      }
    }
  }

  /** No polygon is kept on a side exactly when no flag is that side; then the other
      side keeps them all. */
  lemma {:induction false} KeptEmptyIff(ps: seq<Polygon>, hits: seq<bool>, side: bool)
    requires |hits| == |ps|
    ensures Kept(ps, hits, side) == [] <==> forall i :: 0 <= i < |ps| ==> hits[i] != side
    ensures Kept(ps, hits, side) == [] ==> Kept(ps, hits, !side) == ps
  {
    if ps != [] {
      var init, h := ps[..|ps| - 1], hits[..|ps| - 1];
      KeptEmptyIff(init, h, side);
      assert forall i :: 0 <= i < |init| ==> h[i] == hits[i];
      assert init + [ps[|ps| - 1]] == ps;
    }
  }

  /** The polygons whose box meets the given box, in order. */
  function Inner(ps: seq<Polygon>, box: Boxes.Bounds): (r: seq<Polygon>)
    requires Proper(ps)
  {
    Kept(ps, Hits(ps, box), true)
  }

  /** The polygons whose box does not meet the given box, in order. */
  function Outer(ps: seq<Polygon>, box: Boxes.Bounds): (r: seq<Polygon>)
    requires Proper(ps)
  {
    Kept(ps, Hits(ps, box), false)
  }

  /** One more polygon goes to the inner side when its box meets the box, otherwise
      to the outer side. */
  lemma SidesStep(ps: seq<Polygon>, box: Boxes.Bounds)
    requires Proper(ps) && ps != []
    ensures var init, p := ps[..|ps| - 1], ps[|ps| - 1];
      && Proper(init)
      && Inner(ps, box) == (if Boxes.Intersects(box, BoundsOf(p)) then Inner(init, box) + [p] else Inner(init, box))
      && Outer(ps, box) == (if Boxes.Intersects(box, BoundsOf(p)) then Outer(init, box) else Outer(init, box) + [p])
  {
    var init := ps[..|ps| - 1];
    var hits := Hits(ps, box);
    assert hits[..|ps| - 1] == Hits(init, box);
  }

  /** SidesStep on the prefixes of a list: the prefix of i + 1 polygons. */
  lemma PrefixSidesStep(ps: seq<Polygon>, box: Boxes.Bounds, i: nat)
    requires Proper(ps) && i < |ps|
    ensures Proper(ps[..i]) && Proper(ps[..i + 1])
    ensures Inner(ps[..i + 1], box) == (if Boxes.Intersects(box, BoundsOf(ps[i])) then Inner(ps[..i], box) + [ps[i]] else Inner(ps[..i], box))
    ensures Outer(ps[..i + 1], box) == (if Boxes.Intersects(box, BoundsOf(ps[i])) then Outer(ps[..i], box) else Outer(ps[..i], box) + [ps[i]])
  {
    assert ps[..i + 1][..i] == ps[..i];
    SidesStep(ps[..i + 1], box);
  }

  /** Either side keeps only polygons of the list, so they have their three vertices. */
  lemma KeptProper(ps: seq<Polygon>, hits: seq<bool>, side: bool)
    requires Proper(ps) && |hits| == |ps|
    ensures Proper(Kept(ps, hits, side))
  {
    var kept := Kept(ps, hits, side);
    KeptSide(ps, hits, side);
    forall k | 0 <= k < |kept| ensures |kept[k].vertices| >= 3 {
      assert kept[k] in kept;
    }
  }

  /** Both sides' polygons have their three vertices. */
  lemma InnerProper(ps: seq<Polygon>, box: Boxes.Bounds)
    requires Proper(ps)
    ensures Proper(Inner(ps, box)) && Proper(Outer(ps, box))
  {
    KeptProper(ps, Hits(ps, box), true);
    KeptProper(ps, Hits(ps, box), false);
  }

  /** The two sides split the polygons: together they are the polygons, every polygon
      on the inner side meets the box and none on the outer side does. */
  lemma InnerOuterPartition(ps: seq<Polygon>, box: Boxes.Bounds)
    requires Proper(ps)
    ensures multiset(Inner(ps, box)) + multiset(Outer(ps, box)) == multiset(ps)
    ensures forall q :: q in Inner(ps, box) ==> q in ps && Boxes.Intersects(box, BoundsOf(q))
    ensures forall q :: q in Outer(ps, box) ==> q in ps && !Boxes.Intersects(box, BoundsOf(q))
  {
    var hits := Hits(ps, box);
    KeptTogether(ps, hits);
    KeptSide(ps, hits, true);
    KeptSide(ps, hits, false);
    HitsMeaning(ps, box);
  }

  /** No polygon is on the inner side exactly when no polygon's box meets the box;
      then the outer side is all of them. */
  lemma InnerEmptyIff(ps: seq<Polygon>, box: Boxes.Bounds)
    requires Proper(ps)
    ensures Inner(ps, box) == [] <==> forall i :: 0 <= i < |ps| ==> !Boxes.Intersects(box, BoundsOf(ps[i]))
    ensures Inner(ps, box) == [] ==> Outer(ps, box) == ps
  {
    KeptEmptyIff(ps, Hits(ps, box), true);
    HitsMeaning(ps, box);
  }

  /** _unionIntersectOpt: when no polygon's box meets the other solid's box the result
      is the two lists one after the other, the very polygons; otherwise the full union. */
  function UnionIntersectOpt(a: CSG, b: CSG, defaultOpt: OptType, next: nat, recip: Recip, fuel: nat): (r: (CSG, nat))
    requires Proper(a.polygons) && Proper(b.polygons)
  {
    if Inner(a.polygons, CSGs.Bounds(b.polygons)) != [] then UnionNoOpt(a, b, defaultOpt, next, recip, fuel)
    else (CSG(a.polygons + b.polygons, Some(GetOptType(a, defaultOpt))), next)
  }

  /** _unionPolygonBoundsOpt: the polygons whose box does not meet the other solid's
      box pass through; the others are united with the other solid. When none meets it,
      the result is the two lists one after the other. */
  function UnionPolygonBounds(a: CSG, b: CSG, defaultOpt: OptType, next: nat, recip: Recip, fuel: nat): (r: (CSG, nat))
    requires Proper(a.polygons) && Proper(b.polygons)
  {
    var box := CSGs.Bounds(b.polygons);
    var inner := Inner(a.polygons, box);
    var outer := Outer(a.polygons, box);
    InnerProper(a.polygons, box);
    if inner != [] then
      var (u, n) := UnionNoOpt(FromPolygons(inner), b, defaultOpt, next, recip, fuel);
      (CSG(outer + u.polygons, Some(GetOptType(a, defaultOpt))), n)
    else (CSG(a.polygons + b.polygons, Some(GetOptType(a, defaultOpt))), next)
  }

  /** _differencePolygonBoundsOpt: the polygons whose box does not meet the other
      solid's box pass through, followed by the difference of the others and the other
      solid, even when there are no others. */
  function DifferencePolygonBounds(a: CSG, b: CSG, defaultOpt: OptType, next: nat, recip: Recip, fuel: nat): (r: (CSG, nat))
    requires Proper(a.polygons) && Proper(b.polygons)
  {
    var box := CSGs.Bounds(b.polygons);
    var inner := Inner(a.polygons, box);
    var outer := Outer(a.polygons, box);
    InnerProper(a.polygons, box);
    var (d, n) := DifferenceNoOpt(FromPolygons(inner), b, defaultOpt, next, recip, fuel);
    (CSG(outer + d.polygons, Some(GetOptType(a, defaultOpt))), n)
  }

  /** Bounds.toCSG: the cube at the box's center with the box's extent as dimensions,
      centred, its polygons sharing the cube's storage. */
  function BoxSolid(box: Boxes.Bounds, storage: PropertyStorage, next: nat, recip: Recip): (r: (CSG, nat))
  {
    (FromPolygonsSharing(storage, Cubes.CubePolygons(box.center, box.extent, true, storage, next, recip)), next + 6)
  }

  /** The box solid is six new polygons of four vertices. */
  lemma BoxSolidShape(box: Boxes.Bounds, storage: PropertyStorage, next: nat, recip: Recip)
    ensures var (c, n) := BoxSolid(box, storage, next, recip);
      |c.polygons| == 6 && Proper(c.polygons) && AllMade(c.polygons, next) && n == next + 6
  {
    var ps := Cubes.CubePolygons(box.center, box.extent, true, storage, next, recip);
    Cubes.CubePolygonsShape(box.center, box.extent, true, storage, next, recip);
    var c := BoxSolid(box, storage, next, recip).0;
    forall q | q in c.polygons ensures Made(q, next) {
      var i :| 0 <= i < |c.polygons| && c.polygons[i] == q;
      assert q == ps[i].(storage := storage);
    }
    AllMadeProper(c.polygons, next);
  }

  /** _differenceCSGBoundsOpt: with the other solid's box as a solid (made twice, once
      for each use, each with its own storage), a1 = this − box, a2 = this ∩ box, and the
      result is (a2 − other) united with a1 by _unionIntersectOpt. */
  function DifferenceCsgBounds(a: CSG, b: CSG, defaultOpt: OptType, s1: PropertyStorage, s2: PropertyStorage,
                               next: nat, recip: Recip, fuel: nat): (r: (CSG, nat))
    requires Proper(a.polygons) && Proper(b.polygons)
  {
    var box := CSGs.Bounds(b.polygons);
    var (c1, n1) := BoxSolid(box, s1, next, recip);
    BoxSolidShape(box, s1, next, recip);
    var (a1, n2) := DifferenceNoOpt(a, c1, defaultOpt, n1, recip, fuel);
    DifferenceMakesNew(a, c1, defaultOpt, n1, recip, fuel);
    var (c2, n3) := BoxSolid(box, s2, n2, recip);
    BoxSolidShape(box, s2, n2, recip);
    var (a2, n4) := Intersect(a, c2, defaultOpt, n3, recip, fuel);
    IntersectMakesNew(a, c2, defaultOpt, n3, recip, fuel);
    var (a3, n5) := DifferenceNoOpt(a2, b, defaultOpt, n4, recip, fuel);
    DifferenceMakesNew(a2, b, defaultOpt, n4, recip, fuel);
    var (u, n6) := UnionIntersectOpt(a3, a1, defaultOpt, n5, recip, fuel);
    (Optimization(u, Some(GetOptType(a, defaultOpt))), n6)
  }

  /** union: by the solid's short-cut; CSG_BOUND falls back to _unionIntersectOpt. */
  function Union(a: CSG, b: CSG, defaultOpt: OptType, next: nat, recip: Recip, fuel: nat): (r: (CSG, nat))
    requires Proper(a.polygons) && Proper(b.polygons)
  {
    match GetOptType(a, defaultOpt)
    case CsgBound => UnionIntersectOpt(a, b, defaultOpt, next, recip, fuel)
    case PolygonBound => UnionPolygonBounds(a, b, defaultOpt, next, recip, fuel)
    case NoOptimization => UnionNoOpt(a, b, defaultOpt, next, recip, fuel)
  }

  /** difference: by the solid's short-cut. The two storages are those of the two box
      solids the CSG_BOUND path makes. */
  function Difference(a: CSG, b: CSG, defaultOpt: OptType, s1: PropertyStorage, s2: PropertyStorage,
                      next: nat, recip: Recip, fuel: nat): (r: (CSG, nat))
    requires Proper(a.polygons) && Proper(b.polygons)
  {
    match GetOptType(a, defaultOpt)
    case CsgBound => DifferenceCsgBounds(a, b, defaultOpt, s1, s2, next, recip, fuel)
    case PolygonBound => DifferencePolygonBounds(a, b, defaultOpt, next, recip, fuel)
    case NoOptimization => DifferenceNoOpt(a, b, defaultOpt, next, recip, fuel)
  }

  // ---------------------------------------------------------------------------
  // What the short-cuts promise.

  /** _unionIntersectOpt: when no polygon's box meets the other solid's box the result
      is the two polygon lists one after the other, the very same polygons, and nothing
      is allocated; otherwise it is the full union. */
  lemma UnionIntersectOptCases(a: CSG, b: CSG, defaultOpt: OptType, next: nat, recip: Recip, fuel: nat)
    requires Proper(a.polygons) && Proper(b.polygons)
    ensures var box := CSGs.Bounds(b.polygons);
      (forall i :: 0 <= i < |a.polygons| ==> !Boxes.Intersects(box, BoundsOf(a.polygons[i])))
      <==> UnionIntersectOpt(a, b, defaultOpt, next, recip, fuel) == (CSG(a.polygons + b.polygons, Some(GetOptType(a, defaultOpt))), next)
    ensures var box := CSGs.Bounds(b.polygons);
      (exists i :: 0 <= i < |a.polygons| && Boxes.Intersects(box, BoundsOf(a.polygons[i])))
      ==> UnionIntersectOpt(a, b, defaultOpt, next, recip, fuel) == UnionNoOpt(a, b, defaultOpt, next, recip, fuel)
  {
    var box := CSGs.Bounds(b.polygons);
    InnerEmptyIff(a.polygons, box);
    if Inner(a.polygons, box) != [] {
      UnionMakesNew(a, b, defaultOpt, next, recip, fuel);
      var r := UnionNoOpt(a, b, defaultOpt, next, recip, fuel).0;
      if r.polygons == a.polygons + b.polygons {
        var i :| 0 <= i < |a.polygons| && Boxes.Intersects(box, BoundsOf(a.polygons[i]));
        assert r.polygons[i] == a.polygons[i] && r.polygons[i] in r.polygons;
      }
    }
  }

  /** _unionPolygonBoundsOpt: the polygons whose box misses the other solid's box come
      first, unchanged and in order, followed by the union of the others with the other
      solid; when every polygon misses it, the result is the two lists one after the
      other. */
  lemma UnionPolygonBoundsCases(a: CSG, b: CSG, defaultOpt: OptType, next: nat, recip: Recip, fuel: nat)
    requires Proper(a.polygons) && Proper(b.polygons)
    ensures var box := CSGs.Bounds(b.polygons);
      var (r, n) := UnionPolygonBounds(a, b, defaultOpt, next, recip, fuel);
      && r.optType == Some(GetOptType(a, defaultOpt))
      && Outer(a.polygons, box) <= r.polygons
      && ((forall i :: 0 <= i < |a.polygons| ==> !Boxes.Intersects(box, BoundsOf(a.polygons[i])))
          ==> r.polygons == a.polygons + b.polygons && n == next)
      && ((exists i :: 0 <= i < |a.polygons| && Boxes.Intersects(box, BoundsOf(a.polygons[i])))
          ==> (InnerProper(a.polygons, box);
               r.polygons == Outer(a.polygons, box) + UnionNoOpt(FromPolygons(Inner(a.polygons, box)), b, defaultOpt, next, recip, fuel).0.polygons))
  {
    var box := CSGs.Bounds(b.polygons);
    InnerEmptyIff(a.polygons, box);
    InnerProper(a.polygons, box);
  }

  /** _differencePolygonBoundsOpt: the polygons whose box misses the other solid's box
      come first, unchanged and in order. When every polygon misses it, the difference
      still runs, on a solid without polygons, and appends the other solid's polygons
      rebuilt and flipped (a node that was never built is not inverted). */
  lemma DifferencePolygonBoundsCases(a: CSG, b: CSG, defaultOpt: OptType, next: nat, recip: Recip, fuel: nat)
    requires Proper(a.polygons) && Proper(b.polygons)
    ensures var box := CSGs.Bounds(b.polygons);
      var (r, n) := DifferencePolygonBounds(a, b, defaultOpt, next, recip, fuel);
      && r.optType == Some(GetOptType(a, defaultOpt))
      && Outer(a.polygons, box) <= r.polygons
      && ((forall i :: 0 <= i < |a.polygons| ==> !Boxes.Intersects(box, BoundsOf(a.polygons[i])))
          ==> var (tb, m) := NodeOf(b, defaultOpt, next, recip, fuel);
              var (t, n') := Build(Empty, AllPolygons(tb), m, recip, fuel);
              r.polygons == a.polygons + AllPolygons(Invert(t, recip)) && n == n')
  {
    var box := CSGs.Bounds(b.polygons);
    InnerEmptyIff(a.polygons, box);
    InnerProper(a.polygons, box);
    if Inner(a.polygons, box) == [] {
      DifferenceOfNothing(FromPolygons([]), b, defaultOpt, next, recip, fuel);
    }
  }

  /** _differenceCSGBoundsOpt works on clones and new pieces only: no polygon of either
      operand is in the result. */
  lemma DifferenceCsgBoundsMakesNew(a: CSG, b: CSG, defaultOpt: OptType, s1: PropertyStorage, s2: PropertyStorage,
                                    next: nat, recip: Recip, fuel: nat)
    requires Proper(a.polygons) && Proper(b.polygons)
    ensures var (r, n) := DifferenceCsgBounds(a, b, defaultOpt, s1, s2, next, recip, fuel);
      AllMade(r.polygons, next) && Proper(r.polygons) && next <= n && r.optType == Some(GetOptType(a, defaultOpt))
  {
    var box := CSGs.Bounds(b.polygons);
    var (c1, n1) := BoxSolid(box, s1, next, recip);
    BoxSolidShape(box, s1, next, recip);
    var (a1, n2) := DifferenceNoOpt(a, c1, defaultOpt, n1, recip, fuel);
    DifferenceMakesNew(a, c1, defaultOpt, n1, recip, fuel);
    var (c2, n3) := BoxSolid(box, s2, n2, recip);
    BoxSolidShape(box, s2, n2, recip);
    var (a2, n4) := Intersect(a, c2, defaultOpt, n3, recip, fuel);
    IntersectMakesNew(a, c2, defaultOpt, n3, recip, fuel);
    var (a3, n5) := DifferenceNoOpt(a2, b, defaultOpt, n4, recip, fuel);
    DifferenceMakesNew(a2, b, defaultOpt, n4, recip, fuel);
    AllMadeBelow(a1.polygons, next, n1);
    AllMadeBelow(a3.polygons, next, n4);
    UnionIntersectOptMakesNew(a3, a1, defaultOpt, next, n5, recip, fuel);
    UnionIntersectOptShape(a3, a1, defaultOpt, n5, recip, fuel);
  }

  /** Two lists of polygons with three vertices make one. */
  lemma ProperConcat(ps: seq<Polygon>, qs: seq<Polygon>)
    requires Proper(ps) && Proper(qs)
    ensures Proper(ps + qs)
  {
    forall i | 0 <= i < |ps + qs| ensures |(ps + qs)[i].vertices| >= 3 {
      if i >= |ps| {
        assert (ps + qs)[i] == qs[i - |ps|];
      }
    }
  }

  /** Polygons made from a counter are made from any lower one too. */
  lemma AllMadeBelow(ps: seq<Polygon>, lo: nat, hi: nat)
    requires AllMade(ps, hi) && lo <= hi
    ensures AllMade(ps, lo)
  {
  }

  /** The result of _unionIntersectOpt keeps the polygons' three vertices. */
  lemma UnionIntersectOptShape(a: CSG, b: CSG, defaultOpt: OptType, next: nat, recip: Recip, fuel: nat)
    requires Proper(a.polygons) && Proper(b.polygons)
    ensures var (r, n) := UnionIntersectOpt(a, b, defaultOpt, next, recip, fuel);
      Proper(r.polygons) && next <= n && r.optType == Some(GetOptType(a, defaultOpt))
  {
    if Inner(a.polygons, CSGs.Bounds(b.polygons)) != [] {
      UnionMakesNew(a, b, defaultOpt, next, recip, fuel);
    } else {
      ProperConcat(a.polygons, b.polygons);
    }
  }

  /** When both operands hold only polygons made from lo on, so does the result of
      _unionIntersectOpt. */
  lemma UnionIntersectOptMakesNew(a: CSG, b: CSG, defaultOpt: OptType, lo: nat, next: nat, recip: Recip, fuel: nat)
    requires Proper(a.polygons) && Proper(b.polygons)
    requires AllMade(a.polygons, lo) && AllMade(b.polygons, lo) && lo <= next
    ensures AllMade(UnionIntersectOpt(a, b, defaultOpt, next, recip, fuel).0.polygons, lo)
  {
    if Inner(a.polygons, CSGs.Bounds(b.polygons)) != [] {
      UnionMakesNew(a, b, defaultOpt, next, recip, fuel);
      AllMadeBelow(UnionNoOpt(a, b, defaultOpt, next, recip, fuel).0.polygons, lo, next);
    }
  }

  /** The result of _unionPolygonBoundsOpt keeps the polygons' three vertices. */
  lemma UnionPolygonBoundsShape(a: CSG, b: CSG, defaultOpt: OptType, next: nat, recip: Recip, fuel: nat)
    requires Proper(a.polygons) && Proper(b.polygons)
    ensures var (r, n) := UnionPolygonBounds(a, b, defaultOpt, next, recip, fuel);
      Proper(r.polygons) && next <= n && r.optType == Some(GetOptType(a, defaultOpt))
  {
    var box := CSGs.Bounds(b.polygons);
    var inner := Inner(a.polygons, box);
    InnerProper(a.polygons, box);
    if inner != [] {
      UnionMakesNew(FromPolygons(inner), b, defaultOpt, next, recip, fuel);
      ProperConcat(Outer(a.polygons, box), UnionNoOpt(FromPolygons(inner), b, defaultOpt, next, recip, fuel).0.polygons);
    } else {
      ProperConcat(a.polygons, b.polygons);
    }
  }

  /** Every union keeps the polygons' three vertices and fixes this solid's effective
      short-cut as the result's. */
  lemma UnionShape(a: CSG, b: CSG, defaultOpt: OptType, next: nat, recip: Recip, fuel: nat)
    requires Proper(a.polygons) && Proper(b.polygons)
    ensures var (r, n) := Union(a, b, defaultOpt, next, recip, fuel);
      Proper(r.polygons) && next <= n && r.optType == Some(GetOptType(a, defaultOpt))
  {
    match GetOptType(a, defaultOpt)
    case CsgBound => UnionIntersectOptShape(a, b, defaultOpt, next, recip, fuel);
    case PolygonBound => UnionPolygonBoundsShape(a, b, defaultOpt, next, recip, fuel);
    case NoOptimization => UnionMakesNew(a, b, defaultOpt, next, recip, fuel);
  }

  // ---------------------------------------------------------------------------
  // The list overloads.

  /** Every solid of the list has polygons of three vertices or more. */
  predicate AllProper(cs: seq<CSG>)
  {
    forall i :: 0 <= i < |cs| ==> Proper(cs[i].polygons)
  }

  /** union(List<CSG>): this solid united with each solid of the list in turn, each
      union dispatched on the running result's short-cut. An empty list gives this very
      solid. */
  function UnionAll(a: CSG, cs: seq<CSG>, defaultOpt: OptType, next: nat, recip: Recip, fuel: nat): (r: (CSG, nat))
    requires Proper(a.polygons) && AllProper(cs)
    ensures Proper(r.0.polygons) && next <= r.1
    ensures cs != [] ==> r.0.optType == Some(GetOptType(a, defaultOpt))
  {
    if cs == [] then (a, next)
    else
      var u := UnionAll(a, cs[..|cs| - 1], defaultOpt, next, recip, fuel);
      UnionShape(u.0, cs[|cs| - 1], defaultOpt, u.1, recip, fuel);
      Union(u.0, cs[|cs| - 1], defaultOpt, u.1, recip, fuel)
  }

  /** The union over a list of one solid is the union with that solid. */
  lemma UnionAllOfOne(a: CSG, c: CSG, defaultOpt: OptType, next: nat, recip: Recip, fuel: nat)
    requires Proper(a.polygons) && Proper(c.polygons)
    ensures AllProper([c])
    ensures UnionAll(a, [c], defaultOpt, next, recip, fuel) == Union(a, c, defaultOpt, next, recip, fuel)
  {
    assert [c][..0] == [];
  }

  /** A list with one more solid at the end has polygons of three vertices too. */
  lemma AllProperSnoc(cs: seq<CSG>, c: CSG)
    requires AllProper(cs) && Proper(c.polygons)
    ensures AllProper(cs + [c])
  {
    forall i | 0 <= i < |cs + [c]| ensures Proper((cs + [c])[i].polygons) {
      if i < |cs| {
        assert (cs + [c])[i] == cs[i];
      }
    }
  }

  /** difference(List<CSG>): a clone of this solid for an empty list; otherwise the
      difference with the union of the list, built from the first solid. */
  function DifferenceAll(a: CSG, cs: seq<CSG>, defaultOpt: OptType, s1: PropertyStorage, s2: PropertyStorage,
                         next: nat, recip: Recip, fuel: nat): (r: (CSG, nat))
    requires Proper(a.polygons) && AllProper(cs)
  {
    if cs == [] then CSGs.Clone(a, defaultOpt, next, recip)
    else
      var (u, n) := UnionAll(cs[0], cs[1..], defaultOpt, next, recip, fuel);
      Difference(a, u, defaultOpt, s1, s2, n, recip, fuel)
  }

  /** intersect(List<CSG>): a clone of this solid for an empty list; otherwise the
      intersection with the union of the list, built from the first solid. */
  function IntersectAll(a: CSG, cs: seq<CSG>, defaultOpt: OptType, next: nat, recip: Recip, fuel: nat): (r: (CSG, nat))
    requires Proper(a.polygons) && AllProper(cs)
  {
    if cs == [] then CSGs.Clone(a, defaultOpt, next, recip)
    else
      var (u, n) := UnionAll(cs[0], cs[1..], defaultOpt, next, recip, fuel);
      Intersect(a, u, defaultOpt, n, recip, fuel)
  }

  /** With an empty list, both overloads copy this solid: copies of its polygons under
      new references, and its effective short-cut. */
  lemma ListOverloadsOfNothing(a: CSG, defaultOpt: OptType, s1: PropertyStorage, s2: PropertyStorage,
                               next: nat, recip: Recip, fuel: nat)
    requires Proper(a.polygons)
    ensures var (d, n) := DifferenceAll(a, [], defaultOpt, s1, s2, next, recip, fuel);
      Copies(d.polygons, a.polygons, next, n) && n == next + |a.polygons| && d.optType == Some(GetOptType(a, defaultOpt))
    ensures IntersectAll(a, [], defaultOpt, next, recip, fuel) == DifferenceAll(a, [], defaultOpt, s1, s2, next, recip, fuel)
  {
    CloneCopies(a, defaultOpt, next, recip);
  }

  /** With one solid in the list, the overloads are the single operations on it. */
  lemma ListOverloadsOfOne(a: CSG, c: CSG, defaultOpt: OptType, s1: PropertyStorage, s2: PropertyStorage,
                           next: nat, recip: Recip, fuel: nat)
    requires Proper(a.polygons) && Proper(c.polygons)
    ensures AllProper([c])
    ensures DifferenceAll(a, [c], defaultOpt, s1, s2, next, recip, fuel) == Difference(a, c, defaultOpt, s1, s2, next, recip, fuel)
    ensures IntersectAll(a, [c], defaultOpt, next, recip, fuel) == Intersect(a, c, defaultOpt, next, recip, fuel)
    ensures UnionAll(a, [c], defaultOpt, next, recip, fuel) == Union(a, c, defaultOpt, next, recip, fuel)
  {
    assert [c][1..] == [];
    var (u, n) := Union(a, c, defaultOpt, next, recip, fuel);
    UnionShape(a, c, defaultOpt, next, recip, fuel);
  }

  /** A ∩ (B ∪ B1 ∪ … ∪ Bk ∪ C): intersecting with a list is intersecting with the
      union over all but its last solid, united with the last. */
  lemma IntersectAllSnoc(a: CSG, b: CSG, bs: seq<CSG>, c: CSG, defaultOpt: OptType, next: nat, recip: Recip, fuel: nat)
    requires Proper(a.polygons) && Proper(b.polygons) && AllProper(bs) && Proper(c.polygons)
    ensures AllProper([b] + bs + [c])
    ensures var u := UnionAll(b, bs, defaultOpt, next, recip, fuel);
      var w := Union(u.0, c, defaultOpt, u.1, recip, fuel);
      (UnionShape(u.0, c, defaultOpt, u.1, recip, fuel);
       IntersectAll(a, [b] + bs + [c], defaultOpt, next, recip, fuel) == Intersect(a, w.0, defaultOpt, w.1, recip, fuel))
  {
    AllProperSnoc(bs, c);
    var cs := [b] + bs + [c];
    assert AllProper(cs) by {
      forall i | 0 <= i < |cs| ensures Proper(cs[i].polygons) {
        if 0 < i {
          assert cs[i] == (bs + [c])[i - 1];
        }
      }
    }
    var rest := cs[1..];
    assert cs[0] == b && rest == bs + [c];
    assert rest[..|rest| - 1] == bs && rest[|rest| - 1] == c;
  }


}
