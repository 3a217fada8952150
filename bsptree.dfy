/**
 * The BSP tree of CSharpCSG/Node.cs as a value: every node holds the polygons that
 * lie in its plane, the plane (absent until the node is first built), and a front
 * and a back subtree. The operations of Node are functions here; the class in
 * node.dfy is proved against them. Polygons are values whose `ref` stands for the
 * object's identity; operations that make new polygons take the next free reference
 * and return the one after what they used.
 */
module BspTrees {
  import opened Vectors
  import opened Wrappers
  import Planes
  import opened Polygons
  import Splitting

  datatype Tree = Nil | Cell(polygons: seq<Polygon>, plane: Option<Planes.Plane>, front: Tree, back: Tree)

  /** A node made by `new Node()`: no polygons, no plane, no children. */
  const Empty: Tree := Cell([], None, Nil, Nil)

  /** A node without a plane is one that was never built from a non-empty list: it
      has neither polygons nor children. Every tree the operations make is so. */
  predicate WellFormed(t: Tree)
  {
    match t
    case Nil => true
    case Cell(ps, plane, f, b) =>
      (plane.None? ==> ps == [] && f.Nil? && b.Nil?) && WellFormed(f) && WellFormed(b)
  }

  /** Every polygon has the three vertices its constructor demands. */
  predicate Proper(ps: seq<Polygon>)
  {
    forall i :: 0 <= i < |ps| ==> |ps[i].vertices| >= 3
  }

  /** allPolygons: the node's own polygons, then the front subtree's, then the back's. */
  function AllPolygons(t: Tree): seq<Polygon>
  {
    match t
    case Nil => []
    case Cell(ps, _, f, b) => ps + AllPolygons(f) + AllPolygons(b)
  }

  function FlipAll(ps: seq<Polygon>): (qs: seq<Polygon>)
    ensures |qs| == |ps| && forall i :: 0 <= i < |ps| ==> qs[i] == Flip(ps[i])
  {
    seq(|ps|, i requires 0 <= i < |ps| => Flip(ps[i]))
  }

  /** invert: flip every polygon; a node without a plane takes a copy of its (now
      flipped) first polygon's plane, or, having no polygons, stops there; then the
      plane is flipped, both subtrees inverted, and front and back swapped. */
  function Invert(t: Tree, recip: Recip): Tree
  {
    match t
    case Nil => Nil
    case Cell(ps, plane, f, b) =>
      var qs := FlipAll(ps);
      if plane.None? && |ps| == 0 then Cell(qs, plane, f, b)
      else
        var p := if plane.Some? then plane.value else Planes.Clone(qs[0].plane, recip);
        Cell(qs, Some(Planes.Flip(p)), Invert(b, recip), Invert(f, recip))
  }

  lemma FlipAllTwice(ps: seq<Polygon>)
    ensures FlipAll(FlipAll(ps)) == ps
  {
    forall i | 0 <= i < |ps| ensures FlipAll(FlipAll(ps))[i] == ps[i] {
      FlipTwice(ps[i]);
    }
  }

  lemma FlipAllAppend(ps: seq<Polygon>, qs: seq<Polygon>)
    ensures FlipAll(ps + qs) == FlipAll(ps) + FlipAll(qs)
  {
  }

  /** Inverting a well-formed tree twice gives the tree back, and inverting keeps it
      well-formed. */
  lemma {:induction false} InvertTwice(t: Tree, recip: Recip)
    requires WellFormed(t)
    ensures WellFormed(Invert(t, recip))
    ensures Invert(Invert(t, recip), recip) == t
  {
    match t
    case Nil =>
    case Cell(ps, plane, f, b) =>
      if plane.Some? {
        InvertTwice(f, recip);
        InvertTwice(b, recip);
        FlipAllTwice(ps);
        Planes.FlipNegates(plane.value, Zero);
      }
  }

  /** Inverting a well-formed tree holds exactly the flipped polygons, in another order. */
  lemma {:induction false} InvertFlipsEveryPolygon(t: Tree, recip: Recip)
    requires WellFormed(t)
    ensures multiset(AllPolygons(Invert(t, recip))) == multiset(FlipAll(AllPolygons(t)))
  {
    match t
    case Nil =>
    case Cell(ps, plane, f, b) =>
      if plane.Some? {
        InvertFlipsEveryPolygon(f, recip);
        InvertFlipsEveryPolygon(b, recip);
        FlipAllAppend(ps, AllPolygons(f));
        FlipAllAppend(ps + AllPolygons(f), AllPolygons(b));
        assert AllPolygons(Invert(t, recip))
            == FlipAll(ps) + AllPolygons(Invert(b, recip)) + AllPolygons(Invert(f, recip));
      }
  }

  /** splitPolygon of each polygon in turn, with the front list in both front roles
      and the back list in both back roles, as clipPolygons calls it. */
  function SplitForClip(plane: Planes.Plane, ps: seq<Polygon>, next: nat, recip: Recip): (r: (seq<Polygon>, seq<Polygon>, nat))
    ensures r.2 >= next
    decreases |ps|
  {
    if ps == [] then ([], [], next)
    else
      var (fs, bs, n) := SplitForClip(plane, ps[..|ps| - 1], next, recip);
      var s := Splitting.SplitPolygon(plane, ps[|ps| - 1], n, recip);
      (fs + s.coplanarFront + s.front, bs + s.coplanarBack + s.back, s.next)
  }

  /** One more polygon split for clipping. */
  lemma SplitForClipStep(plane: Planes.Plane, ps: seq<Polygon>, i: nat, next: nat, recip: Recip)
    requires i < |ps|
    ensures var r := SplitForClip(plane, ps[..i], next, recip);
      var s := Splitting.SplitPolygon(plane, ps[i], r.2, recip);
      SplitForClip(plane, ps[..i + 1], next, recip)
        == (r.0 + s.coplanarFront + s.front, r.1 + s.coplanarBack + s.back, s.next)
  {
    assert ps[..i + 1][..i] == ps[..i];
  }

  /** clipPolygons: a node without a plane returns the list as it is. Otherwise the
      list is split by the plane; the front part is clipped by the front subtree when
      there is one, and kept otherwise; the back part is clipped by the back subtree
      when there is one, and dropped otherwise. */
  function Clip(t: Tree, ps: seq<Polygon>, next: nat, recip: Recip): (r: (seq<Polygon>, nat))
    ensures r.1 >= next
  {
    match t
    case Nil => (ps, next)
    case Cell(_, plane, f, b) =>
      if plane.None? then (ps, next)
      else
        var (fs, bs, n1) := SplitForClip(plane.value, ps, next, recip);
        var (fr, n2) := if f.Nil? then (fs, n1) else Clip(f, fs, n1, recip);
        var (br, n3) := if b.Nil? then ([], n2) else Clip(b, bs, n2, recip);
        (fr + br, n3)
  }

  /** clipTo: every node's polygons are replaced by their clipping against bsp. */
  function ClipTo(t: Tree, bsp: Tree, next: nat, recip: Recip): (r: (Tree, nat))
    ensures r.1 >= next
  {
    match t
    case Nil => (Nil, next)
    case Cell(ps, plane, f, b) =>
      var (qs, n1) := Clip(bsp, ps, next, recip);
      var (f', n2) := ClipTo(f, bsp, n1, recip);
      var (b', n3) := ClipTo(b, bsp, n2, recip);
      (Cell(qs, plane, f', b'), n3)
  }

  /** Where(isValid): the valid polygons, in order. */
  function ValidOnly(ps: seq<Polygon>): seq<Polygon>
  {
    if ps == [] then []
    else if ps[0].valid then [ps[0]] + ValidOnly(ps[1..])
    else ValidOnly(ps[1..])
  }

  /** ValidOnly keeps exactly the valid polygons. */
  lemma {:induction false} ValidOnlyKeepsValid(ps: seq<Polygon>)
    ensures forall q :: q in ValidOnly(ps) ==> q in ps && q.valid
    ensures forall p :: p in ps && p.valid ==> p in ValidOnly(ps)
  {
    if ps != [] {
      ValidOnlyKeepsValid(ps[1..]);
      assert ps == [ps[0]] + ps[1..];
    }
  }

  /** The objects' references. */
  function Refs(ps: seq<Polygon>): set<nat>
  {
    set p | p in ps :: p.ref
  }

  /** Distinct(): each object once, at its first occurrence. Polygon does not override
      equality, so two entries are the same when they are the same object. */
  function Distinct(ps: seq<Polygon>): seq<Polygon>
    decreases |ps|
  {
    if ps == [] then []
    else
      var init := Distinct(ps[..|ps| - 1]);
      var p := ps[|ps| - 1];
      if p.ref in Refs(init) then init else init + [p]
  }

  /** Distinct keeps every object once: its polygons are the list's, with the same
      references, and no reference twice. */
  lemma {:induction false} DistinctKeepsObjects(ps: seq<Polygon>)
    ensures forall q :: q in Distinct(ps) ==> q in ps
    ensures Refs(Distinct(ps)) == Refs(ps)
    ensures forall i, j :: 0 <= i < j < |Distinct(ps)| ==> Distinct(ps)[i].ref != Distinct(ps)[j].ref
    decreases |ps|
  {
    if ps != [] {
      var init := ps[..|ps| - 1];
      DistinctKeepsObjects(init);
      var p := ps[|ps| - 1];
      assert ps == init + [p];
      assert Refs(ps) == Refs(init) + {p.ref};
    }
  }

  /** splitPolygon of each polygon in turn, with the node's own list in both
      coplanar roles, as build calls it. */
  function SplitForBuild(plane: Planes.Plane, ps: seq<Polygon>, next: nat, recip: Recip)
    : (r: (seq<Polygon>, seq<Polygon>, seq<Polygon>, nat))
    ensures r.3 >= next
    decreases |ps|
  {
    if ps == [] then ([], [], [], next)
    else
      var (cs, fs, bs, n) := SplitForBuild(plane, ps[..|ps| - 1], next, recip);
      var s := Splitting.SplitPolygon(plane, ps[|ps| - 1], n, recip);
      (cs + s.coplanarFront + s.coplanarBack, fs + s.front, bs + s.back, s.next)
  }

  /** The child build descends into: the existing one, or a new empty node. */
  function Grown(t: Tree): Tree { if t.Nil? then Empty else t }

  /** One more polygon split for build. */
  lemma SplitForBuildStep(plane: Planes.Plane, ps: seq<Polygon>, i: nat, next: nat, recip: Recip)
    requires i < |ps|
    ensures var r := SplitForBuild(plane, ps[..i], next, recip);
      var s := Splitting.SplitPolygon(plane, ps[i], r.3, recip);
      SplitForBuild(plane, ps[..i + 1], next, recip)
        == (r.0 + s.coplanarFront + s.coplanarBack, r.1 + s.front, r.2 + s.back, s.next)
  {
    assert ps[..i + 1][..i] == ps[..i];
  }

  /** The valid polygons, each object once, split by the plane: what the node keeps,
      what goes to the front, what goes to the back, and the next free reference. */
  function Partition(plane: Planes.Plane, ps: seq<Polygon>, next: nat, recip: Recip)
    : (r: (seq<Polygon>, seq<Polygon>, seq<Polygon>, nat))
    ensures r.3 >= next
  {
    SplitForBuild(plane, Distinct(ValidOnly(ps)), next, recip)
  }

  /** build: nothing for an empty list. Otherwise a node without a plane takes a copy
      of the first polygon's plane; the valid polygons, each object once, are split by
      the plane with the coplanar ones appended to the node's own list, and the front
      and back parts are built into the children. The fuel bounds the depth of the
      descent. */
  function Build(t: Tree, ps: seq<Polygon>, next: nat, recip: Recip, fuel: nat): (r: (Tree, nat))
    ensures r.1 >= next
    decreases fuel, 0
  {
    match t
    case Nil => (Nil, next)
    case Cell(own, plane0, f, b) =>
      if |ps| == 0 || fuel == 0 then (t, next)
      else
        var plane := if plane0.Some? then plane0.value else Planes.Clone(ps[0].plane, recip);
        var parts := Partition(plane, ps, next, recip);
        var front := Descend(f, parts.1, parts.3, recip, fuel - 1);
        var back := Descend(b, parts.2, front.1, recip, fuel - 1);
        (Cell(own + parts.0, Some(plane), front.0, back.0), back.1)
  }

  /** build on a node, given a non-empty list and fuel, in terms of its parts. */
  lemma BuildCell(t: Tree, ps: seq<Polygon>, next: nat, recip: Recip, fuel: nat, p: Planes.Plane,
                  parts: (seq<Polygon>, seq<Polygon>, seq<Polygon>, nat), f: (Tree, nat), b: (Tree, nat))
    requires t.Cell? && |ps| > 0 && fuel > 0
    requires p == if t.plane.Some? then t.plane.value else Planes.Clone(ps[0].plane, recip)
    requires parts == Partition(p, ps, next, recip)
    requires f == Descend(t.front, parts.1, parts.3, recip, fuel - 1)
    requires b == Descend(t.back, parts.2, f.1, recip, fuel - 1)
    ensures Build(t, ps, next, recip, fuel) == (Cell(t.polygons + parts.0, Some(p), f.0, b.0), b.1)
  {
  }

  /** build on a node, from the node as the partition leaves it (t1, the next free
      reference n1) and the node after its children are built (t2, n2). */
  lemma BuildOfParts(t: Tree, t1: Tree, ps: seq<Polygon>, next: nat, recip: Recip, fuel: nat,
                     fs: seq<Polygon>, bs: seq<Polygon>, n1: nat, t2: Tree, n2: nat)
    requires t.Cell? && |ps| > 0 && fuel > 0
    requires var p := if t.plane.Some? then t.plane.value else Planes.Clone(ps[0].plane, recip);
      var parts := Partition(p, ps, next, recip);
      t1 == Cell(t.polygons + parts.0, Some(p), t.front, t.back) && fs == parts.1 && bs == parts.2 && n1 == parts.3
    requires var f := Descend(t1.front, fs, n1, recip, fuel - 1);
      var b := Descend(t1.back, bs, f.1, recip, fuel - 1);
      t2 == Cell(t1.polygons, t1.plane, f.0, b.0) && n2 == b.1
    ensures (t2, n2) == Build(t, ps, next, recip, fuel)
  {
    var p := if t.plane.Some? then t.plane.value else Planes.Clone(ps[0].plane, recip);
    var parts := Partition(p, ps, next, recip);
    var f := Descend(t.front, parts.1, parts.3, recip, fuel - 1);
    var b := Descend(t.back, parts.2, f.1, recip, fuel - 1);
    BuildCell(t, ps, next, recip, fuel, p, parts, f, b);
  }

  /** The polygons of a node after build, in terms of its parts. */
  lemma BuildAllPolygons(t: Tree, ps: seq<Polygon>, next: nat, recip: Recip, fuel: nat, p: Planes.Plane,
                         parts: (seq<Polygon>, seq<Polygon>, seq<Polygon>, nat), f: (Tree, nat), b: (Tree, nat))
    requires t.Cell? && |ps| > 0 && fuel > 0
    requires p == if t.plane.Some? then t.plane.value else Planes.Clone(ps[0].plane, recip)
    requires parts == Partition(p, ps, next, recip)
    requires f == Descend(t.front, parts.1, parts.3, recip, fuel - 1)
    requires b == Descend(t.back, parts.2, f.1, recip, fuel - 1)
    ensures AllPolygons(Build(t, ps, next, recip, fuel).0) == t.polygons + parts.0 + AllPolygons(f.0) + AllPolygons(b.0)
  {
    BuildCell(t, ps, next, recip, fuel, p, parts, f, b);
  }

  /** A non-empty part is built into the child, a new empty node when there is none;
      an empty part leaves the child as it is. */
  function Descend(child: Tree, ps: seq<Polygon>, next: nat, recip: Recip, fuel: nat): (r: (Tree, nat))
    ensures r.1 >= next
    decreases fuel, 1
  {
    if |ps| > 0 then Build(Grown(child), ps, next, recip, fuel) else (child, next)
  }

  /** Copies of the polygons, with consecutive new references. */
  function CloneAll(ps: seq<Polygon>, next: nat, recip: Recip): (r: (seq<Polygon>, nat))
    requires Proper(ps)
  {
    (seq(|ps|, i requires 0 <= i < |ps| => Clone(ps[i], next + i, recip)), next + |ps|)
  }

  predicate ProperTree(t: Tree)
  {
    match t
    case Nil => true
    case Cell(ps, _, f, b) => Proper(ps) && ProperTree(f) && ProperTree(b)
  }

  /** clone: a new node with a copy of the plane, copies of the front and the back
      subtree, then copies of the polygons. */
  function CloneTree(t: Tree, next: nat, recip: Recip): (r: (Tree, nat))
    requires ProperTree(t)
  {
    match t
    case Nil => (Nil, next)
    case Cell(ps, plane, f, b) =>
      var plane' := if plane.Some? then Some(Planes.Clone(plane.value, recip)) else None;
      var (f', n1) := CloneTree(f, next, recip);
      var (b', n2) := CloneTree(b, n1, recip);
      var (qs, n3) := CloneAll(ps, n2, recip);
      (Cell(qs, plane', f', b'), n3)
  }

  /** clone on a node, in terms of the clones of its subtrees. */
  lemma CloneTreeCell(t: Tree, next: nat, recip: Recip, f: (Tree, nat), b: (Tree, nat))
    requires ProperTree(t) && t.Cell?
    requires f == CloneTree(t.front, next, recip) && b == CloneTree(t.back, f.1, recip)
    ensures var plane := if t.plane.Some? then Some(Planes.Clone(t.plane.value, recip)) else None;
      var copies := CloneAll(t.polygons, b.1, recip);
      CloneTree(t, next, recip) == (Cell(copies.0, plane, f.0, b.0), copies.1)
  {
  }

  /** Two trees with the same planes in the same places. */
  predicate SameShape(t: Tree, u: Tree)
  {
    match t
    case Nil => u.Nil?
    case Cell(_, plane, f, b) => u.Cell? && u.plane == plane && SameShape(f, u.front) && SameShape(b, u.back)
  }

  /** q was made by an operation that started at reference next: its reference is at
      least next, and, coming from the constructor, it has at least three vertices. */
  predicate Made(q: Polygon, next: nat)
  {
    next <= q.ref && |q.vertices| >= 3
  }

  /** What splitPolygon hands out is the polygon itself or a polygon made from a
      reference at or above next. */
  lemma SplitOutputs(plane: Planes.Plane, p: Polygon, next: nat, recip: Recip)
    ensures var s := Splitting.SplitPolygon(plane, p, next, recip);
      forall q :: q in s.coplanarFront + s.coplanarBack + s.front + s.back ==> q == p || Made(q, next)
  {
    if Splitting.PolygonType(Splitting.Types(plane, p.vertices)) == Planes.Spanning {
      Splitting.SpanningPieces(plane, p, next, recip);
    }
  }

  /** What the two front roles receive has no vertex behind the plane. */
  lemma FrontRolesNotBehind(plane: Planes.Plane, p: Polygon, next: nat, recip: Recip)
    ensures var s := Splitting.SplitPolygon(plane, p, next, recip);
      forall q, v :: q in s.coplanarFront + s.front && v in q.vertices ==> Planes.Classify(plane, v.pos) != Planes.Back
  {
    var k := Splitting.PolygonType(Splitting.Types(plane, p.vertices));
    Splitting.PolygonTypeOfVertices(plane, p.vertices);
    if k == Planes.Spanning {
      Splitting.SpanningPieces(plane, p, next, recip);
    }
  }

  /** Clipping an empty list gives an empty list and makes nothing. */
  lemma {:induction false} ClipEmpty(t: Tree, next: nat, recip: Recip)
    ensures Clip(t, [], next, recip) == ([], next)
  {
    match t
    case Nil =>
    case Cell(_, plane, f, b) =>
      if plane.Some? {
        assert SplitForClip(plane.value, [], next, recip) == ([], [], next);
        if f.Cell? { ClipEmpty(f, next, recip); }
        if b.Cell? { ClipEmpty(b, next, recip); }
        var fr := if f.Nil? then [] else Clip(f, [], next, recip).0;
        var br := if b.Nil? then [] else Clip(b, [], next, recip).0;
        assert fr == [] && br == [];
        assert Clip(t, [], next, recip).0 == fr + br;
      }
  }

  /** Splitting for clipping hands out only the given polygons and new ones. */
  lemma {:induction false} SplitForClipOutputs(plane: Planes.Plane, ps: seq<Polygon>, next: nat, recip: Recip)
    ensures var (fs, bs, _) := SplitForClip(plane, ps, next, recip);
      forall q :: q in fs + bs ==> q in ps || Made(q, next)
    decreases |ps|
  {
    if ps != [] {
      var init := ps[..|ps| - 1];
      SplitForClipOutputs(plane, init, next, recip);
      var (fs, bs, n) := SplitForClip(plane, init, next, recip);
      var p := ps[|ps| - 1];
      var s := Splitting.SplitPolygon(plane, p, n, recip);
      SplitOutputs(plane, p, n, recip);
      var all := s.coplanarFront + s.coplanarBack + s.front + s.back;
      forall q | q in (fs + s.coplanarFront + s.front) + (bs + s.coplanarBack + s.back)
        ensures q in ps || Made(q, next)
      {
        if q in fs + bs {
          assert q in init || Made(q, next);
        } else {
          assert q in all;
        }
      }
    }
  }

  /** Every polygon the front list of a split for clipping receives has no vertex
      behind the plane. */
  lemma {:induction false} SplitForClipFrontNotBehind(plane: Planes.Plane, ps: seq<Polygon>, next: nat, recip: Recip)
    ensures forall q, v :: q in SplitForClip(plane, ps, next, recip).0 && v in q.vertices ==>
      Planes.Classify(plane, v.pos) != Planes.Back
    decreases |ps|
  {
    if ps != [] {
      var init := ps[..|ps| - 1];
      SplitForClipFrontNotBehind(plane, init, next, recip);
      FrontRolesNotBehind(plane, ps[|ps| - 1], SplitForClip(plane, init, next, recip).2, recip);
    }
  }

  /** Clipping hands out only the given polygons and new ones. */
  lemma {:induction false} ClipOutputs(t: Tree, ps: seq<Polygon>, next: nat, recip: Recip)
    ensures forall q :: q in Clip(t, ps, next, recip).0 ==> q in ps || Made(q, next)
  {
    match t
    case Nil =>
    case Cell(_, plane, f, b) =>
      if plane.Some? {
        var (fs, bs, n1) := SplitForClip(plane.value, ps, next, recip);
        SplitForClipOutputs(plane.value, ps, next, recip);
        if f.Cell? { ClipOutputs(f, fs, n1, recip); }
        var n2 := if f.Nil? then n1 else Clip(f, fs, n1, recip).1;
        if b.Cell? { ClipOutputs(b, bs, n2, recip); }
      }
  }

  /** Clipping by a single node keeps what lies in front of its plane, whole, and
      returns nothing with a vertex behind it. */
  lemma ClipByLeaf(own: seq<Polygon>, plane: Planes.Plane, ps: seq<Polygon>, next: nat, recip: Recip)
    ensures var r := Clip(Cell(own, Some(plane), Nil, Nil), ps, next, recip).0;
      && (forall q, v :: q in r && v in q.vertices ==> Planes.Classify(plane, v.pos) != Planes.Back)
      && (forall p :: p in ps && Splitting.PolygonType(Splitting.Types(plane, p.vertices)) == Planes.Front ==> p in r)
  {
    SplitForClipFrontNotBehind(plane, ps, next, recip);
    SplitForClipKeepsFront(plane, ps, next, recip);
  }

  /** A polygon wholly in front of the plane reaches the front list as it is. */
  lemma {:induction false} SplitForClipKeepsFront(plane: Planes.Plane, ps: seq<Polygon>, next: nat, recip: Recip)
    ensures forall p :: p in ps && Splitting.PolygonType(Splitting.Types(plane, p.vertices)) == Planes.Front ==>
      p in SplitForClip(plane, ps, next, recip).0
    decreases |ps|
  {
    if ps != [] {
      var init := ps[..|ps| - 1];
      SplitForClipKeepsFront(plane, init, next, recip);
      assert ps == init + [ps[|ps| - 1]];
    }
  }

  /** clipTo keeps every plane where it was, keeps the tree well-formed, and leaves in
      it only polygons it held before and new ones. */
  lemma {:induction false} ClipToKeepsShape(t: Tree, bsp: Tree, next: nat, recip: Recip)
    ensures SameShape(t, ClipTo(t, bsp, next, recip).0)
    ensures WellFormed(t) ==> WellFormed(ClipTo(t, bsp, next, recip).0)
    ensures forall q :: q in AllPolygons(ClipTo(t, bsp, next, recip).0) ==> q in AllPolygons(t) || Made(q, next)
  {
    match t
    case Nil =>
    case Cell(ps, plane, f, b) =>
      var (qs, n1) := Clip(bsp, ps, next, recip);
      var (f', n2) := ClipTo(f, bsp, n1, recip);
      ClipOutputs(bsp, ps, next, recip);
      ClipToKeepsShape(f, bsp, n1, recip);
      ClipToKeepsShape(b, bsp, n2, recip);
      if ps == [] { ClipEmpty(bsp, next, recip); }
  }

  /** Splitting for build hands out only the given polygons and new ones. */
  lemma {:induction false} SplitForBuildOutputs(plane: Planes.Plane, ps: seq<Polygon>, next: nat, recip: Recip)
    ensures var (cs, fs, bs, _) := SplitForBuild(plane, ps, next, recip);
      forall q :: q in cs + fs + bs ==> q in ps || Made(q, next)
    decreases |ps|
  {
    if ps != [] {
      var init := ps[..|ps| - 1];
      SplitForBuildOutputs(plane, init, next, recip);
      var (cs, fs, bs, n) := SplitForBuild(plane, init, next, recip);
      var p := ps[|ps| - 1];
      var s := Splitting.SplitPolygon(plane, p, n, recip);
      SplitOutputs(plane, p, n, recip);
      var all := s.coplanarFront + s.coplanarBack + s.front + s.back;
      forall q | q in (cs + s.coplanarFront + s.coplanarBack) + (fs + s.front) + (bs + s.back)
        ensures q in ps || Made(q, next)
      {
        if q in cs + fs + bs {
          assert q in init || Made(q, next);
        } else {
          assert q in all;
        }
      }
    }
  }

  /** build keeps every polygon the tree held. */
  lemma {:induction false} BuildKeepsOld(t: Tree, ps: seq<Polygon>, next: nat, recip: Recip, fuel: nat)
    ensures forall q :: q in AllPolygons(t) ==> q in AllPolygons(Build(t, ps, next, recip, fuel).0)
    decreases fuel, 0
  {
    match t
    case Nil =>
    case Cell(own, plane0, f, b) =>
      if |ps| > 0 && fuel > 0 {
        var plane := if plane0.Some? then plane0.value else Planes.Clone(ps[0].plane, recip);
        var parts := Partition(plane, ps, next, recip);
        var front := Descend(f, parts.1, parts.3, recip, fuel - 1);
        DescendKeepsOld(f, parts.1, parts.3, recip, fuel - 1);
        DescendKeepsOld(b, parts.2, front.1, recip, fuel - 1);
      }
  }

  lemma {:induction false} DescendKeepsOld(child: Tree, ps: seq<Polygon>, next: nat, recip: Recip, fuel: nat)
    ensures forall q :: q in AllPolygons(child) ==> q in AllPolygons(Descend(child, ps, next, recip, fuel).0)
    decreases fuel, 1
  {
    if |ps| > 0 {
      BuildKeepsOld(if child.Nil? then Empty else child, ps, next, recip, fuel);
    }
  }

  /** Every polygon of qs is one of olds, one of ps, or made from reference next on. */
  predicate ComeFrom(qs: seq<Polygon>, olds: seq<Polygon>, ps: seq<Polygon>, next: nat)
  {
    forall q :: q in qs ==> q in olds || q in ps || Made(q, next)
  }

  /** build adds only polygons it was given and new ones. */
  lemma {:induction false} BuildAddsOnly(t: Tree, ps: seq<Polygon>, next: nat, recip: Recip, fuel: nat)
    ensures ComeFrom(AllPolygons(Build(t, ps, next, recip, fuel).0), AllPolygons(t), ps, next)
    decreases fuel, 0
  {
    if t.Cell? && |ps| > 0 && fuel > 0 {
      var plane := if t.plane.Some? then t.plane.value else Planes.Clone(ps[0].plane, recip);
      var parts := Partition(plane, ps, next, recip);
      var front := Descend(t.front, parts.1, parts.3, recip, fuel - 1);
      var back := Descend(t.back, parts.2, front.1, recip, fuel - 1);
      DescendAddsOnly(t.front, parts.1, parts.3, recip, fuel - 1, front);
      DescendAddsOnly(t.back, parts.2, front.1, recip, fuel - 1, back);
      BuildCellOrigins(t, ps, next, recip, fuel, plane, parts, front, back);
    }
  }

  /** build on a node adds only polygons it was given and new ones, when its children's
      builds do. */
  lemma BuildCellOrigins(t: Tree, ps: seq<Polygon>, next: nat, recip: Recip, fuel: nat, p: Planes.Plane,
                         parts: (seq<Polygon>, seq<Polygon>, seq<Polygon>, nat), f: (Tree, nat), b: (Tree, nat))
    requires t.Cell? && |ps| > 0 && fuel > 0
    requires p == if t.plane.Some? then t.plane.value else Planes.Clone(ps[0].plane, recip)
    requires parts == Partition(p, ps, next, recip)
    requires f == Descend(t.front, parts.1, parts.3, recip, fuel - 1)
    requires b == Descend(t.back, parts.2, f.1, recip, fuel - 1)
    requires ComeFrom(AllPolygons(f.0), AllPolygons(t.front), parts.1, parts.3)
    requires ComeFrom(AllPolygons(b.0), AllPolygons(t.back), parts.2, f.1)
    ensures ComeFrom(AllPolygons(Build(t, ps, next, recip, fuel).0), AllPolygons(t), ps, next)
  {
    BuildAllPolygons(t, ps, next, recip, fuel, p, parts, f, b);
    PartitionOutputs(p, ps, next, recip);
    CellOrigins(t, ps, next, parts.0, parts.1, parts.2, parts.3, f.1, AllPolygons(f.0), AllPolygons(b.0));
  }

  /** The polygons of a node after build come from the old tree, the list, or new
      references, when its parts and its children's do. */
  lemma CellOrigins(t: Tree, ps: seq<Polygon>, next: nat, own: seq<Polygon>, fs: seq<Polygon>, bs: seq<Polygon>,
                    n1: nat, n2: nat, front: seq<Polygon>, back: seq<Polygon>)
    requires t.Cell? && next <= n1 <= n2
    requires ComeFrom(own + fs + bs, [], ps, next)
    requires ComeFrom(front, AllPolygons(t.front), fs, n1)
    requires ComeFrom(back, AllPolygons(t.back), bs, n2)
    ensures ComeFrom(t.polygons + own + front + back, AllPolygons(t), ps, next)
  {
  }

  lemma PartitionOutputs(plane: Planes.Plane, ps: seq<Polygon>, next: nat, recip: Recip)
    ensures var parts := Partition(plane, ps, next, recip);
      ComeFrom(parts.0 + parts.1 + parts.2, [], ps, next)
  {
    SplitForBuildOutputs(plane, Distinct(ValidOnly(ps)), next, recip);
    ValidOnlyKeepsValid(ps);
    DistinctKeepsObjects(ValidOnly(ps));
  }

  lemma {:induction false} DescendAddsOnly(child: Tree, ps: seq<Polygon>, next: nat, recip: Recip, fuel: nat,
                                           r: (Tree, nat))
    requires r == Descend(child, ps, next, recip, fuel)
    ensures ComeFrom(AllPolygons(r.0), AllPolygons(child), ps, next)
    decreases fuel, 1
  {
    if |ps| > 0 {
      BuildAddsOnly(if child.Nil? then Empty else child, ps, next, recip, fuel);
    }
  }

  /** build keeps a tree well-formed and gives a node that had no plane one. */
  lemma {:induction false} BuildWellFormed(t: Tree, ps: seq<Polygon>, next: nat, recip: Recip, fuel: nat)
    requires WellFormed(t)
    ensures WellFormed(Build(t, ps, next, recip, fuel).0)
    ensures t.Cell? && |ps| > 0 && fuel > 0 ==> Build(t, ps, next, recip, fuel).0.plane.Some?
    decreases fuel, 0
  {
    match t
    case Nil =>
    case Cell(own, plane0, f, b) =>
      if |ps| > 0 && fuel > 0 {
        var plane := if plane0.Some? then plane0.value else Planes.Clone(ps[0].plane, recip);
        var parts := Partition(plane, ps, next, recip);
        var front := Descend(f, parts.1, parts.3, recip, fuel - 1);
        DescendWellFormed(f, parts.1, parts.3, recip, fuel - 1);
        DescendWellFormed(b, parts.2, front.1, recip, fuel - 1);
      }
  }

  lemma {:induction false} DescendWellFormed(child: Tree, ps: seq<Polygon>, next: nat, recip: Recip, fuel: nat)
    requires WellFormed(child)
    ensures WellFormed(Descend(child, ps, next, recip, fuel).0)
    decreases fuel, 1
  {
    if |ps| > 0 {
      BuildWellFormed(if child.Nil? then Empty else child, ps, next, recip, fuel);
    }
  }

  /** q is a copy of p: the same storage and the same positions. */
  predicate CopyOf(q: Polygon, p: Polygon)
  {
    q.storage == p.storage && Positions(q.vertices) == Positions(p.vertices)
  }

  /** cs are copies of ps, element by element, with references in [lo, hi). */
  predicate Copies(cs: seq<Polygon>, ps: seq<Polygon>, lo: nat, hi: nat)
  {
    |cs| == |ps| && forall i :: 0 <= i < |cs| ==> CopyOf(cs[i], ps[i]) && lo <= cs[i].ref < hi
  }

  lemma CopiesAppend(c1: seq<Polygon>, p1: seq<Polygon>, c2: seq<Polygon>, p2: seq<Polygon>, lo: nat, hi: nat,
                     lo': nat, hi': nat)
    requires lo' <= lo && hi <= hi'
    requires Copies(c1, p1, lo, hi) && Copies(c2, p2, lo', hi')
    ensures Copies(c1 + c2, p1 + p2, lo', hi')
  {
  }

  lemma CloneAllCopies(ps: seq<Polygon>, next: nat, recip: Recip)
    requires Proper(ps)
    ensures Copies(CloneAll(ps, next, recip).0, ps, next, CloneAll(ps, next, recip).1)
  {
    var (qs, n) := CloneAll(ps, next, recip);
    forall i | 0 <= i < |ps| ensures CopyOf(qs[i], ps[i]) && next <= qs[i].ref < n {
      CloneShares(ps[i], next + i, recip);
    }
  }

  /** A cloned tree holds, position for position, copies of the polygons sharing their
      storage, under new references from next on, one per polygon; it keeps the shape
      of a well-formed tree. */
  lemma {:induction false} CloneTreeCopies(t: Tree, next: nat, recip: Recip)
    requires ProperTree(t)
    ensures var (c, n) := CloneTree(t, next, recip);
      && Copies(AllPolygons(c), AllPolygons(t), next, n)
      && n == next + |AllPolygons(t)|
      && (WellFormed(t) ==> WellFormed(c))
  {
    match t
    case Nil =>
    case Cell(ps, plane, f, b) =>
      var (f', n1) := CloneTree(f, next, recip);
      var (b', n2) := CloneTree(b, n1, recip);
      var (qs, n3) := CloneAll(ps, n2, recip);
      CloneTreeCopies(f, next, recip);
      CloneTreeCopies(b, n1, recip);
      CloneAllCopies(ps, n2, recip);
      CopiesAppend(qs, ps, AllPolygons(f'), AllPolygons(f), n2, n3, next, n3);
      CopiesAppend(qs + AllPolygons(f'), ps + AllPolygons(f), AllPolygons(b'), AllPolygons(b), next, n3, next, n3);
  }
}
