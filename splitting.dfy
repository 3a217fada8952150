/**
 * Plane.splitPolygon (CSharpCSG/Plane.cs): classify every vertex of a polygon
 * against a plane, or the classes together bitwise, and route the polygon to
 * one of four lists, cutting it in two when it spans the plane.
 */
module Splitting {
  import opened Vectors
  import opened Vertices
  import opened Planes
  import opened Polygons
  import opened Storage

  /** The class of every vertex. */
  function Types(plane: Plane, vs: seq<Vertex>): (ts: seq<Kind>)
    ensures |ts| == |vs| && forall i :: 0 <= i < |vs| ==> ts[i] == Classify(plane, vs[i].pos)
  {
    seq(|vs|, i requires 0 <= i < |vs| => Classify(plane, vs[i].pos))
  }

  /** The classes or-ed together, starting from COPLANAR. */
  function PolygonType(ts: seq<Kind>): Kind
  {
    if ts == [] then Coplanar else Or(PolygonType(ts[..|ts| - 1]), ts[|ts| - 1])
  }

  /** The polygon's class has its FRONT bit exactly when some vertex has, and its BACK
      bit exactly when some vertex has. */
  lemma {:induction false} PolygonTypeBits(ts: seq<Kind>)
    ensures HasFront(PolygonType(ts)) <==> exists i :: 0 <= i < |ts| && HasFront(ts[i])
    ensures HasBack(PolygonType(ts)) <==> exists i :: 0 <= i < |ts| && HasBack(ts[i])
  {
    if ts != [] {
      var init := ts[..|ts| - 1];
      PolygonTypeBits(init);
      assert forall i :: 0 <= i < |init| ==> init[i] == ts[i];
      if exists i :: 0 <= i < |ts| && HasFront(ts[i]) {
        var i :| 0 <= i < |ts| && HasFront(ts[i]);
        if i < |init| { assert HasFront(init[i]); }
      }
      if exists i :: 0 <= i < |ts| && HasBack(ts[i]) {
        var i :| 0 <= i < |ts| && HasBack(ts[i]);
        if i < |init| { assert HasBack(init[i]); }
      }
    }
  }

  /** For the classes of actual vertices: the polygon is COPLANAR when every vertex is,
      FRONT when no vertex is BACK and one is FRONT, BACK symmetrically, SPANNING when
      one vertex is FRONT and another BACK. */
  lemma PolygonTypeOfVertices(plane: Plane, vs: seq<Vertex>)
    ensures var k := PolygonType(Types(plane, vs));
      && (k == Coplanar <==> forall i :: 0 <= i < |vs| ==> Classify(plane, vs[i].pos) == Coplanar)
      && (k == Front <==> (exists i :: 0 <= i < |vs| && Classify(plane, vs[i].pos) == Front)
                          && forall i :: 0 <= i < |vs| ==> Classify(plane, vs[i].pos) != Back)
      && (k == Back <==> (exists i :: 0 <= i < |vs| && Classify(plane, vs[i].pos) == Back)
                         && forall i :: 0 <= i < |vs| ==> Classify(plane, vs[i].pos) != Front)
      && (k == Spanning <==> (exists i :: 0 <= i < |vs| && Classify(plane, vs[i].pos) == Front)
                             && exists i :: 0 <= i < |vs| && Classify(plane, vs[i].pos) == Back)
  {
    var ts := Types(plane, vs);
    PolygonTypeBits(ts);
  }

  /** An edge whose ends are FRONT and BACK is not parallel to the plane. */
  lemma CrossingEdge(plane: Plane, a: Vec3, b: Vec3)
    requires Or(Classify(plane, a), Classify(plane, b)) == Spanning
    ensures Dot(plane.normal, Minus(b, a)) != 0.0
  {
    assert Dot(plane.normal, Minus(b, a)) == Dot(plane.normal, b) - Dot(plane.normal, a);
  }

  /** The point where the edge from vi to vj meets the plane. */
  function Cut(plane: Plane, vi: Vertex, vj: Vertex): (v: Vertex)
    requires Or(Classify(plane, vi.pos), Classify(plane, vj.pos)) == Spanning
    ensures Dot(plane.normal, v.pos) == plane.dist
    ensures v.weight == DefaultWeight
  {
    CrossingEdge(plane, vi.pos, vj.pos);
    var t := (plane.dist - Dot(plane.normal, vi.pos)) / Dot(plane.normal, Minus(vj.pos, vi.pos));
    DotLerp(plane.normal, vi.pos, vj.pos, t);
    Interpolate(vi, vj, t)
  }

  /** The index after i, cyclically: (i + 1) mod n. */
  function NextIndex(i: nat, n: nat): (j: nat)
    requires i < n
    ensures j < n && j == (i + 1) % n
  {
    if i + 1 < n then i + 1 else 0
  }

  /** What pass i of the spanning loop appends to the front and the back vertex lists:
      vertex i when it is not BACK (resp. not FRONT, as a copy when it is coplanar), then
      the cut point when the edge to the next vertex crosses the plane. */
  function Step(plane: Plane, vs: seq<Vertex>, i: nat): (seq<Vertex>, seq<Vertex>)
    requires i < |vs|
  {
    var j := NextIndex(i, |vs|);
    var ti, tj := Classify(plane, vs[i].pos), Classify(plane, vs[j].pos);
    var crossing := Or(ti, tj) == Spanning;
    ((if ti != Back then [vs[i]] else []) + (if crossing then [Cut(plane, vs[i], vs[j])] else []),
     (if ti != Front then [if ti != Back then Vertices.Clone(vs[i]) else vs[i]] else [])
       + (if crossing then [Vertices.Clone(Cut(plane, vs[i], vs[j]))] else []))
  }

  /** The front and back vertex lists after the first k passes. */
  function Fragments(plane: Plane, vs: seq<Vertex>, k: nat): (seq<Vertex>, seq<Vertex>)
    requires k <= |vs|
  {
    if k == 0 then ([], [])
    else
      var prev, step := Fragments(plane, vs, k - 1), Step(plane, vs, k - 1);
      (prev.0 + step.0, prev.1 + step.1)
  }

  /** Every vertex of the front list is an original vertex that is not BACK or a point
      on the plane; every vertex of the back list an original vertex that is not FRONT or
      a point on the plane. */
  predicate FrontSide(plane: Plane, vs: seq<Vertex>, v: Vertex)
  {
    (v in vs && Classify(plane, v.pos) != Back) || Dot(plane.normal, v.pos) == plane.dist
  }

  predicate BackSide(plane: Plane, vs: seq<Vertex>, v: Vertex)
  {
    (v in vs && Classify(plane, v.pos) != Front) || Dot(plane.normal, v.pos) == plane.dist
  }

  lemma StepOnItsSide(plane: Plane, vs: seq<Vertex>, i: nat)
    requires i < |vs|
    ensures forall v :: v in Step(plane, vs, i).0 ==> FrontSide(plane, vs, v)
    ensures forall v :: v in Step(plane, vs, i).1 ==> BackSide(plane, vs, v)
  {
    assert vs[i] in vs;
  }

  lemma FragmentsOnTheirSide(plane: Plane, vs: seq<Vertex>, k: nat)
    requires k <= |vs|
    ensures forall v :: v in Fragments(plane, vs, k).0 ==> FrontSide(plane, vs, v)
    ensures forall v :: v in Fragments(plane, vs, k).1 ==> BackSide(plane, vs, v)
  {
    forall i | 0 <= i < k
      ensures forall v :: v in Step(plane, vs, i).0 ==> FrontSide(plane, vs, v)
      ensures forall v :: v in Step(plane, vs, i).1 ==> BackSide(plane, vs, v)
    {
      StepOnItsSide(plane, vs, i);
    }
    FragmentsWithin(plane, vs, k, v => FrontSide(plane, vs, v), v => BackSide(plane, vs, v));
  }

  /** When every pass appends only vertices satisfying front (resp. back), the front
      (resp. back) list after k passes holds only such vertices. */
  lemma {:induction false} FragmentsWithin(plane: Plane, vs: seq<Vertex>, k: nat, front: Vertex -> bool, back: Vertex -> bool)
    requires k <= |vs|
    requires forall i, v :: 0 <= i < k && v in Step(plane, vs, i).0 ==> front(v)
    requires forall i, v :: 0 <= i < k && v in Step(plane, vs, i).1 ==> back(v)
    ensures forall v :: v in Fragments(plane, vs, k).0 ==> front(v)
    ensures forall v :: v in Fragments(plane, vs, k).1 ==> back(v)
  {
    if k > 0 {
      FragmentsWithin(plane, vs, k - 1, front, back);
    }
  }

  /** Pass i cuts the edge from vertex i to the next one: the two ends span the plane. */
  predicate Crosses(plane: Plane, vs: seq<Vertex>, i: nat)
    requires i < |vs|
  {
    Or(Classify(plane, vs[i].pos), Classify(plane, vs[NextIndex(i, |vs|)].pos)) == Spanning
  }

  /** The cut point pass i appends, when its edge crosses the plane. */
  function StepCut(plane: Plane, vs: seq<Vertex>, i: nat): seq<Vertex>
    requires i < |vs|
  {
    if Crosses(plane, vs, i) then [Cut(plane, vs[i], vs[NextIndex(i, |vs|)])] else []
  }

  /** Vertex i, when it is not of class `side`. */
  function StepKept(plane: Plane, vs: seq<Vertex>, i: nat, side: Kind): seq<Vertex>
    requires i < |vs|
  {
    if Classify(plane, vs[i].pos) != side then [vs[i]] else []
  }

  /** The marks of what pass i appends to the list that leaves out `side`: false for
      the kept vertex, then true for the cut. */
  function StepMarks(plane: Plane, vs: seq<Vertex>, i: nat, side: Kind): seq<bool>
    requires i < |vs|
  {
    (if Classify(plane, vs[i].pos) != side then [false] else []) + (if Crosses(plane, vs, i) then [true] else [])
  }

  /** The cut points of the first k edges, in order. */
  function Cuts(plane: Plane, vs: seq<Vertex>, k: nat): seq<Vertex>
    requires k <= |vs|
  {
    if k == 0 then [] else Cuts(plane, vs, k - 1) + StepCut(plane, vs, k - 1)
  }

  /** The first k original vertices that are not of class `side`, in order. */
  function KeptVertices(plane: Plane, vs: seq<Vertex>, k: nat, side: Kind): seq<Vertex>
    requires k <= |vs|
  {
    if k == 0 then [] else KeptVertices(plane, vs, k - 1, side) + StepKept(plane, vs, k - 1, side)
  }

  /** Which entries of the list that leaves out class `side` are cut points. */
  function CutMarks(plane: Plane, vs: seq<Vertex>, k: nat, side: Kind): seq<bool>
    requires k <= |vs|
  {
    if k == 0 then [] else CutMarks(plane, vs, k - 1, side) + StepMarks(plane, vs, k - 1, side)
  }

  /** The entries of xs whose mark is b, in order. */
  function SelectMarked(xs: seq<Vertex>, marks: seq<bool>, b: bool): seq<Vertex>
    requires |xs| == |marks|
  {
    if xs == [] then []
    else (if marks[0] == b then [xs[0]] else []) + SelectMarked(xs[1..], marks[1..], b)
  }

  /** Selecting from two joined lists selects from each. */
  lemma {:induction false} SelectMarkedAppend(xs: seq<Vertex>, ms: seq<bool>, ys: seq<Vertex>, ns: seq<bool>, b: bool)
    requires |xs| == |ms| && |ys| == |ns|
    ensures SelectMarked(xs + ys, ms + ns, b) == SelectMarked(xs, ms, b) + SelectMarked(ys, ns, b)
    decreases |xs|
  {
    if xs != [] {
      SelectMarkedAppend(xs[1..], ms[1..], ys, ns, b);
      assert (xs + ys)[1..] == xs[1..] + ys;
      assert (ms + ns)[1..] == ms[1..] + ns;
    } else {
      assert xs + ys == ys && ms + ns == ns;
    }
  }

  /** What one pass appends, split by its marks: the kept vertex, then the cut; the
      back list receives a clone of each, which is an equal vertex. */
  lemma StepMarked(plane: Plane, vs: seq<Vertex>, i: nat)
    requires i < |vs|
    ensures Step(plane, vs, i).0 == StepKept(plane, vs, i, Back) + StepCut(plane, vs, i)
    ensures Step(plane, vs, i).1 == StepKept(plane, vs, i, Front) + StepCut(plane, vs, i)
    ensures |StepMarks(plane, vs, i, Back)| == |Step(plane, vs, i).0|
    ensures |StepMarks(plane, vs, i, Front)| == |Step(plane, vs, i).1|
    ensures SelectMarked(Step(plane, vs, i).0, StepMarks(plane, vs, i, Back), true) == StepCut(plane, vs, i)
    ensures SelectMarked(Step(plane, vs, i).1, StepMarks(plane, vs, i, Front), true) == StepCut(plane, vs, i)
    ensures SelectMarked(Step(plane, vs, i).0, StepMarks(plane, vs, i, Back), false) == StepKept(plane, vs, i, Back)
    ensures SelectMarked(Step(plane, vs, i).1, StepMarks(plane, vs, i, Front), false) == StepKept(plane, vs, i, Front)
  {
    var cut, mc := StepCut(plane, vs, i), if Crosses(plane, vs, i) then [true] else [];
    var kf, mf := StepKept(plane, vs, i, Back), if Classify(plane, vs[i].pos) != Back then [false] else [];
    var kb, mb := StepKept(plane, vs, i, Front), if Classify(plane, vs[i].pos) != Front then [false] else [];
    SelectMarkedAppend(kf, mf, cut, mc, true);
    SelectMarkedAppend(kf, mf, cut, mc, false);
    SelectMarkedAppend(kb, mb, cut, mc, true);
    SelectMarkedAppend(kb, mb, cut, mc, false);
  }

  /** Joining two marked lists joins what each selects. */
  lemma InterleaveStep(prev: seq<Vertex>, pm: seq<bool>, step: seq<Vertex>, sm: seq<bool>,
                       cuts: seq<Vertex>, cut: seq<Vertex>, kept: seq<Vertex>, keep: seq<Vertex>)
    requires |prev| == |pm| && |step| == |sm|
    requires SelectMarked(prev, pm, true) == cuts && SelectMarked(step, sm, true) == cut
    requires SelectMarked(prev, pm, false) == kept && SelectMarked(step, sm, false) == keep
    ensures SelectMarked(prev + step, pm + sm, true) == cuts + cut
    ensures SelectMarked(prev + step, pm + sm, false) == kept + keep
  {
    SelectMarkedAppend(prev, pm, step, sm, true);
    SelectMarkedAppend(prev, pm, step, sm, false);
  }

  /** After k passes the list that leaves out class `side` (the front list for BACK,
      the back list for FRONT) interleaves the cut points of the first k edges, in
      order, with the first k originals not of class `side`, in order; the marks say
      which entries are cut points. */
  predicate Interleaved(plane: Plane, vs: seq<Vertex>, k: nat, side: Kind)
    requires k <= |vs|
  {
    var list := if side == Back then Fragments(plane, vs, k).0 else Fragments(plane, vs, k).1;
    var marks := CutMarks(plane, vs, k, side);
    && |marks| == |list|
    && SelectMarked(list, marks, true) == Cuts(plane, vs, k)
    && SelectMarked(list, marks, false) == KeptVertices(plane, vs, k, side)
  }

  /** The spanning loop appends each cut point to the front list, between the original
      vertices that are not BACK: the front list interleaves the cut points, in order,
      with those vertices, in order. */
  lemma {:induction false} FrontInterleaves(plane: Plane, vs: seq<Vertex>, k: nat)
    requires k <= |vs|
    ensures Interleaved(plane, vs, k, Back)
  {
    if k > 0 {
      FrontInterleaves(plane, vs, k - 1);
      FrontStep(plane, vs, k);
    }
  }

  /** The spanning loop appends the clone of each cut point, an equal vertex, to the
      back list, between the original vertices that are not FRONT: the back list
      interleaves the same cut points, in the same order, with those vertices. */
  lemma {:induction false} BackInterleaves(plane: Plane, vs: seq<Vertex>, k: nat)
    requires k <= |vs|
    ensures Interleaved(plane, vs, k, Front)
  {
    if k > 0 {
      BackInterleaves(plane, vs, k - 1);
      BackStep(plane, vs, k);
    }
  }

  /** One pass keeps the front list interleaved. */
  lemma FrontStep(plane: Plane, vs: seq<Vertex>, k: nat)
    requires 0 < k <= |vs| && Interleaved(plane, vs, k - 1, Back)
    ensures Interleaved(plane, vs, k, Back)
  {
    var i := k - 1;
    var prev, pm := Fragments(plane, vs, i).0, CutMarks(plane, vs, i, Back);
    var step, sm := Step(plane, vs, i).0, StepMarks(plane, vs, i, Back);
    StepMarked(plane, vs, i);
    assert Fragments(plane, vs, k).0 == prev + step;
    assert CutMarks(plane, vs, k, Back) == pm + sm;
    InterleaveStep(prev, pm, step, sm, Cuts(plane, vs, i), StepCut(plane, vs, i), KeptVertices(plane, vs, i, Back), StepKept(plane, vs, i, Back));
  }

  /** One pass keeps the back list interleaved. */
  lemma BackStep(plane: Plane, vs: seq<Vertex>, k: nat)
    requires 0 < k <= |vs| && Interleaved(plane, vs, k - 1, Front)
    ensures Interleaved(plane, vs, k, Front)
  {
    var i := k - 1;
    var prev, pm := Fragments(plane, vs, i).1, CutMarks(plane, vs, i, Front);
    var step, sm := Step(plane, vs, i).1, StepMarks(plane, vs, i, Front);
    StepMarked(plane, vs, i);
    assert Fragments(plane, vs, k).1 == prev + step;
    assert CutMarks(plane, vs, k, Front) == pm + sm;
    InterleaveStep(prev, pm, step, sm, Cuts(plane, vs, i), StepCut(plane, vs, i), KeptVertices(plane, vs, i, Front), StepKept(plane, vs, i, Front));
  }

  /** A point of a fragment is never on the wrong side: on the plane means COPLANAR. */
  lemma SideMeansClass(plane: Plane, vs: seq<Vertex>, v: Vertex)
    ensures FrontSide(plane, vs, v) ==> Classify(plane, v.pos) != Back
    ensures BackSide(plane, vs, v) ==> Classify(plane, v.pos) != Front
  {
    if Dot(plane.normal, v.pos) == plane.dist {
      OnPlaneIsCoplanar(plane, v.pos);
    }
  }

  /** The outcome of one split: what each of the four lists receives, and the next free
      reference after the fragments were made. */
  datatype Split = Split(coplanarFront: seq<Polygon>, coplanarBack: seq<Polygon>,
                         front: seq<Polygon>, back: seq<Polygon>, next: nat)

  /** A fragment with at least three vertices becomes a new polygon sharing the split
      polygon's storage; a smaller one is dropped. */
  function Fragment(vs: seq<Vertex>, storage: PropertyStorage, next: nat, recip: Recip): (seq<Polygon>, nat)
  {
    if |vs| >= 3 then ([Make(next, vs, storage, recip)], next + 1) else ([], next)
  }

  /** splitPolygon as a function of the plane, the polygon and the next free reference. */
  function SplitPolygon(plane: Plane, p: Polygon, next: nat, recip: Recip): (s: Split)
    ensures s.next >= next
    ensures |s.coplanarFront| + |s.coplanarBack| + |s.front| + |s.back| <= 2
  {
    var k := PolygonType(Types(plane, p.vertices));
    if k != Spanning then Whole(p, k, Dot(plane.normal, p.plane.normal) > 0.0, next)
    else Pieces(plane, p, next, recip)
  }

  /** A polygon of class k that does not span the plane goes whole to one list; a
      coplanar one by whether it faces the way the plane does. */
  function Whole(p: Polygon, k: Kind, facing: bool, next: nat): Split
    requires k != Spanning
  {
    if k == Coplanar then
      if facing then Split([p], [], [], [], next) else Split([], [p], [], [], next)
    else if k == Front then Split([], [], [p], [], next)
    else Split([], [], [], [p], next)
  }

  /** A spanning polygon's two fragments, each kept when it has at least three vertices. */
  function Pieces(plane: Plane, p: Polygon, next: nat, recip: Recip): Split
  {
    var (f, b) := Fragments(plane, p.vertices, |p.vertices|);
    PiecesOf(f, b, p.storage, next, recip)
  }

  /** Routing: a polygon that does not span the plane goes, as the same object, to
      exactly one list — coplanar-front or coplanar-back by the orientation of its own
      normal, front, or back — and allocates nothing. References below `next` are taken,
      so the polygon's own is one of them. */
  lemma SplitRouting(plane: Plane, p: Polygon, next: nat, recip: Recip)
    requires p.ref < next
    ensures var s := SplitPolygon(plane, p, next, recip);
      var k := PolygonType(Types(plane, p.vertices));
      && (k == Coplanar && Dot(plane.normal, p.plane.normal) > 0.0 <==> s.coplanarFront == [p])
      && (k == Coplanar && Dot(plane.normal, p.plane.normal) <= 0.0 <==> s.coplanarBack == [p])
      && (k == Front <==> s.front == [p])
      && (k == Back <==> s.back == [p])
      && (k != Spanning ==> s.next == next && |s.coplanarFront| + |s.coplanarBack| + |s.front| + |s.back| == 1)
  {
    var k := PolygonType(Types(plane, p.vertices));
    if k == Spanning {
      SpanningPieces(plane, p, next, recip);
    }
  }

  /** What the spanning loop promises of its two lists: the front list interleaves the
      cut points, in order, with the originals that are not BACK, and the back list
      interleaves the same cut points, in the same order, with the originals that are not
      FRONT; every cut point lies on the plane. */
  predicate SharedCuts(plane: Plane, vs: seq<Vertex>)
  {
    && Interleaved(plane, vs, |vs|, Back) && Interleaved(plane, vs, |vs|, Front)
    && (forall v :: v in Cuts(plane, vs, |vs|) ==> Dot(plane.normal, v.pos) == plane.dist)
  }

  /** A spanning polygon goes to neither coplanar list; its pieces are new polygons with
      the next free references, sharing its storage, and no vertex of the front piece is
      BACK of the plane, nor any vertex of the back piece FRONT of it. The pieces carry
      the positions of the two fragment lists, which share the cut points: the cut
      vertex goes to the front piece and its clone to the back piece. */
  lemma SpanningPieces(plane: Plane, p: Polygon, next: nat, recip: Recip)
    requires PolygonType(Types(plane, p.vertices)) == Spanning
    ensures var s := SplitPolygon(plane, p, next, recip);
      && s.coplanarFront == [] && s.coplanarBack == []
      && s.next == next + |s.front| + |s.back|
      && (forall q :: q in s.front + s.back ==> next <= q.ref < s.next && q.storage == p.storage && |q.vertices| >= 3)
      && (forall q, v :: q in s.front && v in q.vertices ==> Classify(plane, v.pos) != Back)
      && (forall q, v :: q in s.back && v in q.vertices ==> Classify(plane, v.pos) != Front)
    ensures var s := SplitPolygon(plane, p, next, recip);
      var (f, b) := Fragments(plane, p.vertices, |p.vertices|);
      && (forall q :: q in s.front ==> Positions(q.vertices) == Positions(f))
      && (forall q :: q in s.back ==> Positions(q.vertices) == Positions(b))
      && SharedCuts(plane, p.vertices)
  {
    PiecesPlaced(plane, p, next, recip);
    PiecesOnSides(plane, p, next, recip);
    PiecesPositions(plane, p, next, recip);
    LoopSharesCuts(plane, p.vertices);
  }

  /** The lists, references and storage of a spanning polygon's pieces. */
  lemma PiecesPlaced(plane: Plane, p: Polygon, next: nat, recip: Recip)
    requires PolygonType(Types(plane, p.vertices)) == Spanning
    ensures var s := SplitPolygon(plane, p, next, recip);
      && s.coplanarFront == [] && s.coplanarBack == []
      && s.next == next + |s.front| + |s.back|
      && (forall q :: q in s.front + s.back ==> next <= q.ref < s.next && q.storage == p.storage && |q.vertices| >= 3)
  {
    var s := SplitPolygon(plane, p, next, recip);
    var (f, b) := Fragments(plane, p.vertices, |p.vertices|);
    FragmentPositions(f, p.storage, next, recip);
    var n1 := Fragment(f, p.storage, next, recip).1;
    FragmentPositions(b, p.storage, n1, recip);
    assert s.front == Fragment(f, p.storage, next, recip).0;
    assert s.back == Fragment(b, p.storage, n1, recip).0;
  }

  /** No vertex of the front piece is BACK, and none of the back piece FRONT. */
  lemma PiecesOnSides(plane: Plane, p: Polygon, next: nat, recip: Recip)
    requires PolygonType(Types(plane, p.vertices)) == Spanning
    ensures var s := SplitPolygon(plane, p, next, recip);
      && (forall q, v :: q in s.front && v in q.vertices ==> Classify(plane, v.pos) != Back)
      && (forall q, v :: q in s.back && v in q.vertices ==> Classify(plane, v.pos) != Front)
  {
    var s := SplitPolygon(plane, p, next, recip);
    var (f, b) := Fragments(plane, p.vertices, |p.vertices|);
    FragmentClasses(plane, p.vertices);
    var n1 := Fragment(f, p.storage, next, recip).1;
    assert s.front == Fragment(f, p.storage, next, recip).0;
    assert s.back == Fragment(b, p.storage, n1, recip).0;
    PieceOnSide(plane, f, p.storage, next, recip, Back);
    PieceOnSide(plane, b, p.storage, n1, recip, Front);
  }

  /** The pieces carry the positions of the two fragment lists. */
  lemma PiecesPositions(plane: Plane, p: Polygon, next: nat, recip: Recip)
    requires PolygonType(Types(plane, p.vertices)) == Spanning
    ensures var s := SplitPolygon(plane, p, next, recip);
      var (f, b) := Fragments(plane, p.vertices, |p.vertices|);
      && (forall q :: q in s.front ==> Positions(q.vertices) == Positions(f))
      && (forall q :: q in s.back ==> Positions(q.vertices) == Positions(b))
  {
    var (f, b) := Fragments(plane, p.vertices, |p.vertices|);
    var s := SplitPolygon(plane, p, next, recip);
    FragmentPositions(f, p.storage, next, recip);
    var n1 := Fragment(f, p.storage, next, recip).1;
    FragmentPositions(b, p.storage, n1, recip);
    assert s.front == Fragment(f, p.storage, next, recip).0;
    assert s.back == Fragment(b, p.storage, n1, recip).0;
  }

  /** Every cut point lies on the plane. */
  lemma {:induction false} CutsOnPlane(plane: Plane, vs: seq<Vertex>, k: nat)
    requires k <= |vs|
    ensures forall v :: v in Cuts(plane, vs, k) ==> Dot(plane.normal, v.pos) == plane.dist
  {
    if k > 0 {
      CutsOnPlane(plane, vs, k - 1);
    }
  }

  /** The whole loop shares its cut points between the two lists. */
  lemma LoopSharesCuts(plane: Plane, vs: seq<Vertex>)
    ensures SharedCuts(plane, vs)
  {
    FrontInterleaves(plane, vs, |vs|);
    BackInterleaves(plane, vs, |vs|);
    CutsOnPlane(plane, vs, |vs|);
  }

  /** No vertex of the front list is BACK, and no vertex of the back list FRONT. */
  lemma FragmentClasses(plane: Plane, vs: seq<Vertex>)
    ensures forall v :: v in Fragments(plane, vs, |vs|).0 ==> Classify(plane, v.pos) != Back
    ensures forall v :: v in Fragments(plane, vs, |vs|).1 ==> Classify(plane, v.pos) != Front
  {
    FragmentsOnTheirSide(plane, vs, |vs|);
    forall v | v in Fragments(plane, vs, |vs|).0 + Fragments(plane, vs, |vs|).1 {
      SideMeansClass(plane, vs, v);
    }
  }

  /** The polygon made from a vertex list none of whose points is of one class has no
      vertex of that class. */
  lemma PieceOnSide(plane: Plane, vs: seq<Vertex>, storage: PropertyStorage, next: nat, recip: Recip, k: Kind)
    requires forall v :: v in vs ==> Classify(plane, v.pos) != k
    ensures forall q, v :: q in Fragment(vs, storage, next, recip).0 && v in q.vertices ==> Classify(plane, v.pos) != k
  {
    FragmentPositions(vs, storage, next, recip);
    forall q, v | q in Fragment(vs, storage, next, recip).0 && v in q.vertices
      ensures Classify(plane, v.pos) != k
    {
      var i :| 0 <= i < |q.vertices| && q.vertices[i] == v;
      assert vs[i] in vs;
    }
  }

  /** The constructor keeps the positions of the vertices it is given. */
  lemma FragmentPositions(vs: seq<Vertex>, storage: PropertyStorage, next: nat, recip: Recip)
    ensures var (ps, n) := Fragment(vs, storage, next, recip);
      && |ps| <= 1 && n == next + |ps|
      && (forall q :: q in ps ==> q.ref == next && q.storage == storage && |q.vertices| == |vs|)
      && (forall q, i :: q in ps && 0 <= i < |vs| ==> q.vertices[i].pos == vs[i].pos)
  {
  }

  /** A list of polygons that splitPolygon appends to; several roles may be the same
      list, as when a BSP node passes its own polygon list for both coplanar roles. */
  class PolygonList {
    var items: seq<Polygon>

    constructor(items0: seq<Polygon>)
      ensures items == items0
    {
      items := items0;
    }

    method Add(p: Polygon)
      modifies this
      ensures items == old(items) + [p]
    {
      items := items + [p];
    }
  }

  /** What list l receives from one split, in the order of the appends: the coplanar
      roles, then front, then back. */
  function Received(l: PolygonList, cf: PolygonList, cb: PolygonList, f: PolygonList, b: PolygonList, s: Split): seq<Polygon>
  {
    (if l == cf then s.coplanarFront else []) + (if l == cb then s.coplanarBack else [])
      + (if l == f then s.front else []) + (if l == b then s.back else [])
  }

  /** Two distinct lists, each in a coplanar role and a side role: each receives the
      coplanar pieces facing its side, then the pieces on that side. */
  lemma ReceivedByTwo(l: PolygonList, m: PolygonList, s: Split)
    requires l != m
    ensures Received(l, l, m, l, m, s) == s.coplanarFront + s.front
    ensures Received(m, l, m, l, m, s) == s.coplanarBack + s.back
  {
    assert Received(l, l, m, l, m, s) == s.coplanarFront + [] + s.front + [];
    assert Received(m, l, m, l, m, s) == [] + s.coplanarBack + [] + s.back;
  }

  /** Three distinct lists, the first in both coplanar roles: it receives both
      coplanar parts, the others their side. */
  lemma ReceivedByThree(o: PolygonList, l: PolygonList, m: PolygonList, s: Split)
    requires o != l && o != m && l != m
    ensures Received(o, o, o, l, m, s) == s.coplanarFront + s.coplanarBack
    ensures Received(l, o, o, l, m, s) == s.front
    ensures Received(m, o, o, l, m, s) == s.back
  {
    assert Received(o, o, o, l, m, s) == s.coplanarFront + s.coplanarBack + [] + [];
    assert Received(l, o, o, l, m, s) == [] + [] + s.front + [];
    assert Received(m, o, o, l, m, s) == [] + [] + [] + s.back;
  }

  /** splitPolygon: classify the vertices in one pass, then append the polygon to its
      list, or walk the edges building the two fragments and append those. Every list
      ends as it was plus what it receives in its roles, aliases included. */
  method SplitInto(plane: Plane, p: Polygon, cf: PolygonList, cb: PolygonList, f: PolygonList, b: PolygonList,
                   next: nat, recip: Recip) returns (next': nat)
    modifies cf, cb, f, b
    ensures next' == SplitPolygon(plane, p, next, recip).next
    ensures cf.items == old(cf.items) + Received(cf, cf, cb, f, b, SplitPolygon(plane, p, next, recip))
    ensures cb.items == old(cb.items) + Received(cb, cf, cb, f, b, SplitPolygon(plane, p, next, recip))
    ensures f.items == old(f.items) + Received(f, cf, cb, f, b, SplitPolygon(plane, p, next, recip))
    ensures b.items == old(b.items) + Received(b, cf, cb, f, b, SplitPolygon(plane, p, next, recip))
  {
    var types, polygonType := ClassifyVertices(plane, p.vertices);
    next' := next;
    if polygonType != Spanning {
      RouteWhole(p, polygonType, Dot(plane.normal, p.plane.normal) > 0.0, cf, cb, f, b, next);
    } else {
      next' := RoutePieces(plane, p, types, cf, cb, f, b, next, recip);
    }
  }

  /** The spanning case: build the fragments and append the pieces. */
  method RoutePieces(plane: Plane, p: Polygon, types: seq<Kind>, cf: PolygonList, cb: PolygonList, f: PolygonList,
                     b: PolygonList, next: nat, recip: Recip) returns (next': nat)
    requires types == Types(plane, p.vertices)
    modifies f, b
    ensures next' == Pieces(plane, p, next, recip).next
    ensures cf.items == old(cf.items) + Received(cf, cf, cb, f, b, Pieces(plane, p, next, recip))
    ensures cb.items == old(cb.items) + Received(cb, cf, cb, f, b, Pieces(plane, p, next, recip))
    ensures f.items == old(f.items) + Received(f, cf, cb, f, b, Pieces(plane, p, next, recip))
    ensures b.items == old(b.items) + Received(b, cf, cb, f, b, Pieces(plane, p, next, recip))
  {
    var fv, bv := SpanningFragments(plane, p.vertices, types);
    ghost var s := PiecesOf(fv, bv, p.storage, next, recip);
    assert s == Pieces(plane, p, next, recip);
    next' := AddPieces(cf, cb, f, b, fv, bv, p.storage, next, recip);
  }

  /** The split made of the two fragments. */
  function PiecesOf(fv: seq<Vertex>, bv: seq<Vertex>, storage: PropertyStorage, next: nat, recip: Recip): Split
  {
    var (fp, n1) := Fragment(fv, storage, next, recip);
    var (bp, n2) := Fragment(bv, storage, n1, recip);
    Split([], [], fp, bp, n2)
  }

  /** The end of the spanning case: each fragment with at least three vertices becomes
      a new polygon, the front one appended to `front`, then the back one to `back`. */
  method AddPieces(cf: PolygonList, cb: PolygonList, f: PolygonList, b: PolygonList, fv: seq<Vertex>, bv: seq<Vertex>,
                   storage: PropertyStorage, next: nat, recip: Recip) returns (next': nat)
    modifies f, b
    ensures next' == PiecesOf(fv, bv, storage, next, recip).next
    ensures cf.items == old(cf.items) + Received(cf, cf, cb, f, b, PiecesOf(fv, bv, storage, next, recip))
    ensures cb.items == old(cb.items) + Received(cb, cf, cb, f, b, PiecesOf(fv, bv, storage, next, recip))
    ensures f.items == old(f.items) + Received(f, cf, cb, f, b, PiecesOf(fv, bv, storage, next, recip))
    ensures b.items == old(b.items) + Received(b, cf, cb, f, b, PiecesOf(fv, bv, storage, next, recip))
  {
    var n1 := AddFragment(f, fv, storage, next, recip);
    next' := AddFragment(b, bv, storage, n1, recip);
    ReceivedPieces(cf, cf, cb, f, b, fv, bv, storage, next, recip);
    ReceivedPieces(cb, cf, cb, f, b, fv, bv, storage, next, recip);
    ReceivedPieces(f, cf, cb, f, b, fv, bv, storage, next, recip);
    ReceivedPieces(b, cf, cb, f, b, fv, bv, storage, next, recip);
  }

  /** One fragment of at least three vertices becomes a new polygon appended to l. */
  method AddFragment(l: PolygonList, vs: seq<Vertex>, storage: PropertyStorage, next: nat, recip: Recip)
    returns (next': nat)
    modifies l
    ensures l.items == old(l.items) + Fragment(vs, storage, next, recip).0
    ensures next' == Fragment(vs, storage, next, recip).1
  {
    next' := next;
    if |vs| >= 3 {
      l.Add(Make(next', vs, storage, recip));
      next' := next' + 1;
    }
  }

  /** From the pieces, a list receives the front piece when it is the front list and
      then the back piece when it is the back list. */
  lemma ReceivedPieces(l: PolygonList, cf: PolygonList, cb: PolygonList, f: PolygonList, b: PolygonList,
                       fv: seq<Vertex>, bv: seq<Vertex>, storage: PropertyStorage, next: nat, recip: Recip)
    ensures var (fp, n1) := Fragment(fv, storage, next, recip);
      Received(l, cf, cb, f, b, PiecesOf(fv, bv, storage, next, recip))
        == (if l == f then fp else []) + (if l == b then Fragment(bv, storage, n1, recip).0 else [])
  {
    var (fp, n1) := Fragment(fv, storage, next, recip);
    var s := PiecesOf(fv, bv, storage, next, recip);
    assert s.coplanarFront == [] && s.coplanarBack == [];
    assert Received(l, cf, cb, f, b, s) == [] + [] + (if l == f then s.front else []) + (if l == b then s.back else []);
  }

  /** The four cases without a cut: one append of the polygon itself. */
  method RouteWhole(p: Polygon, k: Kind, facing: bool, cf: PolygonList, cb: PolygonList, f: PolygonList, b: PolygonList, next: nat)
    requires k != Spanning
    modifies cf, cb, f, b
    ensures cf.items == old(cf.items) + Received(cf, cf, cb, f, b, Whole(p, k, facing, next))
    ensures cb.items == old(cb.items) + Received(cb, cf, cb, f, b, Whole(p, k, facing, next))
    ensures f.items == old(f.items) + Received(f, cf, cb, f, b, Whole(p, k, facing, next))
    ensures b.items == old(b.items) + Received(b, cf, cb, f, b, Whole(p, k, facing, next))
  {
    if k == Coplanar {
      (if facing then cf else cb).Add(p);
    } else if k == Front {
      f.Add(p);
    } else {
      b.Add(p);
    }
  }

  /** The classification pass: every vertex's class and their bitwise or. */
  method ClassifyVertices(plane: Plane, vs: seq<Vertex>) returns (types: seq<Kind>, polygonType: Kind)
    ensures types == Types(plane, vs)
    ensures polygonType == PolygonType(types)
  {
    var n := |vs|;
    polygonType := Coplanar;
    types := [];
    var i := 0;
    while i < n
      invariant 0 <= i <= n
      invariant types == Types(plane, vs[..i])
      invariant polygonType == PolygonType(types)
    {
      var t := Classify(plane, vs[i].pos);
      assert types + [t] == Types(plane, vs[..i + 1]);
      assert (types + [t])[..|types|] == types;
      polygonType := Or(polygonType, t);
      types := types + [t];
      i := i + 1;
    }
    assert vs[..n] == vs;
  }

  /** The spanning pass: walk the edges, collecting the front and back vertex lists. */
  method SpanningFragments(plane: Plane, vs: seq<Vertex>, types: seq<Kind>) returns (fv: seq<Vertex>, bv: seq<Vertex>)
    requires types == Types(plane, vs)
    ensures (fv, bv) == Fragments(plane, vs, |vs|)
    ensures forall v :: v in fv ==> FrontSide(plane, vs, v)
    ensures forall v :: v in bv ==> BackSide(plane, vs, v)
  {
    var n := |vs|;
    fv, bv := [], [];
    var i := 0;
    while i < n
      invariant 0 <= i <= n
      invariant (fv, bv) == Fragments(plane, vs, i)
    {
      var j := NextIndex(i, n);
      var ti, tj := types[i], types[j];
      var vi, vj := vs[i], vs[j];
      ghost var (f0, b0) := (fv, bv);
      if ti != Back {
        fv := fv + [vi];
      }
      if ti != Front {
        bv := bv + [if ti != Back then Vertices.Clone(vi) else vi];
      }
      if Or(ti, tj) == Spanning {
        var v := Cut(plane, vi, vj);
        fv := fv + [v];
        bv := bv + [Vertices.Clone(v)];
      }
      assert fv == f0 + Step(plane, vs, i).0;
      assert bv == b0 + Step(plane, vs, i).1;
      i := i + 1;
    }
    FragmentsOnTheirSide(plane, vs, n);
  }
}
