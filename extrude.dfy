/**
 * Extrusion (CSharpCSG/Extrude.cs): a tube between two profiles of the same length,
 * a solid swept from a polygon along a direction, and the orientation test that
 * puts a point list into counter-clockwise or clockwise order. Splitting a concave
 * polygon into convex ones is a function parameter here, and normalizing a vector
 * uses the reciprocal magnitude of Vectors.
 */
module Extrusions {
  import opened Vectors
  import opened Wrappers
  import opened Polygons
  import opened Storage
  import CSGs

  // ---- combine ----------------------------------------------------------------------

  /** The two triangles combine makes for index i of the profiles p1 (bottom) and p2
      (top), with j the next index round: (p1[j], p2[j], p2[i]) and (p1[j], p2[i], p1[i]),
      both with p1's storage and consecutive references from ref. */
  predicate SideTriangles(t: Polygon, u: Polygon, p1: Polygon, p2: Polygon, i: nat, ref: nat)
    requires |p1.vertices| == |p2.vertices| && i < |p1.vertices|
  {
    var j := Following(i, |p1.vertices|);
    && Positions(t.vertices) == [p1.vertices[j].pos, p2.vertices[j].pos, p2.vertices[i].pos]
    && Positions(u.vertices) == [p1.vertices[j].pos, p2.vertices[i].pos, p1.vertices[i].pos]
    && t.storage == p1.storage && u.storage == p1.storage
    && t.ref == ref && u.ref == ref + 1
  }

  /** The side and lid part of what combine returns, from index off on: two triangles
      per index of the profiles, then p2 itself when top is set. */
  predicate Tube(ps: seq<Polygon>, p1: Polygon, p2: Polygon, off: nat, top: bool, next: nat)
    requires |p1.vertices| == |p2.vertices|
  {
    var n := |p1.vertices|;
    && |ps| == off + 2 * n + (if top then 1 else 0)
    && (forall i :: 0 <= i < n ==> SideTriangles(ps[off + 2 * i], ps[off + 2 * i + 1], p1, p2, i, next + off + 2 * i))
    && (top ==> ps[|ps| - 1] == p2)
  }

  /** What combine returns: p1 flipped (a clone under reference next) when bottom is
      set, then the Tube of the two profiles. */
  predicate Combined(ps: seq<Polygon>, p1: Polygon, p2: Polygon, bottom: bool, top: bool, next: nat, recip: Recip)
    requires |p1.vertices| == |p2.vertices| && (bottom ==> |p1.vertices| >= 3)
  {
    && Tube(ps, p1, p2, if bottom then 1 else 0, top, next)
    && (bottom ==> ps[0] == Flipped(p1, next, recip))
  }

  /** combine(p1, p2, bottom, top): an exception for profiles of different lengths;
      otherwise the closed tube of Combined. Flipping a profile of fewer than three
      vertices clones it through the constructor, which throws. */
  method Combine(p1: Polygon, p2: Polygon, bottom: bool, top: bool, next: nat, recip: Recip)
    returns (r: Result<seq<Polygon>>, next': nat)
    ensures r.Failure? <==> |p1.vertices| != |p2.vertices| || (bottom && |p1.vertices| < 3)
    ensures |p1.vertices| != |p2.vertices| ==> r == Failure(Mismatch)
    ensures r.Failure? ==> next' == next
    ensures r.Success? ==> Combined(r.value, p1, p2, bottom, top, next, recip)
    ensures r.Success? ==> next' == next + |r.value| - (if top then 1 else 0)
  {
    var n := |p1.vertices|;
    if n != |p2.vertices| {
      return Failure(Mismatch), next;
    }
    if bottom && n < 3 {
      return Failure(IndexOutOfRange), next;
    }
    var base := if bottom then [Flipped(p1, next, recip)] else [];
    var sides := Sides(p1, p2, next + |base|, recip);
    var lid := if top then [p2] else [];
    CombinedOf(base, sides, lid, p1, p2, bottom, top, next, recip);
    r := Success(base + sides + lid);
    next' := next + |base| + |sides|;
  }

  /** The base (p1 flipped when bottom is set), the side loop's triangles and the lid
      (p2 when top is set) together are what combine returns. */
  lemma CombinedOf(base: seq<Polygon>, sides: seq<Polygon>, lid: seq<Polygon>, p1: Polygon, p2: Polygon,
                   bottom: bool, top: bool, next: nat, recip: Recip)
    requires |p1.vertices| == |p2.vertices| && (bottom ==> |p1.vertices| >= 3)
    requires base == (if bottom then [Flipped(p1, next, recip)] else [])
    requires lid == (if top then [p2] else [])
    requires |sides| == 2 * |p1.vertices|
    requires forall i :: 0 <= i < |p1.vertices| ==> SideTriangles(sides[2 * i], sides[2 * i + 1], p1, p2, i, next + |base| + 2 * i)
    ensures Combined(base + sides + lid, p1, p2, bottom, top, next, recip)
  {
    Assembled(base, sides, lid, p1, p2, top, next);
    if bottom {
      assert (base + sides + lid)[0] == (base + sides + lid)[..1][0] == base[0];
    }
  }

  /** The side loop of combine: two triangles per index, references from ref. */
  method Sides(p1: Polygon, p2: Polygon, ref: nat, recip: Recip) returns (sides: seq<Polygon>)
    requires |p1.vertices| == |p2.vertices|
    ensures |sides| == 2 * |p1.vertices|
    ensures forall i :: 0 <= i < |p1.vertices| ==> SideTriangles(sides[2 * i], sides[2 * i + 1], p1, p2, i, ref + 2 * i)
  {
    var n := |p1.vertices|;
    sides := [];
    for i := 0 to n
      invariant |sides| == 2 * i
      invariant forall k :: 0 <= k < i ==> SideTriangles(sides[2 * k], sides[2 * k + 1], p1, p2, k, ref + 2 * k)
    {
      var nexti := Following(i, n);
      var bottomV1, topV1 := p1.vertices[i].pos, p2.vertices[i].pos;
      var bottomV2, topV2 := p1.vertices[nexti].pos, p2.vertices[nexti].pos;
      var t := FromPoints(ref + 2 * i, [bottomV2, topV2, topV1], p1.storage, recip);
      var u := FromPoints(ref + 2 * i + 1, [bottomV2, topV1, bottomV1], p1.storage, recip);
      sides := sides + [t.value, u.value];
    }
  }

  /** The three parts of combine put together: the base stays in front and the sides
      and the lid make the Tube. */
  lemma Assembled(base: seq<Polygon>, sides: seq<Polygon>, lid: seq<Polygon>, p1: Polygon, p2: Polygon,
                  top: bool, next: nat)
    requires |p1.vertices| == |p2.vertices| && |base| <= 1
    requires lid == (if top then [p2] else [])
    requires |sides| == 2 * |p1.vertices|
    requires forall i :: 0 <= i < |p1.vertices| ==> SideTriangles(sides[2 * i], sides[2 * i + 1], p1, p2, i, next + |base| + 2 * i)
    ensures Tube(base + sides + lid, p1, p2, |base|, top, next)
    ensures (base + sides + lid)[..|base|] == base
  {
    var ps := base + sides + lid;
    var off := |base|;
    forall i | 0 <= i < |p1.vertices|
      ensures SideTriangles(ps[off + 2 * i], ps[off + 2 * i + 1], p1, p2, i, next + off + 2 * i)
    {
      assert ps[off + 2 * i] == sides[2 * i] && ps[off + 2 * i + 1] == sides[2 * i + 1];
    }
  }

  /** The tube is closed round its side: the first triangle of index i runs up the
      edge p1[j] -> p2[j] (j the next index), and the second triangle of index j runs
      down the same edge p2[j] -> p1[j], so neighbouring bands share every upright
      edge in opposite directions. Every side triangle has three vertices. */
  lemma {:induction false} BandsMeet(ps: seq<Polygon>, p1: Polygon, p2: Polygon, off: nat, top: bool, next: nat, i: nat)
    requires |p1.vertices| == |p2.vertices| && i < |p1.vertices|
    requires Tube(ps, p1, p2, off, top, next)
    ensures var j := Following(i, |p1.vertices|);
      var t := ps[off + 2 * i];
      var u := ps[off + 2 * j + 1];
      && |t.vertices| == 3 && |u.vertices| == 3
      && t.vertices[0].pos == p1.vertices[j].pos && t.vertices[1].pos == p2.vertices[j].pos
      && u.vertices[1].pos == p2.vertices[j].pos && u.vertices[2].pos == p1.vertices[j].pos
  {
    var j := Following(i, |p1.vertices|);
    assert SideTriangles(ps[off + 2 * i], ps[off + 2 * i + 1], p1, p2, i, next + off + 2 * i);
    assert SideTriangles(ps[off + 2 * j], ps[off + 2 * j + 1], p1, p2, j, next + off + 2 * j);
    var t, u := ps[off + 2 * i], ps[off + 2 * j + 1];
    assert |Positions(t.vertices)| == 3 && |Positions(u.vertices)| == 3;
    assert Positions(t.vertices)[0] == t.vertices[0].pos && Positions(t.vertices)[1] == t.vertices[1].pos;
    assert Positions(u.vertices)[1] == u.vertices[1].pos && Positions(u.vertices)[2] == u.vertices[2].pos;
  }

  /** The bottom of the tube is p1 turned over: its positions are p1's in reverse
      order, and it keeps p1's storage. */
  lemma BottomIsTurnedOver(ps: seq<Polygon>, p1: Polygon, p2: Polygon, top: bool, next: nat, recip: Recip)
    requires |p1.vertices| == |p2.vertices| >= 3
    requires Combined(ps, p1, p2, true, top, next, recip)
    ensures ps[0].storage == p1.storage && |ps[0].vertices| == |p1.vertices|
    ensures forall k :: 0 <= k < |p1.vertices| ==> ps[0].vertices[k].pos == p1.vertices[|p1.vertices| - 1 - k].pos
  {
    FlippedPositions(p1, next, recip);
  }

  // ---- extrude ----------------------------------------------------------------------

  /** The side quad of extrude for index i of polygon p, j the next index round:
      (p[j], p[j] + dir, p[i] + dir, p[i]) with p's storage. */
  predicate SideQuad(q: Polygon, p: Polygon, dir: Vec3, i: nat, ref: nat)
    requires i < |p.vertices|
  {
    var j := Following(i, |p.vertices|);
    && Positions(q.vertices) == [p.vertices[j].pos, Plus(p.vertices[j].pos, dir), Plus(p.vertices[i].pos, dir), p.vertices[i].pos]
    && q.storage == p.storage && q.ref == ref
  }

  /** The lid of the extrusion: p translated by dir with the library's translate (a
      clone under reference next), then flipped (a clone under reference
      next + |p| + 1). */
  function Lid(p: Polygon, dir: Vec3, next: nat, recip: Recip): Polygon
    requires |p.vertices| >= 3
  {
    Flipped(TranslateAsWritten(Clone(p, next, recip), dir), next + |p.vertices| + 1, recip)
  }

  /** The lid built with the corrected translate. */
  function CorrectedLid(p: Polygon, dir: Vec3, next: nat, recip: Recip): Polygon
    requires |p.vertices| >= 3
  {
    Flipped(Translate(Clone(p, next, recip), dir, recip), next + |p.vertices| + 1, recip)
  }

  /** The stale plane the library's translate leaves on the translated copy does not
      reach the lid: flipping rebuilds it, so the lid is the one the corrected translate
      gives. */
  lemma LidForgetsStalePlane(p: Polygon, dir: Vec3, next: nat, recip: Recip)
    requires |p.vertices| >= 3
    ensures Lid(p, dir, next, recip) == CorrectedLid(p, dir, next, recip)
  {
    FlippedForgetsTranslatePlane(Clone(p, next, recip), dir, next + |p.vertices| + 1, recip);
  }

  /** What extrude returns: a solid of the convex pieces of p, one side quad per vertex
      of p, and the convex pieces of the Lid, in that order. */
  predicate Extruded(c: CSGs.CSG, p: Polygon, dir: Vec3, toConvex: Polygon -> seq<Polygon>, next: nat, recip: Recip)
    requires |p.vertices| >= 3
  {
    && c.optType.None?
    && Stacked(c.polygons, p, dir, toConvex(p), toConvex(Lid(p, dir, next, recip)), next)
  }

  /** ps is base, then one side quad per vertex of p (references from next + 1), then lid. */
  predicate Stacked(ps: seq<Polygon>, p: Polygon, dir: Vec3, base: seq<Polygon>, lid: seq<Polygon>, next: nat)
  {
    var n := |p.vertices|;
    && |ps| == |base| + n + |lid|
    && ps[..|base|] == base
    && ps[|base| + n..] == lid
    && forall k :: |base| <= k < |base| + n ==> SideQuad(ps[k], p, dir, k - |base|, next + 1 + k - |base|)
  }

  /** extrude(dir, polygon1): ArgumentException for a direction pointing down in z;
      translating the polygon clones it, which throws for fewer than three vertices;
      otherwise the solid of Extruded. `toConvex` is concaveToConvex. */
  method ExtrudeSolid(dir: Vec3, p: Polygon, toConvex: Polygon -> seq<Polygon>, next: nat, recip: Recip)
    returns (r: Result<CSGs.CSG>, next': nat)
    ensures r.Failure? <==> dir.z < 0.0 || |p.vertices| < 3
    ensures dir.z < 0.0 ==> r == Failure(InvalidArgument)
    ensures r.Failure? ==> next' == next
    ensures r.Success? ==> Extruded(r.value, p, dir, toConvex, next, recip) && next' == next + |p.vertices| + 2
  {
    if dir.z < 0.0 {
      return Failure(InvalidArgument), next;
    }
    if |p.vertices| < 3 {
      return Failure(IndexOutOfRange), next;
    }
    var base := toConvex(p);
    var polygon2 := TranslateAsWritten(Clone(p, next, recip), dir);
    TranslatedPositions(p, dir, next, recip);
    var n := |p.vertices|;
    var quads := SideQuads(p, polygon2, dir, next + 1, recip);
    // polygon2 flipped under the next reference
    var lid := toConvex(Lid(p, dir, next, recip));
    StackedOf(base, quads, lid, p, dir, next);
    r := Success(CSGs.FromPolygons(base + quads + lid));
    next' := next + n + 2;
  }

  /** The three parts of extrude put together make Stacked. */
  lemma StackedOf(base: seq<Polygon>, quads: seq<Polygon>, lid: seq<Polygon>, p: Polygon, dir: Vec3, next: nat)
    requires |quads| == |p.vertices|
    requires forall i :: 0 <= i < |p.vertices| ==> SideQuad(quads[i], p, dir, i, next + 1 + i)
    ensures Stacked(base + quads + lid, p, dir, base, lid, next)
  {
    var ps := base + quads + lid;
    assert ps[..|base|] == base;
    assert ps[|base| + |quads|..] == lid;
    forall k | |base| <= k < |base| + |p.vertices|
      ensures SideQuad(ps[k], p, dir, k - |base|, next + 1 + k - |base|)
    {
      assert ps[k] == quads[k - |base|];
    }
  }

  /** The side-quad loop of extrude: top is the translated polygon. */
  method SideQuads(p: Polygon, top: Polygon, dir: Vec3, next: nat, recip: Recip) returns (quads: seq<Polygon>)
    requires |top.vertices| == |p.vertices|
    requires forall i :: 0 <= i < |p.vertices| ==> top.vertices[i].pos == Plus(p.vertices[i].pos, dir)
    ensures |quads| == |p.vertices|
    ensures forall i :: 0 <= i < |p.vertices| ==> SideQuad(quads[i], p, dir, i, next + i)
  {
    var n := |p.vertices|;
    quads := [];
    for i := 0 to n
      invariant |quads| == i
      invariant forall k :: 0 <= k < i ==> SideQuad(quads[k], p, dir, k, next + k)
    {
      var nexti := Following(i, n);
      var bottomV1, topV1 := p.vertices[i].pos, top.vertices[i].pos;
      var bottomV2, topV2 := p.vertices[nexti].pos, top.vertices[nexti].pos;
      var q := FromPoints(next + i, [bottomV2, topV2, topV1, bottomV1], p.storage, recip);
      quads := quads + [q.value];
    }
  }

  /** translated(dir) moves every position by dir. */
  lemma TranslatedPositions(p: Polygon, dir: Vec3, ref: nat, recip: Recip)
    requires |p.vertices| >= 3
    ensures |Clone(p, ref, recip).vertices| == |p.vertices|
    ensures var q := TranslateAsWritten(Clone(p, ref, recip), dir);
      && |q.vertices| == |p.vertices|
      && forall i :: 0 <= i < |p.vertices| ==> q.vertices[i].pos == Plus(p.vertices[i].pos, dir)
  {
    var c := Clone(p, ref, recip);
    ClonePositions(p, ref, recip);
    TranslateAsWrittenShape(c, dir);
    var q := TranslateAsWritten(c, dir);
    forall i | 0 <= i < |p.vertices| ensures q.vertices[i].pos == Plus(p.vertices[i].pos, dir) {
      assert Positions(c.vertices)[i] == c.vertices[i].pos;
    }
  }

  /** The lid is the base moved by dir and turned over: its positions are those of p,
      moved by dir, in reverse order, and it keeps p's storage. */
  lemma LidIsMovedBase(p: Polygon, dir: Vec3, next: nat, recip: Recip)
    requires |p.vertices| >= 3
    ensures var lid := Lid(p, dir, next, recip);
      && lid.storage == p.storage && |lid.vertices| == |p.vertices|
      && forall k :: 0 <= k < |p.vertices| ==> lid.vertices[k].pos == Plus(p.vertices[|p.vertices| - 1 - k].pos, dir)
  {
    var n := |p.vertices|;
    TranslatedPositions(p, dir, next, recip);
    var t := TranslateAsWritten(Clone(p, next, recip), dir);
    FlippedPositions(t, next + n + 1, recip);
    MovedThenReversed(p, t, Flipped(t, next + n + 1, recip), dir);
  }

  lemma MovedThenReversed(p: Polygon, t: Polygon, lid: Polygon, dir: Vec3)
    requires |t.vertices| == |p.vertices| == |lid.vertices|
    requires forall i :: 0 <= i < |p.vertices| ==> t.vertices[i].pos == Plus(p.vertices[i].pos, dir)
    requires forall k :: 0 <= k < |t.vertices| ==> lid.vertices[k].pos == t.vertices[|t.vertices| - 1 - k].pos
    ensures forall k :: 0 <= k < |p.vertices| ==> lid.vertices[k].pos == Plus(p.vertices[|p.vertices| - 1 - k].pos, dir)
  {
    forall k | 0 <= k < |p.vertices| ensures lid.vertices[k].pos == Plus(p.vertices[|p.vertices| - 1 - k].pos, dir) {
      var j := |p.vertices| - 1 - k;
      assert lid.vertices[k].pos == t.vertices[j].pos;
    }
  }

  // ---- orientation ------------------------------------------------------------------

  /** Vertex h beats or ties every vertex before m in the pivot order: a higher y
      wins, then a smaller x; and it strictly beats every vertex before it. */
  predicate BestAmong(vs: seq<Vec3>, m: nat, h: nat)
    requires h < |vs| && m <= |vs|
  {
    && (forall k :: 0 <= k < m ==> vs[k].y < vs[h].y || (vs[k].y == vs[h].y && vs[h].x <= vs[k].x))
    && (forall k :: 0 <= k < h ==> vs[k].y < vs[h].y || (vs[k].y == vs[h].y && vs[h].x < vs[k].x))
  }

  /** The pivot of isCCW: the highest vertex, the leftmost of the highest, and the
      first of equal ones. */
  predicate IsPivot(vs: seq<Vec3>, h: nat)
  {
    h < |vs| && BestAmong(vs, |vs|, h)
  }

  /** There is one pivot at most. */
  lemma PivotUnique(vs: seq<Vec3>, a: nat, b: nat)
    requires IsPivot(vs, a) && IsPivot(vs, b)
    ensures a == b
  {
    assert vs[b].y < vs[a].y || (vs[b].y == vs[a].y && vs[a].x <= vs[b].x);
    assert vs[a].y < vs[b].y || (vs[a].y == vs[b].y && vs[b].x <= vs[a].x);
  }

  /** The scan for the pivot from index i, holding h. */
  function Highest(vs: seq<Vec3>, i: nat, h: nat): (r: nat)
    requires h < |vs| && i <= |vs|
    ensures r < |vs|
    decreases |vs| - i
  {
    if i == |vs| then h
    else if vs[i].y > vs[h].y || (vs[i].y == vs[h].y && vs[i].x < vs[h].x) then Highest(vs, i + 1, i)
    else Highest(vs, i + 1, h)
  }

  /** The scan from the start ends on the pivot. */
  lemma {:induction false} HighestIsPivot(vs: seq<Vec3>, i: nat, h: nat)
    requires h < |vs| && i <= |vs| && (h < i || h == 0) && BestAmong(vs, i, h)
    ensures IsPivot(vs, Highest(vs, i, h))
    decreases |vs| - i
  {
    if i < |vs| {
      if vs[i].y > vs[h].y || (vs[i].y == vs[h].y && vs[i].x < vs[h].x) {
        HighestIsPivot(vs, i + 1, i);
      } else {
        HighestIsPivot(vs, i + 1, h);
      }
    }
  }

  /** The search for the highest left vertex: a running best over all vertices. */
  method HighestLeft(vs: seq<Vec3>) returns (h: nat)
    requires |vs| > 0
    ensures IsPivot(vs, h)
  {
    h := 0;
    var best := vs[0];
    for i := 0 to |vs|
      invariant h < |vs| && best == vs[h] && (h < i || h == 0)
      invariant BestAmong(vs, i, h)
    {
      var v := vs[i];
      if v.y > best.y {
        best, h := v, i;
      } else if v.y == best.y && v.x < best.x {
        best, h := v, i;
      }
    }
  }

  /** normalizedX(v1, v2): the x component of the unit vector from v1 to v2. */
  function NormalizedX(v1: Vec3, v2: Vec3, recip: Recip): real
  {
    Normalized(Minus(v2, v1), recip).x
  }

  /** The end of isCCW from the pivot h: the neighbour with the smaller normalized x
      is selected, the wrap-round indices are moved past the end, and the polygon is
      counter-clockwise when the selected index is the larger. */
  function Turn(vs: seq<Vec3>, h: nat, recip: Recip): bool
    requires |vs| >= 3 && h < |vs|
  {
    var n := |vs|;
    var nextIndex := Following(h, n);
    var prevIndex := if h == 0 then n - 1 else h - 1;
    var a1 := NormalizedX(vs[h], vs[nextIndex], recip);
    var a2 := NormalizedX(vs[h], vs[prevIndex], recip);
    var selected := if a2 > a1 then nextIndex else prevIndex;
    var selected' := if selected == 0 && h == n - 1 then n else selected;
    var h' := if h == 0 && selected' == n - 1 then n else h;
    selected' > h'
  }

  /** The index juggling of isCCW decides nothing of its own: the polygon counts as
      counter-clockwise exactly when the edge to the previous vertex has a larger
      normalized x than the edge to the next one. */
  lemma TurnMeansNextSelected(vs: seq<Vec3>, h: nat, recip: Recip)
    requires |vs| >= 3 && h < |vs|
    ensures Turn(vs, h, recip) <==>
      NormalizedX(vs[h], vs[if h == 0 then |vs| - 1 else h - 1], recip) > NormalizedX(vs[h], vs[Following(h, |vs|)], recip)
  {
  }

  /** isCCW on a list of at least three positions: Turn from the pivot. */
  function Ccw(vs: seq<Vec3>, recip: Recip): bool
    requires |vs| >= 3
  {
    Turn(vs, Highest(vs, 0, 0), recip)
  }

  /** isCCW(polygon): ArgumentException for fewer than three vertices; otherwise Ccw
      of the positions. */
  method IsCCW(p: Polygon, recip: Recip) returns (r: Result<bool>)
    ensures r.Failure? <==> |p.vertices| < 3
    ensures r.Failure? ==> r.error == InvalidArgument
    ensures r.Success? ==> r.value == Ccw(Positions(p.vertices), recip)
  {
    var vs := Positions(p.vertices);
    if |vs| < 3 {
      return Failure(InvalidArgument);
    }
    var h := HighestLeft(vs);
    HighestIsPivot(vs, 0, 0);
    PivotUnique(vs, h, Highest(vs, 0, 0));
    r := Success(Turn(vs, h, recip));
  }

  function Reversed(s: seq<Vec3>): (r: seq<Vec3>)
    ensures |r| == |s| && forall k :: 0 <= k < |s| ==> r[k] == s[|s| - 1 - k]
  {
    seq(|s|, k requires 0 <= k < |s| => s[|s| - 1 - k])
  }

  lemma ReversedTwice(s: seq<Vec3>)
    ensures Reversed(Reversed(s)) == s
  {
  }

  /** toCCW as a value: the list when it is counter-clockwise, else its reverse. */
  function CcwOrder(points: seq<Vec3>, recip: Recip): seq<Vec3>
    requires |points| >= 3
  {
    if Ccw(points, recip) then points else Reversed(points)
  }

  /** toCW as a value: the reverse of a counter-clockwise list, else the list. */
  function CwOrder(points: seq<Vec3>, recip: Recip): seq<Vec3>
    requires |points| >= 3
  {
    if Ccw(points, recip) then Reversed(points) else points
  }

  /** toCCW(points): a copy of the list, reversed unless isCCW holds for the polygon
      through it. fromPoints throws for fewer than three points. The polygon made for
      the test has reference next and the storage `storage`. */
  method ToCCW(points: seq<Vec3>, storage: PropertyStorage, next: nat, recip: Recip) returns (r: Result<seq<Vec3>>)
    ensures r.Failure? <==> |points| < 3
    ensures r.Failure? ==> r.error == IndexOutOfRange
    ensures r.Success? ==> r.value == CcwOrder(points, recip)
  {
    var result := points;
    var p := FromPoints(next, result, storage, recip);
    if p.Failure? {
      return Failure(IndexOutOfRange);
    }
    var ccw := IsCCW(p.value, recip);
    if !ccw.value {
      result := Reversed(result);
    }
    r := Success(result);
  }

  /** toCW(points): a copy of the list, reversed when isCCW holds. */
  method ToCW(points: seq<Vec3>, storage: PropertyStorage, next: nat, recip: Recip) returns (r: Result<seq<Vec3>>)
    ensures r.Failure? <==> |points| < 3
    ensures r.Failure? ==> r.error == IndexOutOfRange
    ensures r.Success? ==> r.value == CwOrder(points, recip)
  {
    var result := points;
    var p := FromPoints(next, result, storage, recip);
    if p.Failure? {
      return Failure(IndexOutOfRange);
    }
    var ccw := IsCCW(p.value, recip);
    if ccw.value {
      result := Reversed(result);
    }
    r := Success(result);
  }

  /** toCCW and toCW return the list or its reverse, each the reverse of the other. */
  lemma OrdersAreReverses(points: seq<Vec3>, recip: Recip)
    requires |points| >= 3
    ensures CcwOrder(points, recip) == points || CcwOrder(points, recip) == Reversed(points)
    ensures CwOrder(points, recip) == Reversed(CcwOrder(points, recip))
    ensures CcwOrder(points, recip) == Reversed(CwOrder(points, recip))
  {
    ReversedTwice(points);
  }

  /** The unit square in the xy-plane listed counter-clockwise counts as
      counter-clockwise, and listed clockwise it does not (for any reciprocal that is
      positive on the unit x vector). */
  lemma SquareOrientation(recip: Recip)
    requires recip(Vec3(1.0, 0.0, 0.0)) > 0.0
    ensures Ccw([Vec3(0.0, 0.0, 0.0), Vec3(1.0, 0.0, 0.0), Vec3(1.0, 1.0, 0.0), Vec3(0.0, 1.0, 0.0)], recip)
    ensures !Ccw([Vec3(0.0, 1.0, 0.0), Vec3(1.0, 1.0, 0.0), Vec3(1.0, 0.0, 0.0), Vec3(0.0, 0.0, 0.0)], recip)
  {
    var ccw := [Vec3(0.0, 0.0, 0.0), Vec3(1.0, 0.0, 0.0), Vec3(1.0, 1.0, 0.0), Vec3(0.0, 1.0, 0.0)];
    var cw := [Vec3(0.0, 1.0, 0.0), Vec3(1.0, 1.0, 0.0), Vec3(1.0, 0.0, 0.0), Vec3(0.0, 0.0, 0.0)];
    HighestIsPivot(ccw, 0, 0);
    assert IsPivot(ccw, 3);
    PivotUnique(ccw, 3, Highest(ccw, 0, 0));
    HighestIsPivot(cw, 0, 0);
    assert IsPivot(cw, 0);
    PivotUnique(cw, 0, Highest(cw, 0, 0));
  }
}
