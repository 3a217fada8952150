/**
 * The cylinder primitive (CSharpCSG/Cylinder.cs): a start and an end point, a
 * radius at each end, a number of slices, and one property storage all its
 * polygons share. toPolygons sets up a frame round the axis and makes, per slice,
 * a triangle of the start cap, a quad of the side and a triangle of the end cap.
 */
module Cylinders {
  import opened Vectors
  import opened Wrappers
  import Vertices
  import opened Polygons
  import opened Storage
  import opened Trigonometry

  /** The frame toPolygons sets up: the ray from start s to end, its direction axisZ,
      and two axes axisX and axisY across it. */
  datatype Frame = Frame(s: Vec3, ray: Vec3, axisX: Vec3, axisY: Vec3, axisZ: Vec3)

  /** axisZ is the normalized ray; axisX is x (when axisZ leans more than half way to
      y) or y, crossed with axisZ and normalized; axisY is axisX crossed with axisZ,
      normalized. */
  function FrameOf(s: Vec3, e: Vec3, recip: Recip): Frame
  {
    var ray := Minus(e, s);
    var axisZ := Normalized(ray, recip);
    var isY := Abs(axisZ.y) > 0.5;
    var axisX := Normalized(Cross(Vec3(if isY then 1.0 else 0.0, if !isY then 1.0 else 0.0, 0.0), axisZ), recip);
    var axisY := Normalized(Cross(axisX, axisZ), recip);
    Frame(s, ray, axisX, axisY, axisZ)
  }

  /** The three axes are pairwise orthogonal, whatever the magnitudes. */
  lemma FrameOrthogonal(s: Vec3, e: Vec3, recip: Recip)
    ensures var f := FrameOf(s, e, recip);
      Dot(f.axisX, f.axisZ) == 0.0 && Dot(f.axisY, f.axisZ) == 0.0 && Dot(f.axisY, f.axisX) == 0.0
  {
    var f := FrameOf(s, e, recip);
    var isY := Abs(f.axisZ.y) > 0.5;
    NormalizedCrossOrthogonal(Vec3(if isY then 1.0 else 0.0, if !isY then 1.0 else 0.0, 0.0), f.axisZ, recip);
    NormalizedCrossOrthogonal(f.axisX, f.axisZ, recip);
  }

  /** The normalized cross product is orthogonal to both factors. */
  lemma NormalizedCrossOrthogonal(u: Vec3, w: Vec3, recip: Recip)
    ensures Dot(Normalized(Cross(u, w), recip), u) == 0.0 && Dot(Normalized(Cross(u, w), recip), w) == 0.0
  {
    var c := Cross(u, w);
    CrossOrthogonal(u, w);
    DotTimes(c, recip(c), u);
    DotTimes(c, recip(c), w);
  }

  /** The three axes have length one and are pairwise orthogonal. */
  predicate Orthonormal(f: Frame)
  {
    && Dot(f.axisX, f.axisX) == 1.0 && Dot(f.axisY, f.axisY) == 1.0 && Dot(f.axisZ, f.axisZ) == 1.0
    && Dot(f.axisX, f.axisZ) == 0.0 && Dot(f.axisY, f.axisZ) == 0.0 && Dot(f.axisY, f.axisX) == 0.0
  }

  /** With an exact square root and distinct ends, the frame is orthonormal. */
  lemma FrameOrthonormal(s: Vec3, e: Vec3, recip: Recip)
    requires ExactRecip(recip) && s != e
    ensures Orthonormal(FrameOf(s, e, recip))
  {
    FrameOrthogonal(s, e, recip);
    AxisZUnit(s, e, recip);
    AxisXUnit(s, e, recip);
    AxisYUnit(s, e, recip);
  }

  lemma AxisZUnit(s: Vec3, e: Vec3, recip: Recip)
    requires ExactRecip(recip) && s != e
    ensures var f := FrameOf(s, e, recip); Dot(f.axisZ, f.axisZ) == 1.0
  {
    assert Minus(e, s) != Zero;
    NormalizedIsUnit(Minus(e, s), recip);
  }

  lemma AxisXUnit(s: Vec3, e: Vec3, recip: Recip)
    requires ExactRecip(recip) && s != e
    ensures var f := FrameOf(s, e, recip); Dot(f.axisX, f.axisX) == 1.0
  {
    var z := FrameOf(s, e, recip).axisZ;
    AxisZUnit(s, e, recip);
    var isY := Abs(z.y) > 0.5;
    AcrossIsNonZero(z, isY);
    NormalizedIsUnit(Cross(Vec3(if isY then 1.0 else 0.0, if !isY then 1.0 else 0.0, 0.0), z), recip);
  }

  lemma AxisYUnit(s: Vec3, e: Vec3, recip: Recip)
    requires ExactRecip(recip) && s != e
    ensures var f := FrameOf(s, e, recip); Dot(f.axisY, f.axisY) == 1.0
  {
    var f := FrameOf(s, e, recip);
    AxisZUnit(s, e, recip);
    AxisXUnit(s, e, recip);
    FrameOrthogonal(s, e, recip);
    UnitCross(f.axisX, f.axisZ, recip);
  }

  /** For a unit z, x × z is non-zero when |z.y| > 1/2 and y × z is non-zero otherwise. */
  lemma AcrossIsNonZero(z: Vec3, isY: bool)
    requires Dot(z, z) == 1.0 && isY == (Abs(z.y) > 0.5)
    ensures Cross(Vec3(if isY then 1.0 else 0.0, if !isY then 1.0 else 0.0, 0.0), z) != Zero
  {
    if isY {
      assert Cross(Vec3(1.0, 0.0, 0.0), z).z == z.y;
    } else {
      assert Cross(Vec3(0.0, 1.0, 0.0), z) == Vec3(z.z, 0.0, -z.x);
      assert z.y * z.y <= 0.25 by {
        if z.y >= 0.0 {
          assert z.y * z.y <= 0.5 * z.y;
        } else {
          assert z.y * z.y <= -0.5 * z.y;
        }
      }
      assert z.x * z.x + z.z * z.z >= 0.75;
    }
  }

  /** The normalized cross product of two orthogonal unit vectors has length one. */
  lemma UnitCross(a: Vec3, z: Vec3, recip: Recip)
    requires ExactRecip(recip) && Dot(a, a) == 1.0 && Dot(z, z) == 1.0 && Dot(a, z) == 0.0
    ensures Dot(Normalized(Cross(a, z), recip), Normalized(Cross(a, z), recip)) == 1.0
  {
    Lagrange(a, z);
    assert Dot(Cross(a, z), Cross(a, z)) == 1.0;
    NormalizedIsUnit(Cross(a, z), recip);
  }

  /** |a × b|² = |a|²|b|² - (a·b)². */
  lemma Lagrange(a: Vec3, b: Vec3)
    ensures Dot(Cross(a, b), Cross(a, b)) == Dot(a, a) * Dot(b, b) - Dot(a, b) * Dot(a, b)
  {
  }

  /** cylPoint(axisX, axisY, axisZ, ray, s, r, stack, slice, normalBlend): the point
      s + ray·stack + ot·r, with ot = axisX·cos(a) + axisY·sin(a) for a = slice·2π, and
      the normal ot·(1 - |normalBlend|) + axisZ·normalBlend. */
  function CylPoint(f: Frame, r: real, stack: real, slice: real, normalBlend: real, t: Trig): Vertices.Vertex
  {
    var ot := Around(f, slice, t);
    Vertices.New(Plus(AxisPoint(f, stack), Times(ot, r)), Plus(Times(ot, 1.0 - Abs(normalBlend)), Times(f.axisZ, normalBlend)))
  }

  /** The point stack of the way along the axis: s + ray·stack. */
  function AxisPoint(f: Frame, stack: real): Vec3
  {
    Plus(f.s, Times(f.ray, stack))
  }

  /** The direction across the axis at the slice fraction: axisX·cos(a) + axisY·sin(a)
      for a = slice·2π. */
  function Around(f: Frame, slice: real, t: Trig): Vec3
  {
    Plus(Times(f.axisX, t.cos(Angle(slice, t))), Times(f.axisY, t.sin(Angle(slice, t))))
  }

  /** The slice fraction as an angle: slice·2π. */
  function Angle(slice: real, t: Trig): real
  {
    slice * t.pi * 2.0
  }

  /** With an orthonormal frame, cylPoint lies on the circle of radius |r| round the
      axis point s + ray·stack, in the plane across the axis. */
  lemma CylPointOnRim(f: Frame, r: real, stack: real, slice: real, normalBlend: real, t: Trig)
    requires Pythagorean(t)
    requires Orthonormal(f)
    ensures var d := Minus(CylPoint(f, r, stack, slice, normalBlend, t).pos, AxisPoint(f, stack));
      Dot(d, d) == r * r && Dot(d, f.axisZ) == 0.0
  {
    var co, si := t.cos(Angle(slice, t)), t.sin(Angle(slice, t));
    var ot := Around(f, slice, t);
    PlusMinus(AxisPoint(f, stack), Times(ot, r));
    UnitCombination(f.axisX, f.axisY, co, si);
    assert co * co + si * si == 1.0;
    OrthogonalCombination(f.axisX, f.axisY, co, si, f.axisZ);
    ScaledUnit(ot, r, f.axisZ);
  }

  lemma PlusMinus(a: Vec3, b: Vec3)
    ensures Minus(Plus(a, b), a) == b
  {
  }

  /** A combination of two vectors orthogonal to z is orthogonal to z. */
  lemma OrthogonalCombination(x: Vec3, y: Vec3, a: real, b: real, z: Vec3)
    requires Dot(x, z) == 0.0 && Dot(y, z) == 0.0
    ensures Dot(Plus(Times(x, a), Times(y, b)), z) == 0.0
  {
    DotTimes(x, a, z);
    DotTimes(y, b, z);
  }

  /** A unit vector u orthogonal to z, scaled by r, has squared length r² and stays
      orthogonal to z. */
  lemma ScaledUnit(u: Vec3, r: real, z: Vec3)
    requires Dot(u, u) == 1.0 && Dot(u, z) == 0.0
    ensures Dot(Times(u, r), Times(u, r)) == r * r && Dot(Times(u, r), z) == 0.0
  {
    DotTimes(u, r, Times(u, r));
    DotTimes(u, r, u);
    DotTimes(u, r, z);
    assert Dot(u, Times(u, r)) == Dot(Times(u, r), u);
  }

  /** |x·a + y·b|² = a² + b² for orthonormal x and y. */
  lemma UnitCombination(x: Vec3, y: Vec3, a: real, b: real)
    requires Dot(x, x) == 1.0 && Dot(y, y) == 1.0 && Dot(y, x) == 0.0
    ensures Dot(Plus(Times(x, a), Times(y, b)), Plus(Times(x, a), Times(y, b))) == a * a + b * b
  {
    var v := Plus(Times(x, a), Times(y, b));
    calc {
      Dot(v, v);
      a * a * Dot(x, x) + 2.0 * a * b * Dot(y, x) + b * b * Dot(y, y);
    }
  }

  /** A corner of a cylinder polygon: a given vertex (startV or endV), or a cylPoint
      with its radius, stack, slice fraction and normal blend. */
  datatype Spot = Apex(v: Vertices.Vertex) | Rim(r: real, stack: real, slice: real, blend: real)

  function SpotVertex(f: Frame, sp: Spot, t: Trig): Vertices.Vertex
  {
    match sp
    case Apex(v) => v
    case Rim(r, stack, slice, blend) => CylPoint(f, r, stack, slice, blend, t)
  }

  /** The vertices of the corners in order. */
  function SpotVertices(f: Frame, sps: seq<Spot>, t: Trig): (vs: seq<Vertices.Vertex>)
    ensures |vs| == |sps|
  {
    if sps == [] then [] else [SpotVertex(f, sps[0], t)] + SpotVertices(f, sps[1..], t)
  }

  lemma {:induction false} SpotVerticesAt(f: Frame, sps: seq<Spot>, k: nat, t: Trig)
    requires k < |sps|
    ensures SpotVertices(f, sps, t)[k] == SpotVertex(f, sps[k], t)
  {
    if k > 0 {
      SpotVerticesAt(f, sps[1..], k - 1, t);
    }
  }

  /** The corners of slice i's three polygons, with t0 = i / slices and t1 = (i + 1) /
      slices: the start cap (startV, start rim at t0, start rim at t1), the side (start
      rim at t1 and t0, end rim at t0 and t1) and the end cap (endV, end rim at t1, end
      rim at t0). */
  function SliceSpots(startV: Vertices.Vertex, endV: Vertices.Vertex, r0: real, r1: real, slices: int, i: int)
    : (spots: seq<seq<Spot>>)
    requires slices != 0
    ensures |spots| == 3 && |spots[0]| == 3 && |spots[1]| == 4 && |spots[2]| == 3
  {
    var t0, t1 := i as real / slices as real, (i + 1) as real / slices as real;
    [[Apex(startV), Rim(r0, 0.0, t0, -1.0), Rim(r0, 0.0, t1, -1.0)],
     [Rim(r0, 0.0, t1, 0.0), Rim(r0, 0.0, t0, 0.0), Rim(r1, 1.0, t0, 0.0), Rim(r1, 1.0, t1, 0.0)],
     [Apex(endV), Rim(r1, 1.0, t1, 1.0), Rim(r1, 1.0, t0, 1.0)]]
  }

  /** The vertex lists of slice i's three polygons. */
  function SliceLists(f: Frame, startV: Vertices.Vertex, endV: Vertices.Vertex, r0: real, r1: real, slices: int, i: int, t: Trig)
    : (vss: seq<seq<Vertices.Vertex>>)
    requires slices != 0
    ensures |vss| == 3 && Constructible(vss)
  {
    var spots := SliceSpots(startV, endV, r0, r1, slices, i);
    [SpotVertices(f, spots[0], t), SpotVertices(f, spots[1], t), SpotVertices(f, spots[2], t)]
  }

  /** The vertex lists of the first n slices. */
  function Lists(f: Frame, startV: Vertices.Vertex, endV: Vertices.Vertex, r0: real, r1: real, slices: int, n: nat, t: Trig)
    : (vss: seq<seq<Vertices.Vertex>>)
    requires slices != 0
    ensures |vss| == 3 * n && Constructible(vss)
  {
    if n == 0 then []
    else
      var a, b := Lists(f, startV, endV, r0, r1, slices, n - 1, t), SliceLists(f, startV, endV, r0, r1, slices, n - 1, t);
      assert Constructible(a + b) by {
        forall k | 0 <= k < |a + b| ensures |(a + b)[k]| >= 3 {
          if k >= |a| {
            assert (a + b)[k] == b[k - |a|];
          }
        }
      }
      a + b
  }

  /** The start vertex: the start point with the reversed axis as normal. */
  function StartVertex(s: Vec3, e: Vec3, recip: Recip): Vertices.Vertex
  {
    Vertices.New(s, Negated(FrameOf(s, e, recip).axisZ))
  }

  /** The end vertex: the end point with the axis, normalized once more, as normal. */
  function EndVertex(s: Vec3, e: Vec3, recip: Recip): Vertices.Vertex
  {
    Vertices.New(e, Normalized(FrameOf(s, e, recip).axisZ, recip))
  }

  /** toPolygons: the constructor on the three vertex lists of every slice in turn,
      with consecutive references from next; nothing for no slices. */
  function CylinderPolygons(s: Vec3, e: Vec3, r0: real, r1: real, slices: int, storage: PropertyStorage,
                            next: nat, recip: Recip, t: Trig): seq<Polygon>
  {
    if slices <= 0 then []
    else MakeAll(Lists(FrameOf(s, e, recip), StartVertex(s, e, recip), EndVertex(s, e, recip), r0, r1, slices, slices, t),
                 storage, next, recip)
  }

  /** Slice i's lists sit at indexes 3i, 3i + 1 and 3i + 2 of the first n slices, for
      i < n. */
  lemma {:induction false} ListsAt(f: Frame, startV: Vertices.Vertex, endV: Vertices.Vertex, r0: real, r1: real,
                                   slices: int, n: nat, i: nat, k: nat, t: Trig)
    requires slices != 0 && i < n && k < 3
    ensures 3 * i + k < 3 * n
    ensures Lists(f, startV, endV, r0, r1, slices, n, t)[3 * i + k] == SliceLists(f, startV, endV, r0, r1, slices, i, t)[k]
  {
    var a, b := Lists(f, startV, endV, r0, r1, slices, n - 1, t), SliceLists(f, startV, endV, r0, r1, slices, n - 1, t);
    if i < n - 1 {
      ListsAt(f, startV, endV, r0, r1, slices, n - 1, i, k, t);
      assert (a + b)[3 * i + k] == a[3 * i + k];
    } else {
      assert (a + b)[3 * i + k] == b[k];
    }
  }

  /** p is a polygon on the given corners: the storage, the reference, and a vertex
      at each corner's position in order. */
  predicate OnSpots(p: Polygon, f: Frame, spots: seq<Spot>, storage: PropertyStorage, ref: nat, t: Trig)
  {
    && p.storage == storage && p.ref == ref && |p.vertices| == |spots|
    && forall m :: 0 <= m < |spots| ==> p.vertices[m].pos == SpotVertex(f, spots[m], t).pos
  }

  /** toPolygons makes three polygons per slice: polygon 3i is slice i's start cap, a
      triangle from the start point; 3i + 1 its side, a quad; 3i + 2 its end cap, a
      triangle from the end point. All share the storage; references run from next. */
  lemma CylinderShape(s: Vec3, e: Vec3, r0: real, r1: real, slices: int, storage: PropertyStorage,
                      next: nat, recip: Recip, t: Trig)
    ensures var ps := CylinderPolygons(s, e, r0, r1, slices, storage, next, recip, t);
      && |ps| == (if slices > 0 then 3 * slices else 0)
      && forall i, k :: 0 <= i < slices && 0 <= k < 3 ==>
           OnSpots(ps[3 * i + k], FrameOf(s, e, recip),
                   SliceSpots(StartVertex(s, e, recip), EndVertex(s, e, recip), r0, r1, slices, i)[k], storage, next + 3 * i + k, t)
  {
    var ps := CylinderPolygons(s, e, r0, r1, slices, storage, next, recip, t);
    forall i, k | 0 <= i < slices && 0 <= k < 3
      ensures OnSpots(ps[3 * i + k], FrameOf(s, e, recip),
                      SliceSpots(StartVertex(s, e, recip), EndVertex(s, e, recip), r0, r1, slices, i)[k], storage, next + 3 * i + k, t)
    {
      CylinderCell(s, e, r0, r1, slices, storage, next, recip, t, i, k);
    }
  }

  lemma CylinderCell(s: Vec3, e: Vec3, r0: real, r1: real, slices: int, storage: PropertyStorage,
                     next: nat, recip: Recip, t: Trig, i: nat, k: nat)
    requires i < slices && k < 3
    ensures var ps := CylinderPolygons(s, e, r0, r1, slices, storage, next, recip, t);
      && 3 * i + k < |ps|
      && OnSpots(ps[3 * i + k], FrameOf(s, e, recip),
                 SliceSpots(StartVertex(s, e, recip), EndVertex(s, e, recip), r0, r1, slices, i)[k], storage, next + 3 * i + k, t)
  {
    var f, sv, ev := FrameOf(s, e, recip), StartVertex(s, e, recip), EndVertex(s, e, recip);
    var vss := Lists(f, sv, ev, r0, r1, slices, slices, t);
    ListsAt(f, sv, ev, r0, r1, slices, slices, i, k, t);
    var j := 3 * i + k;
    MakeAllShape(vss, storage, next, recip, j);
    var p := MakeAll(vss, storage, next, recip)[j];
    var spots := SliceSpots(sv, ev, r0, r1, slices, i)[k];
    forall m | 0 <= m < |spots| ensures p.vertices[m].pos == SpotVertex(f, spots[m], t).pos {
      assert Positions(p.vertices)[m] == Positions(vss[j])[m];
      SpotVerticesAt(f, spots, m, t);
    }
  }

  /** Every start cap begins at the start point and every end cap at the end point;
      with an exact square root, distinct ends and cos² + sin² = 1, every other
      vertex lies on the start rim (radius |r0| round the start, across the axis) or
      the end rim (radius |r1| round the end). */
  lemma CylinderRims(s: Vec3, e: Vec3, r0: real, r1: real, slices: int, storage: PropertyStorage,
                     next: nat, recip: Recip, t: Trig, i: nat, k: nat, m: nat)
    requires i < slices && k < 3
    requires m < (if k == 1 then 4 else 3)
    ensures var ps := CylinderPolygons(s, e, r0, r1, slices, storage, next, recip, t);
      && 3 * i + k < |ps| && m < |ps[3 * i + k].vertices|
      && var v := ps[3 * i + k].vertices[m].pos;
      && (k == 0 && m == 0 ==> v == s)
      && (k == 2 && m == 0 ==> v == e)
      && (ExactRecip(recip) && s != e && Pythagorean(t) ==>
            var start := (k == 0 && m > 0) || (k == 1 && m < 2);
            var end := (k == 2 && m > 0) || (k == 1 && m >= 2);
            var f := FrameOf(s, e, recip);
            && (start ==> Dot(Minus(v, s), Minus(v, s)) == r0 * r0 && Dot(Minus(v, s), f.axisZ) == 0.0)
            && (end ==> Dot(Minus(v, e), Minus(v, e)) == r1 * r1 && Dot(Minus(v, e), f.axisZ) == 0.0))
  {
    var f, sv, ev := FrameOf(s, e, recip), StartVertex(s, e, recip), EndVertex(s, e, recip);
    CylinderCell(s, e, r0, r1, slices, storage, next, recip, t, i, k);
    var ps := CylinderPolygons(s, e, r0, r1, slices, storage, next, recip, t);
    if ExactRecip(recip) && s != e {
      FrameOrthonormal(s, e, recip);
    }
    assert AxisPoint(f, 0.0) == s && AxisPoint(f, 1.0) == e;
    RimsOf(ps[3 * i + k], f, s, e, sv, ev, r0, r1, slices, i, k, m, storage, next + 3 * i + k, t);
  }

  /** CylinderRims for one polygon on slice i's corners, with the frame's axis
      running from s to e. */
  lemma RimsOf(p: Polygon, f: Frame, s: Vec3, e: Vec3, sv: Vertices.Vertex, ev: Vertices.Vertex, r0: real, r1: real,
               slices: int, i: int, k: nat, m: nat, storage: PropertyStorage, ref: nat, t: Trig)
    requires slices != 0 && k < 3 && m < (if k == 1 then 4 else 3)
    requires AxisPoint(f, 0.0) == s && AxisPoint(f, 1.0) == e && sv.pos == s && ev.pos == e
    requires OnSpots(p, f, SliceSpots(sv, ev, r0, r1, slices, i)[k], storage, ref, t)
    ensures m < |p.vertices|
    ensures var v := p.vertices[m].pos;
      && (k == 0 && m == 0 ==> v == s)
      && (k == 2 && m == 0 ==> v == e)
      && (Orthonormal(f) && Pythagorean(t) ==>
            var start := (k == 0 && m > 0) || (k == 1 && m < 2);
            var end := (k == 2 && m > 0) || (k == 1 && m >= 2);
            && (start ==> Dot(Minus(v, s), Minus(v, s)) == r0 * r0 && Dot(Minus(v, s), f.axisZ) == 0.0)
            && (end ==> Dot(Minus(v, e), Minus(v, e)) == r1 * r1 && Dot(Minus(v, e), f.axisZ) == 0.0))
  {
    var spots := SliceSpots(sv, ev, r0, r1, slices, i)[k];
    SpotKinds(sv, ev, r0, r1, slices, i, k, m);
    if Orthonormal(f) && Pythagorean(t) && spots[m].Rim? {
      SpotOnRim(f, spots[m], t);
    }
  }

  /** The corners of slice i: the first of each cap is its apex, every other corner
      is on the start rim (stack 0, radius r0) or the end rim (stack 1, radius r1). */
  lemma SpotKinds(startV: Vertices.Vertex, endV: Vertices.Vertex, r0: real, r1: real, slices: int, i: int, k: nat, m: nat)
    requires slices != 0 && k < 3 && m < (if k == 1 then 4 else 3)
    ensures var sp := SliceSpots(startV, endV, r0, r1, slices, i)[k][m];
      && (k == 0 && m == 0 ==> sp == Apex(startV))
      && (k == 2 && m == 0 ==> sp == Apex(endV))
      && ((k == 0 && m > 0) || (k == 1 && m < 2) ==> sp.Rim? && sp.stack == 0.0 && sp.r == r0)
      && ((k == 2 && m > 0) || (k == 1 && m >= 2) ==> sp.Rim? && sp.stack == 1.0 && sp.r == r1)
  {
  }

  /** A rim corner lies on its rim, under an orthonormal frame and cos² + sin² = 1. */
  lemma SpotOnRim(f: Frame, sp: Spot, t: Trig)
    requires Pythagorean(t) && sp.Rim?
    requires Orthonormal(f)
    ensures var d := Minus(SpotVertex(f, sp, t).pos, AxisPoint(f, sp.stack));
      Dot(d, d) == sp.r * sp.r && Dot(d, f.axisZ) == 0.0
  {
    CylPointOnRim(f, sp.r, sp.stack, sp.slice, sp.blend, t);
  }

  /** One more step of the slice loop: the polygons of the first i slices, then the
      three of slice i, are the polygons of the first i + 1 slices. */
  lemma SliceGrown(f: Frame, startV: Vertices.Vertex, endV: Vertices.Vertex, r0: real, r1: real, slices: int, i: nat, t: Trig,
                   ps: seq<Polygon>, slice: seq<Polygon>, storage: PropertyStorage, next: nat, recip: Recip)
    requires slices != 0
    requires ps == MakeAll(Lists(f, startV, endV, r0, r1, slices, i, t), storage, next, recip)
    requires slice == MakeAll(SliceLists(f, startV, endV, r0, r1, slices, i, t), storage, next + |ps|, recip)
    ensures ps + slice == MakeAll(Lists(f, startV, endV, r0, r1, slices, i + 1, t), storage, next, recip)
  {
    MakeAllAppend(Lists(f, startV, endV, r0, r1, slices, i, t), SliceLists(f, startV, endV, r0, r1, slices, i, t), storage, next, recip);
  }

  class Cylinder {
    var start: Vec3
    var end: Vec3
    var startRadius: real
    var endRadius: real
    var numSlices: int
    const properties: PropertyStorage

    /** Cylinder(): from (0, -0.5, 0) to (0, 0.5, 0), radius 1, 16 slices. The storage
        is made with the random colour draw `draw`. */
    constructor (draw: real)
      requires 0.0 <= draw < 1.0
      ensures start == Vec3(0.0, -0.5, 0.0) && end == Vec3(0.0, 0.5, 0.0)
      ensures startRadius == 1.0 && endRadius == 1.0 && numSlices == 16
      ensures fresh(properties)
    {
      start := Vec3(0.0, -0.5, 0.0);
      end := Vec3(0.0, 0.5, 0.0);
      startRadius := 1.0;
      endRadius := 1.0;
      numSlices := 16;
      properties := new PropertyStorage(draw);
    }

    /** Cylinder(start, end, radius, numSlices): one radius at both ends. */
    constructor Between(start: Vec3, end: Vec3, radius: real, numSlices: int, draw: real)
      requires 0.0 <= draw < 1.0
      ensures this.start == start && this.end == end && startRadius == radius && endRadius == radius
      ensures this.numSlices == numSlices && fresh(properties)
    {
      this.start := start;
      this.end := end;
      startRadius := radius;
      endRadius := radius;
      this.numSlices := numSlices;
      properties := new PropertyStorage(draw);
    }

    /** Cylinder(start, end, startRadius, endRadius, numSlices). */
    constructor Tapered(start: Vec3, end: Vec3, startRadius: real, endRadius: real, numSlices: int, draw: real)
      requires 0.0 <= draw < 1.0
      ensures this.start == start && this.end == end && this.startRadius == startRadius && this.endRadius == endRadius
      ensures this.numSlices == numSlices && fresh(properties)
    {
      this.start := start;
      this.end := end;
      this.startRadius := startRadius;
      this.endRadius := endRadius;
      this.numSlices := numSlices;
      properties := new PropertyStorage(draw);
    }

    /** Cylinder(radius, height, numSlices): from the origin up z to height. */
    constructor Upright(radius: real, height: real, numSlices: int, draw: real)
      requires 0.0 <= draw < 1.0
      ensures start == Zero && end == Vec3(0.0, 0.0, height) && startRadius == radius && endRadius == radius
      ensures this.numSlices == numSlices && fresh(properties)
    {
      start := Zero;
      end := Times(Vec3(0.0, 0.0, 1.0), height);
      startRadius := radius;
      endRadius := radius;
      this.numSlices := numSlices;
      properties := new PropertyStorage(draw);
    }

    /** Cylinder(startRadius, endRadius, height, numSlices): from the origin up z. */
    constructor UprightTapered(startRadius: real, endRadius: real, height: real, numSlices: int, draw: real)
      requires 0.0 <= draw < 1.0
      ensures start == Zero && end == Vec3(0.0, 0.0, height)
      ensures this.startRadius == startRadius && this.endRadius == endRadius
      ensures this.numSlices == numSlices && fresh(properties)
    {
      start := Zero;
      end := Times(Vec3(0.0, 0.0, 1.0), height);
      this.startRadius := startRadius;
      this.endRadius := endRadius;
      this.numSlices := numSlices;
      properties := new PropertyStorage(draw);
    }

    /** toPolygons: the frame, the two apex vertices, then three polygons per slice.
        References start at next. */
    method ToPolygons(next: nat, recip: Recip, t: Trig) returns (polygons: seq<Polygon>, next': nat)
      ensures polygons == CylinderPolygons(start, end, startRadius, endRadius, numSlices, properties, next, recip, t)
      ensures next' == next + |polygons|
    {
      var s, e := GetStart(), GetEnd();
      var f := FrameOf(s, e, recip);
      var startV, endV := StartVertex(s, e, recip), EndVertex(s, e, recip);
      var n, r0, r1 := GetNumSlices(), GetStartRadius(), GetEndRadius();
      polygons := [];
      var i := 0;
      while i < n
        invariant i == 0 || 0 < i <= n
        invariant i == 0 ==> polygons == []
        invariant n > 0 ==> polygons == MakeAll(Lists(f, startV, endV, r0, r1, n, i, t), properties, next, recip)
      {
        var slice := SlicePolygons(f, startV, endV, i, next + |polygons|, recip, t);
        SliceGrown(f, startV, endV, r0, r1, n, i, t, polygons, slice, properties, next, recip);
        polygons := polygons + slice;
        i := i + 1;
      }
      next' := next + |polygons|;
    }

    /** The three polygons of slice i, as the loop body builds them. */
    method SlicePolygons(f: Frame, startV: Vertices.Vertex, endV: Vertices.Vertex, i: int, ref: nat, recip: Recip, t: Trig)
      returns (slice: seq<Polygon>)
      requires numSlices != 0
      ensures slice == MakeAll(SliceLists(f, startV, endV, startRadius, endRadius, numSlices, i, t), properties, ref, recip)
    {
      var t0, t1 := i as real / numSlices as real, (i + 1) as real / numSlices as real;
      var cap := [startV, CylPoint(f, startRadius, 0.0, t0, -1.0, t), CylPoint(f, startRadius, 0.0, t1, -1.0, t)];
      var side := [CylPoint(f, startRadius, 0.0, t1, 0.0, t), CylPoint(f, startRadius, 0.0, t0, 0.0, t),
                   CylPoint(f, endRadius, 1.0, t0, 0.0, t), CylPoint(f, endRadius, 1.0, t1, 0.0, t)];
      var top := [endV, CylPoint(f, endRadius, 1.0, t1, 1.0, t), CylPoint(f, endRadius, 1.0, t0, 1.0, t)];
      SliceListsAre(f, startV, endV, startRadius, endRadius, numSlices, i, t, cap, side, top);
      var a := New(ref, cap, properties, recip);
      var b := New(ref + 1, side, properties, recip);
      var c := New(ref + 2, top, properties, recip);
      slice := [a.value, b.value, c.value];
      MakeAllOfNew([cap, side, top], slice, properties, ref, recip);
    }

    function GetStart(): Vec3
      reads this
    {
      start
    }

    method SetStart(s: Vec3)
      modifies this
      ensures GetStart() == s && end == old(end) && startRadius == old(startRadius) && endRadius == old(endRadius)
      ensures numSlices == old(numSlices)
    {
      start := s;
    }

    function GetEnd(): Vec3
      reads this
    {
      end
    }

    method SetEnd(e: Vec3)
      modifies this
      ensures GetEnd() == e && start == old(start) && startRadius == old(startRadius) && endRadius == old(endRadius)
      ensures numSlices == old(numSlices)
    {
      end := e;
    }

    function GetStartRadius(): real
      reads this
    {
      startRadius
    }

    method SetStartRadius(r: real)
      modifies this
      ensures GetStartRadius() == r && start == old(start) && end == old(end) && endRadius == old(endRadius)
      ensures numSlices == old(numSlices)
    {
      startRadius := r;
    }

    function GetEndRadius(): real
      reads this
    {
      endRadius
    }

    method SetEndRadius(r: real)
      modifies this
      ensures GetEndRadius() == r && start == old(start) && end == old(end) && startRadius == old(startRadius)
      ensures numSlices == old(numSlices)
    {
      endRadius := r;
    }

    function GetNumSlices(): int
      reads this
    {
      numSlices
    }

    method SetNumSlices(n: int)
      modifies this
      ensures GetNumSlices() == n && start == old(start) && end == old(end) && startRadius == old(startRadius)
      ensures endRadius == old(endRadius)
    {
      numSlices := n;
    }

    function GetProperties(): PropertyStorage
    {
      properties
    }
  }

  /** The literal vertex lists of the loop body are slice i's lists. */
  lemma SliceListsAre(f: Frame, startV: Vertices.Vertex, endV: Vertices.Vertex, r0: real, r1: real, slices: int, i: int, t: Trig,
                      cap: seq<Vertices.Vertex>, side: seq<Vertices.Vertex>, top: seq<Vertices.Vertex>)
    requires slices != 0
    requires var t0, t1 := i as real / slices as real, (i + 1) as real / slices as real;
      && cap == [startV, CylPoint(f, r0, 0.0, t0, -1.0, t), CylPoint(f, r0, 0.0, t1, -1.0, t)]
      && side == [CylPoint(f, r0, 0.0, t1, 0.0, t), CylPoint(f, r0, 0.0, t0, 0.0, t),
                  CylPoint(f, r1, 1.0, t0, 0.0, t), CylPoint(f, r1, 1.0, t1, 0.0, t)]
      && top == [endV, CylPoint(f, r1, 1.0, t1, 1.0, t), CylPoint(f, r1, 1.0, t0, 1.0, t)]
    ensures SliceLists(f, startV, endV, r0, r1, slices, i, t) == [cap, side, top]
  {
    var spots := SliceSpots(startV, endV, r0, r1, slices, i);
    forall k, m | 0 <= k < 3 && 0 <= m < |spots[k]| ensures SpotVertices(f, spots[k], t)[m] == SpotVertex(f, spots[k][m], t) {
      SpotVerticesAt(f, spots[k], m, t);
    }
    assert SpotVertices(f, spots[0], t) == cap;
    assert SpotVertices(f, spots[1], t) == side;
    assert SpotVertices(f, spots[2], t) == top;
  }
}
