/**
 * The solid (CSharpCSG/CSG.cs): a list of polygons and an optional choice of
 * bounding-box short-cut for the boolean operations. A CSG is a value here; the
 * list it holds is the list itself (fromPolygons does not copy). The boolean
 * operations are in booleans.dfy, the OBJ export in objexport.dfy.
 */
module CSGs {
  import opened Vectors
  import opened Wrappers
  import opened Polygons
  import Boxes
  import opened Storage
  import opened BspTrees
  import Cubes

  /** The bounding-box short-cut the boolean operations take. */
  datatype OptType = CsgBound | PolygonBound | NoOptimization

  datatype CSG = CSG(polygons: seq<Polygon>, optType: Option<OptType>)

  /** getOptType: the solid's own choice when it has one, else the library-wide default
      (which setDefaultOptType changes and which starts as NONE). */
  function GetOptType(c: CSG, defaultOpt: OptType): (t: OptType)
    ensures c.optType.Some? ==> t == c.optType.value
    ensures c.optType.None? ==> t == defaultOpt
  {
    if c.optType.Some? then c.optType.value else defaultOpt
  }

  /** fromPolygons(list): a solid holding that very list, with no choice of short-cut. */
  function FromPolygons(ps: seq<Polygon>): (c: CSG)
    ensures c.polygons == ps && c.optType == None
  {
    CSG(ps, None)
  }

  /** fromPolygons(storage, list): the list, with every polygon given the storage. */
  function FromPolygonsSharing(storage: PropertyStorage, ps: seq<Polygon>): (c: CSG)
    ensures |c.polygons| == |ps| && c.optType == None
    ensures forall i :: 0 <= i < |ps| ==> c.polygons[i] == ps[i].(storage := storage)
  {
    CSG(seq(|ps|, i requires 0 <= i < |ps| => ps[i].(storage := storage)), None)
  }

  /** After fromPolygons(storage, list) every polygon shares the one storage and is
      otherwise the polygon it was. */
  lemma SharingSetsOneStorage(storage: PropertyStorage, ps: seq<Polygon>)
    ensures var c := FromPolygonsSharing(storage, ps);
      && (forall q :: q in c.polygons ==> q.storage == storage)
      && (forall i :: 0 <= i < |ps| ==>
            c.polygons[i].ref == ps[i].ref && c.polygons[i].vertices == ps[i].vertices && c.polygons[i].plane == ps[i].plane)
  {
  }

  /** optimization(type): the same solid with its choice of short-cut set. */
  function Optimization(c: CSG, t: Option<OptType>): (r: CSG)
    ensures r.polygons == c.polygons && r.optType == t
  {
    c.(optType := t)
  }

  /** clone: a clone of every polygon, in order, and the solid's effective short-cut
      fixed as its own. */
  function Clone(c: CSG, defaultOpt: OptType, next: nat, recip: Recip): (r: (CSG, nat))
    requires Proper(c.polygons)
  {
    var copies := CloneAll(c.polygons, next, recip);
    (CSG(copies.0, Some(GetOptType(c, defaultOpt))), copies.1)
  }

  /** A clone holds, position by position, copies of the polygons that share their
      storage, under new references; it keeps the effective short-cut. */
  lemma CloneCopies(c: CSG, defaultOpt: OptType, next: nat, recip: Recip)
    requires Proper(c.polygons)
    ensures var (r, n) := Clone(c, defaultOpt, next, recip);
      && Copies(r.polygons, c.polygons, next, n) && n == next + |c.polygons|
      && Proper(r.polygons)
      && GetOptType(r, defaultOpt) == GetOptType(c, defaultOpt)
  {
    CloneAllCopies(c.polygons, next, recip);
    CopiesKeepProper(Clone(c, defaultOpt, next, recip).0.polygons, c.polygons, next, next + |c.polygons|);
  }

  /** Copies of polygons with three vertices have three vertices. */
  lemma CopiesKeepProper(cs: seq<Polygon>, ps: seq<Polygon>, lo: nat, hi: nat)
    requires Copies(cs, ps, lo, hi) && Proper(ps)
    ensures Proper(cs)
  {
    forall i | 0 <= i < |cs| ensures |cs[i].vertices| >= 3 {
      assert |Positions(cs[i].vertices)| == |Positions(ps[i].vertices)|;
    }
  }

  /** dumbUnion: the clone of this solid with the polygons of a clone of the other
      appended. */
  function DumbUnion(a: CSG, b: CSG, defaultOpt: OptType, next: nat, recip: Recip): (r: (CSG, nat))
    requires Proper(a.polygons) && Proper(b.polygons)
  {
    var (ca, n1) := Clone(a, defaultOpt, next, recip);
    var (cb, n2) := Clone(b, defaultOpt, n1, recip);
    (ca.(polygons := ca.polygons + cb.polygons), n2)
  }

  /** dumbUnion holds copies of this solid's polygons followed by copies of the other's,
      as many as both have together, all new objects. */
  lemma DumbUnionCopies(a: CSG, b: CSG, defaultOpt: OptType, next: nat, recip: Recip)
    requires Proper(a.polygons) && Proper(b.polygons)
    ensures var (r, n) := DumbUnion(a, b, defaultOpt, next, recip);
      && |r.polygons| == |a.polygons| + |b.polygons|
      && Copies(r.polygons, a.polygons + b.polygons, next, n)
      && n == next + |a.polygons| + |b.polygons|
      && GetOptType(r, defaultOpt) == GetOptType(a, defaultOpt)
  {
    var (ca, n1) := Clone(a, defaultOpt, next, recip);
    var (cb, n2) := Clone(b, defaultOpt, n1, recip);
    CloneCopies(a, defaultOpt, next, recip);
    CloneCopies(b, defaultOpt, n1, recip);
    CopiesAppend(ca.polygons, a.polygons, cb.polygons, b.polygons, next, n1, next, n2);
  }

  /** The positions of all the polygons, polygon after polygon. */
  function AllPositions(ps: seq<Polygon>): (r: seq<Vec3>)
    ensures |ps| > 0 ==> |r| >= |ps[0].vertices|
  {
    if ps == [] then [] else AllPositions(ps[..|ps| - 1]) + Positions(ps[|ps| - 1].vertices)
  }

  /** Every vertex's position is among all the positions. */
  lemma {:induction false} InAllPositions(ps: seq<Polygon>, i: nat, j: nat)
    requires i < |ps| && j < |ps[i].vertices|
    ensures ps[i].vertices[j].pos in AllPositions(ps)
    decreases |ps|
  {
    if i < |ps| - 1 {
      InAllPositions(ps[..|ps| - 1], i, j);
    } else {
      assert Positions(ps[i].vertices)[j] == ps[i].vertices[j].pos;
    }
  }

  /** getBounds: the zero box at the origin for a solid without polygons, otherwise the
      box of all the vertex positions. */
  function Bounds(ps: seq<Polygon>): (b: Boxes.Bounds)
    requires Proper(ps)
  {
    if ps == [] then Boxes.New(Zero, Zero) else BoxOf(AllPositions(ps))
  }

  /** Every vertex of every polygon lies in the solid's box, and the box of a solid
      without polygons has its center and extent at zero. */
  lemma BoundsContainEveryVertex(ps: seq<Polygon>)
    requires Proper(ps)
    ensures forall i, j :: 0 <= i < |ps| && 0 <= j < |ps[i].vertices| ==> Boxes.ContainsPoint(Bounds(ps), ps[i].vertices[j].pos)
    ensures ps == [] ==> Bounds(ps).center == Zero && Bounds(ps).extent == Zero && Bounds(ps).min == Zero
  {
    forall i, j | 0 <= i < |ps| && 0 <= j < |ps[i].vertices|
      ensures Boxes.ContainsPoint(Bounds(ps), ps[i].vertices[j].pos)
    {
      InAllPositions(ps, i, j);
    }
  }

  /** getBounds: a running minimum and maximum, started at the first vertex of the
      first polygon, over every vertex of every polygon. */
  method GetBounds(c: CSG) returns (b: Boxes.Bounds)
    requires Proper(c.polygons)
    ensures b == Bounds(c.polygons)
  {
    var ps := c.polygons;
    if |ps| == 0 {
      return Boxes.New(Zero, Zero);
    }
    var first := ps[0].vertices[0].pos;
    var lo, hi := first, first;
    var i := 0;
    while i < |ps|
      invariant 0 <= i <= |ps|
      invariant i == 0 ==> lo == first && hi == first
      invariant i > 0 ==> lo == MinCorner(AllPositions(ps[..i])) && hi == MaxCorner(AllPositions(ps[..i]))
    {
      assert ps[..i + 1][..i] == ps[..i];
      lo, hi := Widen(lo, hi, AllPositions(ps[..i]), ps[i], first);
      i := i + 1;
    }
    assert ps[..i] == ps;
    b := Boxes.New(lo, hi);
  }

  /** The corners after the first n points of a list; before any point, the first. */
  predicate Running(all: seq<Vec3>, n: nat, lo: Vec3, hi: Vec3)
    requires 0 < |all| && n <= |all|
  {
    if n == 0 then lo == all[0] && hi == all[0] else lo == MinCorner(all[..n]) && hi == MaxCorner(all[..n])
  }

  /** Taking the next point into the running corners. */
  lemma RunningStep(all: seq<Vec3>, n: nat, lo: Vec3, hi: Vec3)
    requires n < |all| && Running(all, n, lo, hi)
    ensures Running(all, n + 1, Lower(lo, all[n]), Upper(hi, all[n]))
  {
    if n > 0 {
      CornersStep(all, n);
    } else {
      assert all[..1] == [all[0]];
    }
  }

  /** The inner loop of getBounds over one polygon's vertices: the corners of the
      positions so far, widened by the polygon's. Before any position (`before` empty)
      the corners are the first vertex, which the polygon starts with. */
  method Widen(lo0: Vec3, hi0: Vec3, before: seq<Vec3>, p: Polygon, first: Vec3) returns (lo: Vec3, hi: Vec3)
    requires |p.vertices| > 0
    requires before == [] ==> lo0 == first && hi0 == first && p.vertices[0].pos == first
    requires before != [] ==> lo0 == MinCorner(before) && hi0 == MaxCorner(before)
    ensures lo == MinCorner(before + Positions(p.vertices)) && hi == MaxCorner(before + Positions(p.vertices))
  {
    var all := before + Positions(p.vertices);
    assert all[..|before|] == before;
    lo, hi := lo0, hi0;
    var j := 0;
    while j < |p.vertices|
      invariant 0 <= j <= |p.vertices|
      invariant Running(all, |before| + j, lo, hi)
    {
      var v := p.vertices[j].pos;
      assert all[|before| + j] == v;
      RunningStep(all, |before| + j, lo, hi);
      lo, hi := Lower(lo, v), Upper(hi, v);
      j := j + 1;
    }
    assert all[..|before| + j] == all;
  }

  /** The signed volume of the tetrahedron from the origin to a triangle. */
  function SignedVolume(a: Vec3, b: Vec3, c: Vec3): real
  {
    Dot(a, Cross(b, c)) / 6.0
  }

  /** The signed volumes of a polygon's fan triangles, summed. */
  function FanVolume(ps: seq<Vec3>): real
    decreases |ps|
  {
    if |ps| < 3 then 0.0
    else FanVolume(ps[..|ps| - 1]) + SignedVolume(ps[0], ps[|ps| - 2], ps[|ps| - 1])
  }

  /** The signed volumes of all the polygons' fan triangles, summed. */
  function SignedSum(ps: seq<Polygon>): real
  {
    if ps == [] then 0.0 else SignedSum(ps[..|ps| - 1]) + FanVolume(Positions(ps[|ps| - 1].vertices))
  }

  /** computeVolume: 0 for a solid without polygons, otherwise the absolute value of the
      summed signed volumes of the fan triangles of every polygon. */
  function ComputeVolume(c: CSG): (v: real)
    ensures v >= 0.0
    ensures c.polygons == [] ==> v == 0.0
    ensures c.polygons != [] ==> v == Abs(SignedSum(c.polygons))
  {
    if c.polygons == [] then 0.0 else Abs(SignedSum(c.polygons))
  }

  /** The fan of a four-vertex polygon is two triangles sharing its first vertex. */
  lemma QuadFanVolume(ps: seq<Vec3>)
    requires |ps| == 4
    ensures FanVolume(ps) == SignedVolume(ps[0], ps[1], ps[2]) + SignedVolume(ps[0], ps[2], ps[3])
  {
    assert ps[..3][..2] == ps[..2];
    assert ps[..3][0] == ps[0] && ps[..3][1] == ps[1] && ps[..3][2] == ps[2];
  }

  /** The corners of the cube centred at the origin, by number: bit 1 picks +x, bit 2
      +y, bit 4 +z, each half the dimension from the origin. */
  function OriginCorner(dims: Vec3, i: nat): Vec3
  {
    Vec3(if i % 2 == 1 then dims.x / 2.0 else -dims.x / 2.0,
         if (i / 2) % 2 == 1 then dims.y / 2.0 else -dims.y / 2.0,
         if (i / 4) % 2 == 1 then dims.z / 2.0 else -dims.z / 2.0)
  }

  lemma OriginCorners(dims: Vec3, i: nat)
    ensures Cubes.Corner(Zero, dims, i) == OriginCorner(dims, i)
  {
    Cubes.CornerCoordinates(Zero, dims, i);
  }

  /** The two fan triangles of a face of the cube centred at the origin, its corners
      taken in the order of the face table. */
  function FaceFans(dims: Vec3, f: nat): real
    requires f < 6
  {
    var cs := Cubes.Faces[f];
    SignedVolume(OriginCorner(dims, cs[0]), OriginCorner(dims, cs[1]), OriginCorner(dims, cs[2]))
    + SignedVolume(OriginCorner(dims, cs[0]), OriginCorner(dims, cs[2]), OriginCorner(dims, cs[3]))
  }

  /** Each face's two fan triangles make up a sixth of the cube's volume: the faces
      wind outward. */
  lemma FaceFansSixth(dims: Vec3, f: nat)
    requires f < 6
    ensures FaceFans(dims, f) == dims.x * dims.y * dims.z / 6.0
  {
    if f == 0 {
      LeftFaceFans(dims);
    } else if f == 1 {
      RightFaceFans(dims);
    } else if f == 2 {
      BottomFaceFans(dims);
    } else if f == 3 {
      TopFaceFans(dims);
    } else if f == 4 {
      BackFaceFans(dims);
    } else {
      FrontFaceFans(dims);
    }
  }

  /** The -x face. */
  lemma LeftFaceFans(dims: Vec3)
    ensures FaceFans(dims, 0) == dims.x * dims.y * dims.z / 6.0
  {
    var a, b, c := dims.x / 2.0, dims.y / 2.0, dims.z / 2.0;
    assert Cubes.Faces[0] == [0, 4, 6, 2];
    assert OriginCorner(dims, 0) == Vec3(-a, -b, -c);
    assert OriginCorner(dims, 4) == Vec3(-a, -b, c);
    assert OriginCorner(dims, 6) == Vec3(-a, b, c);
    assert OriginCorner(dims, 2) == Vec3(-a, b, -c);
    assert SignedVolume(Vec3(-a, -b, -c), Vec3(-a, -b, c), Vec3(-a, b, c))
      + SignedVolume(Vec3(-a, -b, -c), Vec3(-a, b, c), Vec3(-a, b, -c)) == dims.x * dims.y * dims.z / 6.0;
  }

  /** The +x face. */
  lemma RightFaceFans(dims: Vec3)
    ensures FaceFans(dims, 1) == dims.x * dims.y * dims.z / 6.0
  {
    var a, b, c := dims.x / 2.0, dims.y / 2.0, dims.z / 2.0;
    assert Cubes.Faces[1] == [1, 3, 7, 5];
    assert OriginCorner(dims, 1) == Vec3(a, -b, -c);
    assert OriginCorner(dims, 3) == Vec3(a, b, -c);
    assert OriginCorner(dims, 7) == Vec3(a, b, c);
    assert OriginCorner(dims, 5) == Vec3(a, -b, c);
    assert SignedVolume(Vec3(a, -b, -c), Vec3(a, b, -c), Vec3(a, b, c))
      + SignedVolume(Vec3(a, -b, -c), Vec3(a, b, c), Vec3(a, -b, c)) == dims.x * dims.y * dims.z / 6.0;
  }

  /** The -y face. */
  lemma BottomFaceFans(dims: Vec3)
    ensures FaceFans(dims, 2) == dims.x * dims.y * dims.z / 6.0
  {
    var a, b, c := dims.x / 2.0, dims.y / 2.0, dims.z / 2.0;
    assert Cubes.Faces[2] == [0, 1, 5, 4];
    assert OriginCorner(dims, 0) == Vec3(-a, -b, -c);
    assert OriginCorner(dims, 1) == Vec3(a, -b, -c);
    assert OriginCorner(dims, 5) == Vec3(a, -b, c);
    assert OriginCorner(dims, 4) == Vec3(-a, -b, c);
    assert SignedVolume(Vec3(-a, -b, -c), Vec3(a, -b, -c), Vec3(a, -b, c))
      + SignedVolume(Vec3(-a, -b, -c), Vec3(a, -b, c), Vec3(-a, -b, c)) == dims.x * dims.y * dims.z / 6.0;
  }

  /** The +y face. */
  lemma TopFaceFans(dims: Vec3)
    ensures FaceFans(dims, 3) == dims.x * dims.y * dims.z / 6.0
  {
    var a, b, c := dims.x / 2.0, dims.y / 2.0, dims.z / 2.0;
    assert Cubes.Faces[3] == [2, 6, 7, 3];
    assert OriginCorner(dims, 2) == Vec3(-a, b, -c);
    assert OriginCorner(dims, 6) == Vec3(-a, b, c);
    assert OriginCorner(dims, 7) == Vec3(a, b, c);
    assert OriginCorner(dims, 3) == Vec3(a, b, -c);
    assert SignedVolume(Vec3(-a, b, -c), Vec3(-a, b, c), Vec3(a, b, c))
      + SignedVolume(Vec3(-a, b, -c), Vec3(a, b, c), Vec3(a, b, -c)) == dims.x * dims.y * dims.z / 6.0;
  }

  /** The -z face. */
  lemma BackFaceFans(dims: Vec3)
    ensures FaceFans(dims, 4) == dims.x * dims.y * dims.z / 6.0
  {
    var a, b, c := dims.x / 2.0, dims.y / 2.0, dims.z / 2.0;
    assert Cubes.Faces[4] == [0, 2, 3, 1];
    assert OriginCorner(dims, 0) == Vec3(-a, -b, -c);
    assert OriginCorner(dims, 2) == Vec3(-a, b, -c);
    assert OriginCorner(dims, 3) == Vec3(a, b, -c);
    assert OriginCorner(dims, 1) == Vec3(a, -b, -c);
    assert SignedVolume(Vec3(-a, -b, -c), Vec3(-a, b, -c), Vec3(a, b, -c))
      + SignedVolume(Vec3(-a, -b, -c), Vec3(a, b, -c), Vec3(a, -b, -c)) == dims.x * dims.y * dims.z / 6.0;
  }

  /** The +z face. */
  lemma FrontFaceFans(dims: Vec3)
    ensures FaceFans(dims, 5) == dims.x * dims.y * dims.z / 6.0
  {
    var a, b, c := dims.x / 2.0, dims.y / 2.0, dims.z / 2.0;
    assert Cubes.Faces[5] == [4, 5, 7, 6];
    assert OriginCorner(dims, 4) == Vec3(-a, -b, c);
    assert OriginCorner(dims, 5) == Vec3(a, -b, c);
    assert OriginCorner(dims, 7) == Vec3(a, b, c);
    assert OriginCorner(dims, 6) == Vec3(-a, b, c);
    assert SignedVolume(Vec3(-a, -b, c), Vec3(a, -b, c), Vec3(a, b, c))
      + SignedVolume(Vec3(-a, -b, c), Vec3(a, b, c), Vec3(-a, b, c)) == dims.x * dims.y * dims.z / 6.0;
  }

  /** A face of the cube centred at the origin contributes a sixth of the cube's
      width × height × depth. */
  lemma FaceVolume(dims: Vec3, f: nat, vs: seq<Vec3>)
    requires f < 6 && |vs| == 4
    requires forall k :: 0 <= k < 4 ==> vs[k] == Cubes.Corner(Zero, dims, Cubes.Faces[f][k])
    ensures FanVolume(vs) == dims.x * dims.y * dims.z / 6.0
  {
    var cs := Cubes.Faces[f];
    OriginCorners(dims, cs[0]);
    OriginCorners(dims, cs[1]);
    OriginCorners(dims, cs[2]);
    OriginCorners(dims, cs[3]);
    QuadFanVolume(vs);
    FaceFansSixth(dims, f);
  }

  /** Polygons that each contribute v contribute v times their number. */
  lemma {:induction false} EqualShares(ps: seq<Polygon>, v: real)
    requires forall f :: 0 <= f < |ps| ==> FanVolume(Positions(ps[f].vertices)) == v
    ensures SignedSum(ps) == (|ps| as real) * v
  {
    if ps != [] {
      var init := ps[..|ps| - 1];
      EqualShares(init, v);
      assert SignedSum(ps) == SignedSum(init) + v;
      assert (|init| as real) * v + v == (|ps| as real) * v;
    }
  }

  /** computeVolume of a cube centred at the origin is the product of its dimensions
      (up to sign, which only the dimensions' signs decide). */
  lemma CubeVolume(dims: Vec3, storage: PropertyStorage, next: nat, recip: Recip)
    ensures ComputeVolume(CSG(Cubes.CubePolygons(Zero, dims, true, storage, next, recip), None)) == Abs(dims.x * dims.y * dims.z)
  {
    var ps := Cubes.CubePolygons(Zero, dims, true, storage, next, recip);
    Cubes.CubePolygonsShape(Zero, dims, true, storage, next, recip);
    forall f | 0 <= f < 6 ensures FanVolume(Positions(ps[f].vertices)) == dims.x * dims.y * dims.z / 6.0 {
      FaceVolume(dims, f, Positions(ps[f].vertices));
    }
    EqualShares(ps, dims.x * dims.y * dims.z / 6.0);
  }
}
