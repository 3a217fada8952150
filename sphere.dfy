/**
 * The sphere primitive (CSharpCSG/Sphere.cs): a center, a radius, a number of
 * slices (around the y axis) and stacks (from pole to pole), and one property
 * storage all its polygons share. toPolygons makes one polygon per grid cell
 * (slice i, stack j), slice by slice; the cells at the two poles are triangles.
 */
module Spheres {
  import opened Vectors
  import opened Wrappers
  import Vertices
  import opened Polygons
  import opened Storage
  import opened Trigonometry

  /** The direction of sphereVertex for theta, a fraction of a full turn round the y
      axis, and phi, a fraction of the half turn from the top pole. */
  function Direction(theta: real, phi: real, t: Trig): Vec3
  {
    var a, b := theta * (t.pi * 2.0), phi * t.pi;
    Vec3(t.cos(a) * t.sin(b), t.cos(b), t.sin(a) * t.sin(b))
  }

  /** sphereVertex(c, r, theta, phi): the vertex at c + dir·r with normal dir. */
  function SphereVertex(c: Vec3, r: real, theta: real, phi: real, t: Trig): Vertices.Vertex
  {
    var dir := Direction(theta, phi, t);
    Vertices.New(Plus(c, Times(dir, r)), dir)
  }

  /** The direction has length one. */
  lemma DirectionIsUnit(theta: real, phi: real, t: Trig)
    requires Pythagorean(t)
    ensures Dot(Direction(theta, phi, t), Direction(theta, phi, t)) == 1.0
  {
    var a, b := theta * (t.pi * 2.0), phi * t.pi;
    var ca, sa, cb, sb := t.cos(a), t.sin(a), t.cos(b), t.sin(b);
    assert ca * ca + sa * sa == 1.0;
    assert cb * cb + sb * sb == 1.0;
    calc {
      (ca * sb) * (ca * sb) + cb * cb + (sa * sb) * (sa * sb);
      (ca * ca + sa * sa) * (sb * sb) + cb * cb;
    }
  }

  /** Every sphere vertex lies at distance |r| from the center. */
  lemma OnSphere(c: Vec3, r: real, theta: real, phi: real, t: Trig)
    requires Pythagorean(t)
    ensures var d := Minus(SphereVertex(c, r, theta, phi, t).pos, c); Dot(d, d) == r * r
  {
    var dir := Direction(theta, phi, t);
    DirectionIsUnit(theta, phi, t);
    var d := Minus(SphereVertex(c, r, theta, phi, t).pos, c);
    assert d == Times(dir, r);
    DotTimes(dir, r, d);
    DotTimes(dir, r, dir);
    assert Dot(dir, d) == Dot(d, dir);
  }

  /** index / (double)count, the fraction toPolygons hands to sphereVertex. */
  function Fraction(index: int, count: int): real
    requires count != 0
  {
    index as real / count as real
  }

  /** The grid corners of cell (i, j), as (slice, stack) pairs in the order toPolygons
      adds them: (i, j); (i + 1, j) unless j is the first stack; (i + 1, j + 1) unless
      j is the last stack; (i, j + 1). */
  function CellCorners(i: int, j: int, stacks: int): (cs: seq<(int, int)>)
    ensures 2 <= |cs| <= 4 && cs[0] == (i, j) && cs[|cs| - 1] == (i, j + 1)
  {
    [(i, j)] + (if j > 0 then [(i + 1, j)] else []) + (if j < stacks - 1 then [(i + 1, j + 1)] else []) + [(i, j + 1)]
  }

  /** The cells at the two poles are triangles and all others quads; with a single
      stack every cell has two corners only. */
  lemma CellArity(i: int, j: int, stacks: int)
    requires 0 <= j < stacks
    ensures |CellCorners(i, j, stacks)| == if stacks == 1 then 2 else if j == 0 || j == stacks - 1 then 3 else 4
  {
  }

  /** The sphere vertex at grid corner ij. */
  function GridVertex(c: Vec3, r: real, slices: int, stacks: int, ij: (int, int), t: Trig): Vertices.Vertex
    requires slices != 0 && stacks != 0
  {
    SphereVertex(c, r, Fraction(ij.0, slices), Fraction(ij.1, stacks), t)
  }

  /** The vertex list of cell (i, j): a sphere vertex per corner. */
  function CellVertices(c: Vec3, r: real, slices: int, stacks: int, i: int, j: int, t: Trig): (vs: seq<Vertices.Vertex>)
    requires slices != 0 && stacks != 0
    ensures |vs| == |CellCorners(i, j, stacks)|
  {
    CornerVertices(c, r, slices, stacks, CellCorners(i, j, stacks), t)
  }

  /** A sphere vertex per grid corner of cs, in order. */
  function CornerVertices(c: Vec3, r: real, slices: int, stacks: int, cs: seq<(int, int)>, t: Trig): (vs: seq<Vertices.Vertex>)
    requires slices != 0 && stacks != 0
    ensures |vs| == |cs|
  {
    if cs == [] then [] else [GridVertex(c, r, slices, stacks, cs[0], t)] + CornerVertices(c, r, slices, stacks, cs[1..], t)
  }

  /** Vertex k of CornerVertices is the sphere vertex of corner k. */
  lemma {:induction false} CornerVerticesAt(c: Vec3, r: real, slices: int, stacks: int, cs: seq<(int, int)>, k: nat, t: Trig)
    requires slices != 0 && stacks != 0 && k < |cs|
    ensures CornerVertices(c, r, slices, stacks, cs, t)[k] == GridVertex(c, r, slices, stacks, cs[k], t)
  {
    if k > 0 {
      CornerVerticesAt(c, r, slices, stacks, cs[1..], k - 1, t);
    }
  }

  /** toPolygons: nothing for no slices or no stacks; otherwise the constructor on
      every cell, slice by slice and stack by stack, with consecutive references. The
      cells differ in their number of corners only by stack: the constructor throws on
      the first cell exactly when every cell is too short. */
  function SpherePolygons(c: Vec3, r: real, slices: int, stacks: int, storage: PropertyStorage, next: nat,
                          recip: Recip, t: Trig): Result<seq<Polygon>>
  {
    if slices <= 0 || stacks <= 0 then Success([])
    else if |CellVertices(c, r, slices, stacks, 0, 0, t)| < 3 then Failure(IndexOutOfRange)
    else
      CellArity(0, 0, stacks);
      RowsConstructible(c, r, slices, stacks, slices, t);
      Success(MakeAll(Rows(c, r, slices, stacks, slices, t), storage, next, recip))
  }

  /** The vertex lists of the first n slices' cells. */
  function Rows(c: Vec3, r: real, slices: int, stacks: int, n: nat, t: Trig): (vss: seq<seq<Vertices.Vertex>>)
    requires slices != 0 && 0 < stacks
    ensures |vss| == n * stacks
  {
    if n == 0 then []
    else
      assert (n - 1) * stacks + stacks == n * stacks;
      Rows(c, r, slices, stacks, n - 1, t) + Row(c, r, slices, stacks, n - 1, t)
  }

  /** The vertex lists of slice i's cells, one per stack. */
  function Row(c: Vec3, r: real, slices: int, stacks: int, i: int, t: Trig): (vss: seq<seq<Vertices.Vertex>>)
    requires slices != 0 && 0 < stacks
    ensures |vss| == stacks
  {
    seq(stacks, j requires 0 <= j < stacks => CellVertices(c, r, slices, stacks, i, j, t))
  }

  /** With two stacks or more every cell can be constructed. */
  lemma RowConstructible(c: Vec3, r: real, slices: int, stacks: int, i: int, t: Trig)
    requires slices != 0 && 2 <= stacks
    ensures Constructible(Row(c, r, slices, stacks, i, t))
  {
    var row := Row(c, r, slices, stacks, i, t);
    forall j | 0 <= j < |row| ensures |row[j]| >= 3 {
      CellArity(i, j, stacks);
    }
  }

  lemma {:induction false} RowsConstructible(c: Vec3, r: real, slices: int, stacks: int, n: nat, t: Trig)
    requires slices != 0 && 2 <= stacks
    ensures Constructible(Rows(c, r, slices, stacks, n, t))
  {
    if n > 0 {
      RowsConstructible(c, r, slices, stacks, n - 1, t);
      RowConstructible(c, r, slices, stacks, n - 1, t);
      var a, b := Rows(c, r, slices, stacks, n - 1, t), Row(c, r, slices, stacks, n - 1, t);
      forall k | 0 <= k < |a + b| ensures |(a + b)[k]| >= 3 {
        if k >= |a| {
          assert (a + b)[k] == b[k - |a|];
        }
      }
    }
  }

  /** Cell (i, j) sits at index i·stacks + j of the first n slices, for i < n. */
  lemma {:induction false} RowsAt(c: Vec3, r: real, slices: int, stacks: int, n: nat, i: nat, j: nat, t: Trig)
    requires slices != 0 && 0 < stacks && i < n && j < stacks
    ensures i * stacks + j < n * stacks
    ensures Rows(c, r, slices, stacks, n, t)[i * stacks + j] == CellVertices(c, r, slices, stacks, i, j, t)
  {
    var a, b := Rows(c, r, slices, stacks, n - 1, t), Row(c, r, slices, stacks, n - 1, t);
    MoreRows(n, i + 1, stacks);
    if i < n - 1 {
      RowsAt(c, r, slices, stacks, n - 1, i, j, t);
      assert (a + b)[i * stacks + j] == a[i * stacks + j];
    } else {
      assert (a + b)[i * stacks + j] == b[j];
    }
  }

  /** i·stacks grows with i. */
  lemma MoreRows(i: nat, n: nat, stacks: nat)
    requires n <= i
    ensures n * stacks <= i * stacks
  {
    assert i * stacks - n * stacks == (i - n) * stacks;
  }

  /** toPolygons throws exactly for a sphere of one stack and at least one slice. */
  lemma SphereFailsIff(c: Vec3, r: real, slices: int, stacks: int, storage: PropertyStorage, next: nat, recip: Recip, t: Trig)
    ensures var res := SpherePolygons(c, r, slices, stacks, storage, next, recip, t);
      && (res.Failure? <==> slices >= 1 && stacks == 1)
      && (res.Failure? ==> res.error == IndexOutOfRange)
  {
    if slices > 0 && stacks > 0 {
      CellArity(0, 0, stacks);
    }
  }

  /** p is the polygon of cell (i, j): it has the storage and the reference, three
      vertices at the poles and four elsewhere, and its vertices sit at the cell's
      corners in CellCorners order. */
  predicate IsCell(p: Polygon, c: Vec3, r: real, slices: int, stacks: int, storage: PropertyStorage, ref: nat,
                   i: int, j: int, t: Trig)
    requires slices != 0 && 2 <= stacks && 0 <= j < stacks
  {
    && p.storage == storage && p.ref == ref
    && |p.vertices| == (if j == 0 || j == stacks - 1 then 3 else 4)
    && |p.vertices| == |CellCorners(i, j, stacks)|
    && forall m :: 0 <= m < |p.vertices| ==>
         p.vertices[m].pos == GridVertex(c, r, slices, stacks, CellCorners(i, j, stacks)[m], t).pos
  }

  /** toPolygons makes slices·stacks polygons, slice-major: polygon k is the cell
      (k / stacks, k % stacks) with reference next + k. */
  lemma SphereShape(c: Vec3, r: real, slices: int, stacks: int, storage: PropertyStorage, next: nat, recip: Recip, t: Trig)
    requires SpherePolygons(c, r, slices, stacks, storage, next, recip, t).Success?
    ensures var ps := SpherePolygons(c, r, slices, stacks, storage, next, recip, t).value;
      && |ps| == (if slices > 0 && stacks > 0 then slices * stacks else 0)
      && forall k :: 0 <= k < |ps| ==>
           stacks >= 2 && IsCell(ps[k], c, r, slices, stacks, storage, next + k, k / stacks, k % stacks, t)
  {
    var ps := SpherePolygons(c, r, slices, stacks, storage, next, recip, t).value;
    if slices > 0 && stacks > 0 {
      CellArity(0, 0, stacks);
      forall k | 0 <= k < |ps|
        ensures IsCell(ps[k], c, r, slices, stacks, storage, next + k, k / stacks, k % stacks, t)
      {
        CellOfIndex(k, slices, stacks);
        SphereCell(c, r, slices, stacks, storage, next, k / stacks, k % stacks, recip, t);
      }
    }
  }

  /** The polygon at index i·stacks + j is the cell (i, j). */
  lemma SphereCell(c: Vec3, r: real, slices: int, stacks: int, storage: PropertyStorage, next: nat,
                   i: nat, j: nat, recip: Recip, t: Trig)
    requires 2 <= stacks && i < slices && j < stacks
    ensures SpherePolygons(c, r, slices, stacks, storage, next, recip, t).Success?
    ensures var ps := SpherePolygons(c, r, slices, stacks, storage, next, recip, t).value;
      && i * stacks + j < |ps|
      && IsCell(ps[i * stacks + j], c, r, slices, stacks, storage, next + i * stacks + j, i, j, t)
  {
    CellArity(0, 0, stacks);
    CellArity(i, j, stacks);
    RowsConstructible(c, r, slices, stacks, slices, t);
    var vss := Rows(c, r, slices, stacks, slices, t);
    RowsAt(c, r, slices, stacks, slices, i, j, t);
    var k := i * stacks + j;
    MakeAllShape(vss, storage, next, recip, k);
    var p := MakeAll(vss, storage, next, recip)[k];
    var cs := CellCorners(i, j, stacks);
    forall m | 0 <= m < |p.vertices|
      ensures p.vertices[m].pos == GridVertex(c, r, slices, stacks, cs[m], t).pos
    {
      assert Positions(p.vertices)[m] == Positions(vss[k])[m];
      CornerVerticesAt(c, r, slices, stacks, cs, m, t);
    }
  }

  /** Index k of slices·stacks cells is cell (k / stacks, k % stacks), with k / stacks
      a slice. */
  lemma CellOfIndex(k: nat, slices: nat, stacks: nat)
    requires 0 < stacks && k < slices * stacks
    ensures (k / stacks) * stacks + k % stacks == k && k / stacks < slices
  {
    var i := k / stacks;
    if i >= slices {
      MoreRows(i, slices, stacks);
      assert false;
    }
  }

  /** With a trigonometry satisfying cos² + sin² = 1, every vertex of every polygon
      lies on the sphere: at distance |radius| from the center. */
  lemma SphereOnSurface(c: Vec3, r: real, slices: int, stacks: int, storage: PropertyStorage, next: nat, recip: Recip, t: Trig)
    requires Pythagorean(t)
    requires SpherePolygons(c, r, slices, stacks, storage, next, recip, t).Success?
    ensures var ps := SpherePolygons(c, r, slices, stacks, storage, next, recip, t).value;
      forall k, m :: 0 <= k < |ps| && 0 <= m < |ps[k].vertices| ==>
        Dot(Minus(ps[k].vertices[m].pos, c), Minus(ps[k].vertices[m].pos, c)) == r * r
  {
    var ps := SpherePolygons(c, r, slices, stacks, storage, next, recip, t).value;
    SphereShape(c, r, slices, stacks, storage, next, recip, t);
    forall k, m | 0 <= k < |ps| && 0 <= m < |ps[k].vertices|
      ensures Dot(Minus(ps[k].vertices[m].pos, c), Minus(ps[k].vertices[m].pos, c)) == r * r
    {
      assert IsCell(ps[k], c, r, slices, stacks, storage, next + k, k / stacks, k % stacks, t);
      var ij := CellCorners(k / stacks, k % stacks, stacks)[m];
      OnSphere(c, r, Fraction(ij.0, slices), Fraction(ij.1, stacks), t);
    }
  }

  /** One more step of a generator's loop: the polygons of the first j lists, and
      the polygon of list j, are the polygons of the first j + 1 lists. */
  lemma Grown(vss: seq<seq<Vertices.Vertex>>, ps: seq<Polygon>, j: nat, p: Polygon, storage: PropertyStorage, ref: nat, recip: Recip)
    requires Constructible(vss) && j < |vss|
    requires ps == MakeAll(vss[..j], storage, ref, recip)
    requires New(ref + j, vss[j], storage, recip) == Success(p)
    ensures ps + [p] == MakeAll(vss[..j + 1], storage, ref, recip)
  {
    assert vss[..j + 1] == vss[..j] + [vss[j]];
    MakeAllSnoc(vss[..j], vss[j], storage, ref, recip);
  }

  /** One more step of the slice loop: the polygons of the first i slices, then those
      of slice i, are the polygons of the first i + 1 slices. */
  lemma RowsGrown(c: Vec3, r: real, slices: int, stacks: int, i: nat, ps: seq<Polygon>, row: seq<Polygon>,
                  storage: PropertyStorage, next: nat, recip: Recip, t: Trig)
    requires slices != 0 && 2 <= stacks
    requires Constructible(Rows(c, r, slices, stacks, i, t)) && Constructible(Row(c, r, slices, stacks, i, t))
    requires ps == MakeAll(Rows(c, r, slices, stacks, i, t), storage, next, recip)
    requires row == MakeAll(Row(c, r, slices, stacks, i, t), storage, next + |ps|, recip)
    ensures Constructible(Rows(c, r, slices, stacks, i + 1, t))
    ensures ps + row == MakeAll(Rows(c, r, slices, stacks, i + 1, t), storage, next, recip)
  {
    MakeAllAppend(Rows(c, r, slices, stacks, i, t), Row(c, r, slices, stacks, i, t), storage, next, recip);
  }

  class Sphere {
    var center: Vec3
    var radius: real
    var numSlices: int
    var numStacks: int
    const properties: PropertyStorage

    /** Sphere(): init's defaults. The storage is made with the random colour draw
        `draw`. */
    constructor (draw: real)
      requires 0.0 <= draw < 1.0
      ensures center == Zero && radius == 1.0 && numSlices == 16 && numStacks == 8
      ensures fresh(properties)
    {
      properties := new PropertyStorage(draw);
      new;
      Init();
    }

    /** Sphere(radius): init's defaults, then the radius. */
    constructor OfRadius(radius: real, draw: real)
      requires 0.0 <= draw < 1.0
      ensures center == Zero && this.radius == radius && numSlices == 16 && numStacks == 8
      ensures fresh(properties)
    {
      properties := new PropertyStorage(draw);
      new;
      Init();
      this.radius := radius;
    }

    /** Sphere(radius, numSlices, numStacks): init's center, then the rest. */
    constructor OfResolution(radius: real, numSlices: int, numStacks: int, draw: real)
      requires 0.0 <= draw < 1.0
      ensures center == Zero && this.radius == radius && this.numSlices == numSlices && this.numStacks == numStacks
      ensures fresh(properties)
    {
      properties := new PropertyStorage(draw);
      new;
      Init();
      this.radius := radius;
      this.numSlices := numSlices;
      this.numStacks := numStacks;
    }

    /** Sphere(center, radius, numSlices, numStacks): every field given, no init. */
    constructor At(center: Vec3, radius: real, numSlices: int, numStacks: int, draw: real)
      requires 0.0 <= draw < 1.0
      ensures this.center == center && this.radius == radius && this.numSlices == numSlices && this.numStacks == numStacks
      ensures fresh(properties)
    {
      this.center := center;
      this.radius := radius;
      this.numSlices := numSlices;
      this.numStacks := numStacks;
      properties := new PropertyStorage(draw);
    }

    /** init: center at the origin, radius 1, 16 slices, 8 stacks. */
    method Init()
      modifies this
      ensures center == Zero && radius == 1.0 && numSlices == 16 && numStacks == 8
    {
      center := Zero;
      radius := 1.0;
      numSlices := 16;
      numStacks := 8;
    }

    /** toPolygons: the slice loop; a cell the constructor rejects ends it with the
        constructor's exception. References start at next. */
    method ToPolygons(next: nat, recip: Recip, t: Trig) returns (r: Result<seq<Polygon>>, next': nat)
      ensures r == SpherePolygons(center, radius, numSlices, numStacks, properties, next, recip, t)
      ensures next' == next + (if r.Success? then |r.value| else 0)
    {
      var polygons: seq<Polygon> := [];
      var i := 0;
      while i < numSlices
        invariant i == 0 || 0 < i <= numSlices
        invariant i == 0 || numStacks <= 0 ==> polygons == []
        invariant numStacks == 1 ==> i == 0
        invariant numSlices > 0 && numStacks >= 2 ==> Constructible(Rows(center, radius, numSlices, numStacks, i, t))
        invariant numSlices > 0 && numStacks >= 2 ==>
          polygons == MakeAll(Rows(center, radius, numSlices, numStacks, i, t), properties, next, recip)
      {
        var row := SliceCells(i, next + |polygons|, recip, t);
        if row.Failure? {
          SphereFailsIff(center, radius, numSlices, numStacks, properties, next, recip, t);
          return Failure(row.error), next;
        }
        if numStacks >= 2 {
          RowsGrown(center, radius, numSlices, numStacks, i, polygons, row.value, properties, next, recip, t);
        }
        polygons := polygons + row.value;
        i := i + 1;
      }
      r := Success(polygons);
      next' := next + |polygons|;
      SphereFailsIff(center, radius, numSlices, numStacks, properties, next, recip, t);
      if numSlices > 0 && numStacks >= 2 {
        CellArity(0, 0, numStacks);
      }
    }

    /** The stack loop of slice i: a polygon per cell, references from ref. */
    method SliceCells(i: int, ref: nat, recip: Recip, t: Trig) returns (r: Result<seq<Polygon>>)
      requires 0 <= i < numSlices
      ensures numStacks <= 0 ==> r == Success([])
      ensures numStacks == 1 ==> r == Failure(IndexOutOfRange)
      ensures numStacks >= 2 ==> Constructible(Row(center, radius, numSlices, numStacks, i, t))
      ensures numStacks >= 2 ==> r == Success(MakeAll(Row(center, radius, numSlices, numStacks, i, t), properties, ref, recip))
    {
      var row: seq<Polygon> := [];
      var j := 0;
      ghost var cells: seq<seq<Vertices.Vertex>> := [];
      if numStacks >= 2 {
        RowConstructible(center, radius, numSlices, numStacks, i, t);
        cells := Row(center, radius, numSlices, numStacks, i, t);
      }
      while j < numStacks
        invariant (j == 0 || 0 < j <= numStacks) && |row| == j
        invariant numStacks == 1 ==> j == 0
        invariant numStacks >= 2 ==> row == MakeAll(cells[..j], properties, ref, recip)
      {
        var vertices := CellVerticesOf(i, j, t);
        CellArity(i, j, numStacks);
        var p := New(ref + j, vertices, properties, recip);
        if p.Failure? {
          return Failure(p.error);
        }
        if numStacks >= 2 {
          assert vertices == cells[j];
          Grown(cells, row, j, p.value, properties, ref, recip);
        }
        row := row + [p.value];
        j := j + 1;
      }
      if numStacks >= 2 {
        assert cells[..j] == cells;
      }
      r := Success(row);
    }

    /** The vertex list of cell (i, j), built as toPolygons builds it. */
    method CellVerticesOf(i: int, j: int, t: Trig) returns (vertices: seq<Vertices.Vertex>)
      requires numSlices != 0 && 0 <= j < numStacks
      ensures vertices == CellVertices(center, radius, numSlices, numStacks, i, j, t)
    {
      vertices := [SphereVertex(center, radius, Fraction(i, numSlices), Fraction(j, numStacks), t)];
      if j > 0 {
        vertices := vertices + [SphereVertex(center, radius, Fraction(i + 1, numSlices), Fraction(j, numStacks), t)];
      }
      if j < numStacks - 1 {
        vertices := vertices + [SphereVertex(center, radius, Fraction(i + 1, numSlices), Fraction(j + 1, numStacks), t)];
      }
      vertices := vertices + [SphereVertex(center, radius, Fraction(i, numSlices), Fraction(j + 1, numStacks), t)];
      var cs := CellCorners(i, j, numStacks);
      assert |vertices| == |cs|;
      forall k | 0 <= k < |cs|
        ensures vertices[k] == CellVertices(center, radius, numSlices, numStacks, i, j, t)[k]
      {
        CornerVerticesAt(center, radius, numSlices, numStacks, cs, k, t);
      }
    }

    function GetCenter(): Vec3
      reads this
    {
      center
    }

    method SetCenter(c: Vec3)
      modifies this
      ensures GetCenter() == c && radius == old(radius) && numSlices == old(numSlices) && numStacks == old(numStacks)
    {
      center := c;
    }

    function GetRadius(): real
      reads this
    {
      radius
    }

    method SetRadius(r: real)
      modifies this
      ensures GetRadius() == r && center == old(center) && numSlices == old(numSlices) && numStacks == old(numStacks)
    {
      radius := r;
    }

    function GetNumSlices(): int
      reads this
    {
      numSlices
    }

    method SetNumSlices(n: int)
      modifies this
      ensures GetNumSlices() == n && center == old(center) && radius == old(radius) && numStacks == old(numStacks)
    {
      numSlices := n;
    }

    function GetNumStacks(): int
      reads this
    {
      numStacks
    }

    method SetNumStacks(n: int)
      modifies this
      ensures GetNumStacks() == n && center == old(center) && radius == old(radius) && numSlices == old(numSlices)
    {
      numStacks := n;
    }

    function GetProperties(): PropertyStorage
    {
      properties
    }
  }
}
