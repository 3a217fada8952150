/**
 * The cuboid primitive (CSharpCSG/Cube.cs): a center, dimensions, a flag saying
 * whether the cuboid is centred on its center, and one property storage that all
 * its faces share. The eight corners are numbered 0..7; bit 0, 1 and 2 of a corner's
 * number say whether it sits on the upper side in x, y and z.
 */
module Cubes {
  import opened Vectors
  import opened Wrappers
  import Vertices
  import opened Polygons
  import opened Storage
  import BspTrees

  /** The six faces as corner numbers, in the order toPolygons emits them. */
  const Faces: seq<seq<nat>> := [[0, 4, 6, 2], [1, 3, 7, 5], [0, 1, 5, 4], [2, 6, 7, 3], [0, 2, 3, 1], [4, 5, 7, 6]]

  /** The normal written next to each face, handed to every vertex of it. */
  const FaceNormals: seq<Vec3> := [Vec3(-1.0, 0.0, 0.0), Vec3(1.0, 0.0, 0.0), Vec3(0.0, -1.0, 0.0),
                                   Vec3(0.0, 1.0, 0.0), Vec3(0.0, 0.0, -1.0), Vec3(0.0, 0.0, 1.0)]

  /** min(1, i & b) for a bit b of 1, 2 or 4: 1 when that bit of i is set, else 0. */
  function Bit(i: nat, b: nat): (r: real)
    requires b == 1 || b == 2 || b == 4
    ensures r == 0.0 || r == 1.0
  {
    if (i / b) % 2 == 1 then 1.0 else 0.0
  }

  /** The position of corner i: center + dimensions * (bit - 0.5) on each axis. */
  function Corner(center: Vec3, dims: Vec3, i: nat): Vec3
  {
    Vec3(center.x + dims.x * (Bit(i, 1) - 0.5),
         center.y + dims.y * (Bit(i, 2) - 0.5),
         center.z + dims.z * (Bit(i, 4) - 0.5))
  }

  /** The vertices of face f: its corners, each with the face's normal. */
  function FaceVertices(center: Vec3, dims: Vec3, f: nat): (vs: seq<Vertices.Vertex>)
    requires f < 6
    ensures |vs| == 4
  {
    seq(4, k requires 0 <= k < 4 => Vertices.New(Corner(center, dims, Faces[f][k]), FaceNormals[f]))
  }

  /** Half the dimensions: the shift noCenter applies. */
  function HalfDims(dims: Vec3): Vec3
  {
    Vec3(dims.x / 2.0, dims.y / 2.0, dims.z / 2.0)
  }

  /** Face f as toPolygons makes it: the polygon constructor on the face's vertices with
      the shared storage, then, for a cube that is not centred, moved by half the
      dimensions. */
  function Face(center: Vec3, dims: Vec3, centered: bool, storage: PropertyStorage, ref: nat, f: nat, recip: Recip): Polygon
    requires f < 6
  {
    var p := Make(ref, FaceVertices(center, dims, f), storage, recip);
    if centered then p else Translate(p, HalfDims(dims), recip)
  }

  /** toPolygons: the six faces in table order, with consecutive references. */
  function CubePolygons(center: Vec3, dims: Vec3, centered: bool, storage: PropertyStorage, next: nat, recip: Recip)
    : seq<Polygon>
  {
    seq(6, f requires 0 <= f < 6 => Face(center, dims, centered, storage, next + f, f, recip))
  }

  /** Six faces of four vertices, all sharing the storage, with references next..next+5;
      for a centred cube the vertices of face f are, in order, its table corners. */
  lemma CubePolygonsShape(center: Vec3, dims: Vec3, centered: bool, storage: PropertyStorage, next: nat, recip: Recip)
    ensures var ps := CubePolygons(center, dims, centered, storage, next, recip);
      && |ps| == 6
      && (forall f :: 0 <= f < 6 ==> |ps[f].vertices| == 4 && ps[f].storage == storage && ps[f].ref == next + f)
      && (centered ==> forall f, k :: 0 <= f < 6 && 0 <= k < 4 ==>
            ps[f].vertices[k].pos == Corner(center, dims, Faces[f][k]))
  {
    var ps := CubePolygons(center, dims, centered, storage, next, recip);
    forall f | 0 <= f < 6
      ensures |ps[f].vertices| == 4 && ps[f].storage == storage && ps[f].ref == next + f
      ensures centered ==> forall k :: 0 <= k < 4 ==> ps[f].vertices[k].pos == Corner(center, dims, Faces[f][k])
    {
      FaceShape(center, dims, centered, storage, next + f, f, recip);
    }
  }

  lemma FaceShape(center: Vec3, dims: Vec3, centered: bool, storage: PropertyStorage, ref: nat, f: nat, recip: Recip)
    requires f < 6
    ensures var p := Face(center, dims, centered, storage, ref, f, recip);
      && |p.vertices| == 4 && p.storage == storage && p.ref == ref
      && (centered ==> forall k :: 0 <= k < 4 ==> p.vertices[k].pos == Corner(center, dims, Faces[f][k]))
  {
    var vs := FaceVertices(center, dims, f);
    var p := Make(ref, vs, storage, recip);
    assert New(ref, vs, storage, recip) == Success(p);
    if !centered {
      var ws := TranslateVertices(p.vertices, HalfDims(dims));
      assert New(ref, ws, storage, recip) == Success(Translate(p, HalfDims(dims), recip));
    }
  }

  /** The faces of a cube that is not centred are those of the centred one, moved by
      half the dimensions. */
  lemma UncentredIsTranslated(center: Vec3, dims: Vec3, storage: PropertyStorage, next: nat, recip: Recip)
    ensures forall g :: 0 <= g < 6 ==>
      && |CubePolygons(center, dims, true, storage, next, recip)[g].vertices| >= 3
      && CubePolygons(center, dims, false, storage, next, recip)[g]
         == Translate(CubePolygons(center, dims, true, storage, next, recip)[g], HalfDims(dims), recip)
  {
    var ps := CubePolygons(center, dims, true, storage, next, recip);
    var qs := CubePolygons(center, dims, false, storage, next, recip);
    forall g | 0 <= g < 6
      ensures |ps[g].vertices| >= 3 && qs[g] == Translate(ps[g], HalfDims(dims), recip)
    {
      FaceUncentred(center, dims, storage, next + g, g, recip);
    }
  }

  lemma FaceUncentred(center: Vec3, dims: Vec3, storage: PropertyStorage, ref: nat, f: nat, recip: Recip)
    requires f < 6
    ensures |Face(center, dims, true, storage, ref, f, recip).vertices| >= 3
    ensures Face(center, dims, false, storage, ref, f, recip) == Translate(Face(center, dims, true, storage, ref, f, recip), HalfDims(dims), recip)
  {
    FaceShape(center, dims, true, storage, ref, f, recip);
  }

  /** Each coordinate of a corner is center ± dims/2, with + exactly when the corner's
      bit for that axis is set. */
  lemma CornerCoordinates(center: Vec3, dims: Vec3, i: nat)
    ensures Corner(center, dims, i).x == if (i / 1) % 2 == 1 then center.x + dims.x / 2.0 else center.x - dims.x / 2.0
    ensures Corner(center, dims, i).y == if (i / 2) % 2 == 1 then center.y + dims.y / 2.0 else center.y - dims.y / 2.0
    ensures Corner(center, dims, i).z == if (i / 4) % 2 == 1 then center.z + dims.z / 2.0 else center.z - dims.z / 2.0
  {
  }

  /** With non-negative dimensions every corner lies in the box center ± dims/2. */
  lemma CornerInBox(center: Vec3, dims: Vec3, i: nat)
    requires dims.x >= 0.0 && dims.y >= 0.0 && dims.z >= 0.0
    ensures center.x - dims.x / 2.0 <= Corner(center, dims, i).x <= center.x + dims.x / 2.0
    ensures center.y - dims.y / 2.0 <= Corner(center, dims, i).y <= center.y + dims.y / 2.0
    ensures center.z - dims.z / 2.0 <= Corner(center, dims, i).z <= center.z + dims.z / 2.0
  {
    CornerCoordinates(center, dims, i);
  }

  /** The side a face lies on: the four corners of face f agree on the bit of the axis
      its normal points along, and that bit is set exactly when the normal points up
      that axis; so the face lies in the plane x, y or z = center ± dims/2. */
  lemma FaceOnItsSide(center: Vec3, dims: Vec3, f: nat, k: nat)
    requires f < 6 && k < 4
    ensures var c := Corner(center, dims, Faces[f][k]);
      var h := HalfDims(dims);
      && (f == 0 ==> c.x == center.x - h.x) && (f == 1 ==> c.x == center.x + h.x)
      && (f == 2 ==> c.y == center.y - h.y) && (f == 3 ==> c.y == center.y + h.y)
      && (f == 4 ==> c.z == center.z - h.z) && (f == 5 ==> c.z == center.z + h.z)
  {
    CornerCoordinates(center, dims, Faces[f][k]);
  }

  /** The edge cross product of each face, (v1 - v0) × (v2 - v0), is its table normal
      times the product of the other two dimensions: for positive dimensions every face
      winds counter-clockwise seen from outside, and the plane its polygon gets faces
      outwards. */
  lemma FaceWindsOutward(center: Vec3, dims: Vec3, f: nat)
    requires f < 6
    ensures var v0, v1, v2 := Corner(center, dims, Faces[f][0]), Corner(center, dims, Faces[f][1]), Corner(center, dims, Faces[f][2]);
      Cross(Minus(v1, v0), Minus(v2, v0))
        == Times(FaceNormals[f], if f < 2 then dims.y * dims.z else if f < 4 then dims.x * dims.z else dims.x * dims.y)
  {
    var v0, v1, v2 := Corner(center, dims, Faces[f][0]), Corner(center, dims, Faces[f][1]), Corner(center, dims, Faces[f][2]);
    CornerCoordinates(center, dims, Faces[f][0]);
    CornerCoordinates(center, dims, Faces[f][1]);
    CornerCoordinates(center, dims, Faces[f][2]);
  }

  class Cube {
    var center: Vec3
    var dimensions: Vec3
    var centered: bool
    const properties: PropertyStorage

    /** Cube(): center (0,0,0), dimensions (1,1,1). The storage is made with the
        random colour draw `draw`. */
    constructor (draw: real)
      requires 0.0 <= draw < 1.0
      ensures center == Zero && dimensions == Vec3(1.0, 1.0, 1.0) && centered
      ensures fresh(properties)
    {
      center := Zero;
      dimensions := Vec3(1.0, 1.0, 1.0);
      centered := true;
      properties := new PropertyStorage(draw);
    }

    /** Cube(size): centred at the origin, size on every axis. */
    constructor OfSize(size: real, draw: real)
      requires 0.0 <= draw < 1.0
      ensures center == Zero && dimensions == Vec3(size, size, size) && centered
      ensures fresh(properties)
    {
      center := Zero;
      dimensions := Vec3(size, size, size);
      centered := true;
      properties := new PropertyStorage(draw);
    }

    /** Cube(center, dimensions). */
    constructor At(c: Vec3, dims: Vec3, draw: real)
      requires 0.0 <= draw < 1.0
      ensures center == c && dimensions == dims && centered
      ensures fresh(properties)
    {
      center := c;
      dimensions := dims;
      centered := true;
      properties := new PropertyStorage(draw);
    }

    /** Cube(w, h, d): centred at the origin. */
    constructor OfDimensions(w: real, h: real, d: real, draw: real)
      requires 0.0 <= draw < 1.0
      ensures center == Zero && dimensions == Vec3(w, h, d) && centered
      ensures fresh(properties)
    {
      center := Zero;
      dimensions := Vec3(w, h, d);
      centered := true;
      properties := new PropertyStorage(draw);
    }

    /** toPolygons: for each face of the table a vertex list over its corners, the
        polygon constructor on it with the cube's storage, and, when the cube is not
        centred, every polygon moved by half the dimensions afterwards. */
    method ToPolygons(next: nat, recip: Recip) returns (ps: seq<Polygon>, next': nat)
      ensures ps == CubePolygons(center, dimensions, centered, properties, next, recip)
      ensures next' == next + 6
    {
      ps := CentredFaces(next, recip);
      if !centered {
        CubePolygonsShape(center, dimensions, true, properties, next, recip);
        ps := Uncentre(ps, recip);
        UncentredIsTranslated(center, dimensions, properties, next, recip);
      }
      next' := next + 6;
    }

    /** The faces before any shift: the constructor on each face's vertex list. */
    method CentredFaces(next: nat, recip: Recip) returns (ps: seq<Polygon>)
      ensures ps == CubePolygons(center, dimensions, true, properties, next, recip)
    {
      ps := [];
      var f := 0;
      while f < 6
        invariant 0 <= f <= 6 && |ps| == f
        invariant forall g :: 0 <= g < f ==> ps[g] == CubePolygons(center, dimensions, true, properties, next, recip)[g]
      {
        var p := NewFace(f, next + f, recip);
        ps := ps + [p];
        f := f + 1;
      }
    }

    /** new Polygon(vertices, properties) on face f's vertex list. */
    method NewFace(f: nat, ref: nat, recip: Recip) returns (p: Polygon)
      requires f < 6
      ensures p == Face(center, dimensions, true, properties, ref, f, recip)
    {
      var vertices := FaceCorners(f);
      var r := New(ref, vertices, properties, recip);
      p := r.value;
    }

    /** The noCenter shift: every face moved by half the dimensions, in place. */
    method Uncentre(qs: seq<Polygon>, recip: Recip) returns (ps: seq<Polygon>)
      requires BspTrees.Proper(qs)
      ensures |ps| == |qs|
      ensures forall g :: 0 <= g < |qs| ==> ps[g] == Translate(qs[g], HalfDims(dimensions), recip)
    {
      ps := qs;
      var i := 0;
      while i < |qs|
        invariant 0 <= i <= |qs| && |ps| == |qs|
        invariant forall g :: 0 <= g < i ==> ps[g] == Translate(qs[g], HalfDims(dimensions), recip)
        invariant forall g :: i <= g < |qs| ==> ps[g] == qs[g]
      {
        ps := ps[i := Translate(ps[i], HalfDims(dimensions), recip)];
        i := i + 1;
      }
    }

    /** The vertex list of face f, one corner at a time. */
    method FaceCorners(f: nat) returns (vertices: seq<Vertices.Vertex>)
      requires f < 6
      ensures vertices == FaceVertices(center, dimensions, f)
    {
      vertices := [];
      var k := 0;
      while k < 4
        invariant 0 <= k <= 4 && |vertices| == k
        invariant forall j :: 0 <= j < k ==> vertices[j] == FaceVertices(center, dimensions, f)[j]
      {
        var i := Faces[f][k];
        var pos := Vec3(center.x + dimensions.x * (Bit(i, 1) - 0.5),
                        center.y + dimensions.y * (Bit(i, 2) - 0.5),
                        center.z + dimensions.z * (Bit(i, 4) - 0.5));
        vertices := vertices + [Vertices.New(pos, FaceNormals[f])];
        k := k + 1;
      }
    }

    function GetCenter(): Vec3
      reads this
    {
      center
    }

    method SetCenter(c: Vec3)
      modifies this
      ensures center == c && dimensions == old(dimensions) && centered == old(centered)
    {
      center := c;
    }

    function GetDimensions(): Vec3
      reads this
    {
      dimensions
    }

    method SetDimensions(dims: Vec3)
      modifies this
      ensures dimensions == dims && center == old(center) && centered == old(centered)
    {
      dimensions := dims;
    }

    function GetProperties(): PropertyStorage
    {
      properties
    }

    /** noCenter: the cube is no longer centred, and the same cube is returned. */
    method NoCenter() returns (c: Cube)
      modifies this
      ensures c == this && !centered
      ensures center == old(center) && dimensions == old(dimensions)
    {
      centered := false;
      c := this;
    }
  }
}
