/**
 * The polyhedron primitive (CSharpCSG/Polyhedron.cs): a list of points and a list of
 * faces, each face a list of indexes into the points. toPolygons makes one polygon
 * per face, through fromPoints on the indexed points, all sharing one property
 * storage.
 */
module Polyhedra {
  import opened Vectors
  import opened Wrappers
  import opened Polygons
  import opened Storage

  /** Every index of the face names a point. */
  predicate InRange(points: seq<Vec3>, face: seq<int>)
  {
    forall k :: 0 <= k < |face| ==> 0 <= face[k] < |points|
  }

  /** A face toPolygons can turn into a polygon: its indexes name points, and it
      has the three points fromPoints reads. */
  predicate WellFormed(points: seq<Vec3>, face: seq<int>)
  {
    InRange(points, face) && |face| >= 3
  }

  /** faceList.Select(indexToPoint): the point of each index in order (a clone, which
      is the same value); the first index outside the list throws. */
  function FacePoints(points: seq<Vec3>, face: seq<int>): (r: Result<seq<Vec3>>)
    ensures r.Success? <==> InRange(points, face)
    ensures r.Failure? ==> r.error == IndexOutOfRange
    ensures r.Success? ==> |r.value| == |face| && forall k :: 0 <= k < |face| ==> r.value[k] == points[face[k]]
  {
    if face == [] then Success([])
    else if !(0 <= face[0] < |points|) then Failure(IndexOutOfRange)
    else
      match FacePoints(points, face[1..])
      case Failure(e) => Failure(e)
      case Success(rest) =>
        assert forall k :: 1 <= k < |face| ==> face[k] == face[1..][k - 1];
        Success([points[face[0]]] + rest)
  }

  /** p is the polygon on the face: the reference, the shared storage, and vertex k
      at the point the face names at k. */
  predicate OnFace(p: Polygon, points: seq<Vec3>, face: seq<int>, storage: PropertyStorage, ref: nat)
    requires InRange(points, face)
  {
    && p.ref == ref && p.storage == storage && |p.vertices| == |face|
    && forall k :: 0 <= k < |face| ==> p.vertices[k].pos == points[face[k]]
  }

  /** faceListToPolygon: fromPoints on the face's points, with the shared storage. */
  function FacePolygon(points: seq<Vec3>, face: seq<int>, storage: PropertyStorage, ref: nat, recip: Recip): (r: Result<Polygon>)
    ensures r.Success? <==> WellFormed(points, face)
    ensures r.Failure? ==> r.error == IndexOutOfRange
    ensures r.Success? ==> OnFace(r.value, points, face, storage, ref)
  {
    match FacePoints(points, face)
    case Failure(e) => Failure(e)
    case Success(ps) =>
      var r := FromPoints(ref, ps, storage, recip);
      if r.Success? then
        assert forall k :: 0 <= k < |face| ==> Positions(r.value.vertices)[k] == r.value.vertices[k].pos;
        r
      else r
  }

  /** faces.Select(faceListToPolygon): one polygon per face in order, with consecutive
      references from next; the first malformed face throws. */
  function FacesPolygons(points: seq<Vec3>, faces: seq<seq<int>>, storage: PropertyStorage, next: nat, recip: Recip)
    : (r: Result<seq<Polygon>>)
    ensures r.Failure? ==> r.error == IndexOutOfRange
    ensures r.Success? ==> |r.value| == |faces|
  {
    if faces == [] then Success([])
    else Prepend(FacePolygon(points, faces[0], storage, next, recip), FacesPolygons(points, faces[1..], storage, next + 1, recip))
  }

  /** The first face's polygon, then the polygons of the others; the first failure
      wins. */
  function Prepend(head: Result<Polygon>, tail: Result<seq<Polygon>>): (r: Result<seq<Polygon>>)
    ensures r.Success? <==> head.Success? && tail.Success?
    ensures r.Success? ==> r.value == [head.value] + tail.value
    ensures r.Failure? ==> r.error == (if head.Failure? then head.error else tail.error)
  {
    match head
    case Failure(e) => Failure(e)
    case Success(p) =>
      match tail
      case Failure(e) => Failure(e)
      case Success(rest) => Success([p] + rest)
  }

  /** Every face is well formed. */
  predicate AllWellFormed(points: seq<Vec3>, faces: seq<seq<int>>)
  {
    forall f :: 0 <= f < |faces| ==> WellFormed(points, faces[f])
  }

  /** The polygons of a list of faces: present exactly when every face is well
      formed, and then polygon f is on face f with reference next + f. */
  predicate OnFaces(r: Result<seq<Polygon>>, points: seq<Vec3>, faces: seq<seq<int>>, storage: PropertyStorage, next: nat)
  {
    && (r.Success? <==> AllWellFormed(points, faces))
    && (r.Success? ==> |r.value| == |faces| && forall f :: 0 <= f < |faces| ==> OnFace(r.value[f], points, faces[f], storage, next + f))
  }

  /** toPolygons succeeds exactly when every face is well formed, and then polygon f
      is on face f, with reference next + f. */
  lemma {:induction false} FacesPolygonsOnFaces(points: seq<Vec3>, faces: seq<seq<int>>, storage: PropertyStorage, next: nat, recip: Recip)
    ensures OnFaces(FacesPolygons(points, faces, storage, next, recip), points, faces, storage, next)
  {
    if faces != [] {
      FacesPolygonsOnFaces(points, faces[1..], storage, next + 1, recip);
      PrependOnFaces(FacePolygon(points, faces[0], storage, next, recip), FacesPolygons(points, faces[1..], storage, next + 1, recip),
                     points, faces, storage, next);
    }
  }

  /** One step of FacesPolygonsOnFaces: the first face's polygon before the polygons
      of the rest are the polygons of all the faces. */
  lemma PrependOnFaces(head: Result<Polygon>, tail: Result<seq<Polygon>>, points: seq<Vec3>, faces: seq<seq<int>>,
                       storage: PropertyStorage, next: nat)
    requires faces != []
    requires head.Success? <==> WellFormed(points, faces[0])
    requires head.Success? ==> OnFace(head.value, points, faces[0], storage, next)
    requires OnFaces(tail, points, faces[1..], storage, next + 1)
    ensures OnFaces(Prepend(head, tail), points, faces, storage, next)
  {
    var tl := faces[1..];
    assert forall f :: 1 <= f < |faces| ==> faces[f] == tl[f - 1];
    var r := Prepend(head, tail);
    if head.Success? && tail.Failure? {
      var g :| 0 <= g < |tl| && !WellFormed(points, tl[g]);
      assert !WellFormed(points, faces[g + 1]);
    }
    if r.Success? {
      forall f | 0 <= f < |faces| ensures OnFace(r.value[f], points, faces[f], storage, next + f) {
        if f > 0 {
          assert r.value[f] == tail.value[f - 1];
        }
      }
    }
  }

  class Polyhedron {
    const points: seq<Vec3>
    const faces: seq<seq<int>>
    const properties: PropertyStorage

    /** Polyhedron(points, faces): copies of the two lists. The storage is made with
        the random colour draw `draw`. */
    constructor (points: seq<Vec3>, faces: seq<seq<int>>, draw: real)
      requires 0.0 <= draw < 1.0
      ensures this.points == points && this.faces == faces && fresh(properties)
    {
      this.points := points;
      this.faces := faces;
      properties := new PropertyStorage(draw);
    }

    /** Polyhedron(points, faces) on arrays: the points, and a list copy of each face
        array in turn. */
    constructor OfArrays(points: array<Vec3>, faces: array<array<int>>, draw: real)
      requires 0.0 <= draw < 1.0
      ensures this.points == points[..] && |this.faces| == faces.Length
      ensures forall f :: 0 <= f < faces.Length ==> this.faces[f] == faces[f][..]
      ensures fresh(properties)
    {
      var copied: seq<seq<int>> := [];
      var f := 0;
      while f < faces.Length
        invariant 0 <= f <= faces.Length && |copied| == f
        invariant forall g :: 0 <= g < f ==> copied[g] == faces[g][..]
      {
        copied := copied + [faces[f][..]];
        f := f + 1;
      }
      this.points := points[..];
      this.faces := copied;
      properties := new PropertyStorage(draw);
    }

    /** toPolygons: one polygon per face; it throws exactly when some face names a
        point outside the list or has fewer than three points. References start at
        next. */
    function ToPolygons(next: nat, recip: Recip): (r: Result<seq<Polygon>>)
      ensures r.Success? <==> AllWellFormed(points, faces)
      ensures r.Failure? ==> r.error == IndexOutOfRange
      ensures r.Success? ==> |r.value| == |faces| && forall f :: 0 <= f < |faces| ==>
        OnFace(r.value[f], points, faces[f], properties, next + f)
    {
      FacesPolygonsOnFaces(points, faces, properties, next, recip);
      FacesPolygons(points, faces, properties, next, recip)
    }

    function GetProperties(): PropertyStorage
    {
      properties
    }
  }
}
