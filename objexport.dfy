/**
 * The OBJ export of a solid (toObj in CSharpCSG/CSG.cs). Vertices are written once per
 * distinct position and referred to by 1-based index; every polygon becomes a fan of
 * triangles sharing its first index; every distinct property storage becomes a numbered
 * material. Number formatting of coordinates and colours belongs to the vector library,
 * so a vertex line and a colour line carry the value itself rather than its text.
 */
module ObjExport {
  import opened Vectors
  import opened Wrappers
  import opened Vertices
  import opened Polygons
  import opened Storage
  import opened CSGs

  /** One line of the OBJ or MTL text. */
  datatype Line =
    | Text(s: string)               // a fixed header or an empty line
    | VertexLine(pos: Vec3)         // "v x y z"
    | UseMaterial(name: string)     // "usemtl <name>"
    | Face(a: int, b: int, c: int)  // "f a b c"
    | NewMaterial(name: string)     // "newmtl <name>"
    | Diffuse(colour: Value)        // "Kd <colour>"

  datatype ObjFile = ObjFile(obj: seq<Line>, mtl: seq<Line>)

  /** The per-polygon record the export collects before writing faces. */
  datatype PolygonStruct = PolygonStruct(storage: PropertyStorage, indices: seq<int>, materialName: string)

  /** The key under which the export records a storage's material number. */
  const NameKey := "material:name"

  /** The lines before the vertices; the first line lacks its line break in the library,
      so the MTL reference and the group comment share it. */
  const Prelude: seq<Line> := [Text("mtllib $JCSG_MTL_NAME$# Group"), Text("g v3d.csg"), Text(""), Text("# Vertices")]
  const FacesHeader: seq<Line> := [Text(""), Text("# Faces")]
  const Trailer: seq<Line> := [Text(""), Text("# End Group v3d.csg")]

  function MaterialName(n: nat): string
  {
    "material-" + DecimalText(n)
  }

  /** Different material numbers give different names. */
  lemma MaterialNamesDiffer(m: nat, n: nat)
    requires m != n
    ensures MaterialName(m) != MaterialName(n)
  {
    var pre := "material-";
    assert MaterialName(m)[|pre|..] == DecimalText(m);
    assert MaterialName(n)[|pre|..] == DecimalText(n);
    DecimalTextInjective(m, n);
  }

  lemma {:induction false} DecimalTextInjective(m: nat, n: nat)
    requires m != n
    ensures DecimalText(m) != DecimalText(n)
    decreases m + n
  {
    var sm, sn := DecimalText(m), DecimalText(n);
    if m < 10 && n < 10 {
      assert sm[0] != sn[0];
    } else if m < 10 {
      assert |sn| > 1 by { assert sn == DecimalText(n / 10) + [(48 + n % 10) as char]; }
    } else if n < 10 {
      assert |sm| > 1 by { assert sm == DecimalText(m / 10) + [(48 + m % 10) as char]; }
    } else if m % 10 != n % 10 {
      assert sm[|sm| - 1] != sn[|sn| - 1];
    } else {
      assert m / 10 != n / 10;
      DecimalTextInjective(m / 10, n / 10);
      assert sm[..|sm| - 1] == DecimalText(m / 10) && sn[..|sn| - 1] == DecimalText(n / 10);
    }
  }

  // ---- vertex indexing -------------------------------------------------------------

  /** List.IndexOf with the vertices' own equality: the first vertex at the same position,
      or -1 when there is none (List.Contains is IndexOf >= 0). */
  function IndexOf(vs: seq<Vertex>, v: Vertex): (k: int)
    ensures -1 <= k < |vs|
    ensures 0 <= k ==> Equals(vs[k], v) && forall j :: 0 <= j < k ==> !Equals(vs[j], v)
    ensures k == -1 <==> forall j :: 0 <= j < |vs| ==> !Equals(vs[j], v)
  {
    if vs == [] then -1
    else if Equals(vs[0], v) then 0
    else
      var k := IndexOf(vs[1..], v);
      if k < 0 then -1 else k + 1
  }

  /** No two listed vertices share a position. */
  predicate DistinctPositions(vs: seq<Vertex>)
  {
    forall i, j :: 0 <= i < j < |vs| ==> vs[i].pos != vs[j].pos
  }

  /** The indices the export gives a polygon's vertices, and the vertex list after it:
      a vertex at a position not yet listed is appended and gets the new count, one at a
      listed position gets that entry's 1-based index. */
  function IndexVertices(vs: seq<Vertex>, pvs: seq<Vertex>): (r: (seq<Vertex>, seq<int>))
  {
    if pvs == [] then (vs, [])
    else
      var (ws, idx) := IndexVertices(vs, pvs[..|pvs| - 1]);
      var v := pvs[|pvs| - 1];
      var k := IndexOf(ws, v);
      if k < 0 then (ws + [v], idx + [|ws| + 1]) else (ws, idx + [k + 1])
  }

  /** Indexing keeps the listed vertices as a prefix and gives each polygon vertex the
      1-based index of an entry at its position. */
  lemma {:induction false} IndexVerticesSound(vs: seq<Vertex>, pvs: seq<Vertex>)
    ensures IndexedVertices(vs, pvs, IndexVertices(vs, pvs).0, IndexVertices(vs, pvs).1)
  {
    if pvs != [] {
      var init := pvs[..|pvs| - 1];
      IndexVerticesSound(vs, init);
      var r := IndexVertices(vs, init);
      var v := pvs[|pvs| - 1];
      assert init + [v] == pvs;
      var k := IndexOf(r.0, v);
      if k < 0 {
        IndexNewVertex(vs, init, r.0, r.1, v);
      } else {
        IndexListedVertex(vs, init, r.0, r.1, v, k);
      }
    }
  }

  /** What indexing a polygon's vertices `pvs` onto the list `vs` promises. */
  predicate IndexedVertices(vs: seq<Vertex>, pvs: seq<Vertex>, ws: seq<Vertex>, idx: seq<int>)
  {
    && |vs| <= |ws| && ws[..|vs|] == vs && |idx| == |pvs|
    && forall k :: 0 <= k < |idx| ==> 1 <= idx[k] <= |ws| && ws[idx[k] - 1].pos == pvs[k].pos
  }

  lemma IndexNewVertex(vs: seq<Vertex>, pvs: seq<Vertex>, ws: seq<Vertex>, idx: seq<int>, v: Vertex)
    requires IndexedVertices(vs, pvs, ws, idx)
    ensures IndexedVertices(vs, pvs + [v], ws + [v], idx + [|ws| + 1])
  {
    var pvs', ws', idx' := pvs + [v], ws + [v], idx + [|ws| + 1];
    assert ws'[..|vs|] == ws[..|vs|];
    forall k | 0 <= k < |idx'| ensures 1 <= idx'[k] <= |ws'| && ws'[idx'[k] - 1].pos == pvs'[k].pos {
      if k < |idx| { assert idx'[k] == idx[k] && pvs'[k] == pvs[k] && ws'[idx[k] - 1] == ws[idx[k] - 1]; }
    }
  }

  lemma IndexListedVertex(vs: seq<Vertex>, pvs: seq<Vertex>, ws: seq<Vertex>, idx: seq<int>, v: Vertex, k: nat)
    requires IndexedVertices(vs, pvs, ws, idx)
    requires k < |ws| && ws[k].pos == v.pos
    ensures IndexedVertices(vs, pvs + [v], ws, idx + [k + 1])
  {
    var pvs', idx' := pvs + [v], idx + [k + 1];
    forall i | 0 <= i < |idx'| ensures 1 <= idx'[i] <= |ws| && ws[idx'[i] - 1].pos == pvs'[i].pos {
      if i < |idx| { assert idx'[i] == idx[i] && pvs'[i] == pvs[i]; }
    }
  }

  /** Indexing lists no position twice, and every vertex it adds is one of the polygon's. */
  lemma {:induction false} IndexVerticesNew(vs: seq<Vertex>, pvs: seq<Vertex>)
    requires DistinctPositions(vs)
    ensures var ws := IndexVertices(vs, pvs).0;
      DistinctPositions(ws) && forall j :: |vs| <= j < |ws| ==> ws[j] in pvs
  {
    if pvs != [] {
      var init := pvs[..|pvs| - 1];
      IndexVerticesNew(vs, init);
      IndexVerticesSound(vs, init);
      var ws := IndexVertices(vs, init).0;
      var v := pvs[|pvs| - 1];
      if IndexOf(ws, v) < 0 {
        DistinctSnoc(ws, v);
        forall j | |vs| <= j < |ws| + 1 ensures (ws + [v])[j] in pvs {
          if j < |ws| { assert ws[j] in init; } else { assert pvs[|pvs| - 1] == v; }
        }
      } else {
        forall j | |vs| <= j < |ws| ensures ws[j] in pvs {
          assert ws[j] in init;
        }
      }
    }
  }

  lemma DistinctSnoc(ws: seq<Vertex>, v: Vertex)
    requires DistinctPositions(ws) && forall j :: 0 <= j < |ws| ==> !Equals(ws[j], v)
    ensures DistinctPositions(ws + [v])
  {
    var ws' := ws + [v];
    forall i, j | 0 <= i < j < |ws'| ensures ws'[i].pos != ws'[j].pos {
      assert ws'[i] == ws[i];
      if j < |ws| { assert ws'[j] == ws[j]; }
    }
  }

  /** Re-indexing a vertex at a listed position adds nothing and returns that entry. */
  lemma IndexOfListed(vs: seq<Vertex>, j: nat)
    requires j < |vs| && DistinctPositions(vs)
    ensures IndexOf(vs, vs[j]) == j
  {
  }

  /** Everything the export collects in its first pass over the polygons: the vertex list,
      one record per polygon, and the storages in the order they were first met (the
      material dictionary's keys). */
  datatype Collected = Collected(vertices: seq<Vertex>, structs: seq<PolygonStruct>, materials: seq<PropertyStorage>)

  /** One polygon's turn in the first pass. */
  function AddPolygon(c: Collected, p: Polygon): (r: Collected)
    ensures |r.structs| == |c.structs| + 1
  {
    var (ws, idx) := IndexVertices(c.vertices, p.vertices);
    var ms := if p.storage in c.materials then c.materials else c.materials + [p.storage];
    Collected(ws, c.structs + [PolygonStruct(p.storage, idx, MaterialName(Position(ms, p.storage) + 1))], ms)
  }

  function Index(ps: seq<Polygon>): (r: Collected)
    ensures |r.structs| == |ps|
  {
    if ps == [] then Collected([], [], []) else AddPolygon(Index(ps[..|ps| - 1]), ps[|ps| - 1])
  }

  /** The first position of an element. */
  function Position<T(==)>(xs: seq<T>, x: T): (k: nat)
    requires x in xs
    ensures k < |xs| && xs[k] == x && forall j :: 0 <= j < k ==> xs[j] != x
  {
    if xs[0] == x then 0 else 1 + Position(xs[1..], x)
  }

  /** No element twice. */
  predicate NoDuplicates<T(==)>(xs: seq<T>)
  {
    forall i, j :: 0 <= i < j < |xs| ==> xs[i] != xs[j]
  }

  lemma PositionInDistinct<T>(xs: seq<T>, k: nat)
    requires k < |xs| && NoDuplicates(xs)
    ensures Position(xs, xs[k]) == k
  {
  }

  /** The first pass lists every distinct position once; each polygon's indices are as
      many as its vertices and point at an entry with the vertex's position; every listed
      vertex is a vertex of some polygon; the materials are the polygons' storages, each
      once, and each record names its storage's material by 1-based position. */
  lemma IndexSound(ps: seq<Polygon>)
    ensures Indexed(ps, Index(ps))
  {
    IndexListsVertices(ps);
    IndexListsMaterials(ps);
    IndexKeepsRecords(ps);
  }

  /** What the first pass promises about its vertex list, records and material keys. */
  predicate Indexed(ps: seq<Polygon>, c: Collected)
  {
    && ListsVertices(ps, c.vertices) && ListsMaterials(ps, c.materials)
    && |c.structs| == |ps| && forall i :: 0 <= i < |ps| ==> IndexedPolygon(c.vertices, c.materials, ps[i], c.structs[i])
  }

  predicate ListsVertices(ps: seq<Polygon>, vs: seq<Vertex>)
  {
    DistinctPositions(vs) && forall j :: 0 <= j < |vs| ==> VertexOf(ps, vs[j])
  }

  predicate ListsMaterials(ps: seq<Polygon>, ms: seq<PropertyStorage>)
  {
    NoDuplicates(ms) && forall k :: 0 <= k < |ms| ==> StorageOf(ps, ms[k])
  }

  lemma {:induction false} IndexListsVertices(ps: seq<Polygon>)
    ensures ListsVertices(ps, Index(ps).vertices)
  {
    if ps != [] {
      var init, p := ps[..|ps| - 1], ps[|ps| - 1];
      IndexListsVertices(init);
      var vs := Index(init).vertices;
      IndexVerticesNew(vs, p.vertices);
      IndexVerticesSound(vs, p.vertices);
      IndexStepVertices(init, p, ps, vs, IndexVertices(vs, p.vertices).0);
    }
  }

  lemma {:induction false} IndexListsMaterials(ps: seq<Polygon>)
    ensures ListsMaterials(ps, Index(ps).materials)
  {
    if ps != [] {
      var init, p := ps[..|ps| - 1], ps[|ps| - 1];
      IndexListsMaterials(init);
      var ms := Index(init).materials;
      IndexStepStorages(init, p, ps, ms, if p.storage in ms then ms else ms + [p.storage]);
    }
  }

  lemma {:induction false} IndexKeepsRecords(ps: seq<Polygon>)
    ensures forall i :: 0 <= i < |ps| ==> IndexedPolygon(Index(ps).vertices, Index(ps).materials, ps[i], Index(ps).structs[i])
  {
    if ps != [] {
      var init, p := ps[..|ps| - 1], ps[|ps| - 1];
      IndexKeepsRecords(init);
      assert init + [p] == ps;
      IndexStepRecords(init, p, ps, Index(init));
    }
  }

  /** `v` is a vertex of one of the polygons. */
  predicate VertexOf(ps: seq<Polygon>, v: Vertex)
  {
    exists i :: 0 <= i < |ps| && v in ps[i].vertices
  }

  /** `s` is the storage of one of the polygons. */
  predicate StorageOf(ps: seq<Polygon>, s: PropertyStorage)
  {
    exists i :: 0 <= i < |ps| && ps[i].storage == s
  }

  lemma IndexStepVertices(init: seq<Polygon>, p: Polygon, ps: seq<Polygon>, vs: seq<Vertex>, ws: seq<Vertex>)
    requires ps == init + [p]
    requires forall j :: 0 <= j < |vs| ==> VertexOf(init, vs[j])
    requires |vs| <= |ws| && ws[..|vs|] == vs && forall j :: |vs| <= j < |ws| ==> ws[j] in p.vertices
    ensures forall j :: 0 <= j < |ws| ==> VertexOf(ps, ws[j])
  {
    forall j | 0 <= j < |ws| ensures VertexOf(ps, ws[j]) {
      if j < |vs| {
        assert ws[j] == vs[j];
        var i :| 0 <= i < |init| && vs[j] in init[i].vertices;
        assert ps[i] == init[i];
      } else {
        assert ws[j] in ps[|init|].vertices;
      }
    }
  }

  lemma IndexStepStorages(init: seq<Polygon>, p: Polygon, ps: seq<Polygon>, ms: seq<PropertyStorage>, ms': seq<PropertyStorage>)
    requires ps == init + [p] && ms' == if p.storage in ms then ms else ms + [p.storage]
    requires NoDuplicates(ms)
    requires forall k :: 0 <= k < |ms| ==> StorageOf(init, ms[k])
    ensures NoDuplicates(ms') && ms <= ms'
    ensures forall k :: 0 <= k < |ms'| ==> StorageOf(ps, ms'[k])
  {
    forall k | 0 <= k < |ms'| ensures StorageOf(ps, ms'[k]) {
      if k < |ms| {
        var i :| 0 <= i < |init| && init[i].storage == ms[k];
        assert ps[i].storage == ms'[k];
      } else {
        assert ps[|init|].storage == ms'[k];
      }
    }
  }

  lemma IndexStepRecords(init: seq<Polygon>, p: Polygon, ps: seq<Polygon>, c: Collected)
    requires ps == init + [p]
    requires |c.structs| == |init| && forall i :: 0 <= i < |init| ==> IndexedPolygon(c.vertices, c.materials, init[i], c.structs[i])
    ensures var r := AddPolygon(c, p);
      forall i :: 0 <= i < |ps| ==> IndexedPolygon(r.vertices, r.materials, ps[i], r.structs[i])
  {
    var r := AddPolygon(c, p);
    IndexVerticesSound(c.vertices, p.vertices);
    var (ws, idx) := IndexVertices(c.vertices, p.vertices);
    var ms := if p.storage in c.materials then c.materials else c.materials + [p.storage];
    var st := PolygonStruct(p.storage, idx, MaterialName(Position(ms, p.storage) + 1));
    assert r == Collected(ws, c.structs + [st], ms);
    forall i | 0 <= i < |ps| ensures IndexedPolygon(ws, ms, ps[i], r.structs[i]) {
      if i < |init| {
        assert ps[i] == init[i] && r.structs[i] == c.structs[i];
        IndexedPolygonGrows(c.vertices, c.materials, ws, ms, init[i], c.structs[i]);
      } else {
        assert ps[i] == p && r.structs[i] == st;
      }
    }
  }

  /** A polygon's record agrees with the vertex list and the material keys. */
  predicate IndexedPolygon(vs: seq<Vertex>, ms: seq<PropertyStorage>, p: Polygon, st: PolygonStruct)
  {
    && st.storage == p.storage && p.storage in ms
    && st.materialName == MaterialName(Position(ms, p.storage) + 1)
    && |st.indices| == |p.vertices|
    && forall k :: 0 <= k < |st.indices| ==> 1 <= st.indices[k] <= |vs| && vs[st.indices[k] - 1].pos == p.vertices[k].pos
  }

  lemma IndexedPolygonGrows(vs: seq<Vertex>, ms: seq<PropertyStorage>, ws: seq<Vertex>, ms': seq<PropertyStorage>,
                            p: Polygon, st: PolygonStruct)
    requires IndexedPolygon(vs, ms, p, st) && vs <= ws && ms <= ms'
    ensures IndexedPolygon(ws, ms', p, st)
  {
    var k := Position(ms, p.storage);
    assert ms'[k] == p.storage;
    assert Position(ms', p.storage) == k;
    forall k | 0 <= k < |st.indices| ensures ws[st.indices[k] - 1] == vs[st.indices[k] - 1] { }
  }

  // ---- face lines ------------------------------------------------------------------

  /** The triangles of one polygon: i-th line (first, indices[i+1], indices[i+2]). */
  function FanLines(idx: seq<int>): (ls: seq<Line>)
    requires |idx| >= 1
  {
    if |idx| < 3 then [] else FanLines(idx[..|idx| - 1]) + [Face(idx[0], idx[|idx| - 2], idx[|idx| - 1])]
  }

  /** k indices give k - 2 face lines, all starting with the first index. */
  lemma {:induction false} FanLinesShape(idx: seq<int>)
    requires |idx| >= 3
    ensures |FanLines(idx)| == |idx| - 2
    ensures forall i :: 0 <= i < |idx| - 2 ==> FanLines(idx)[i] == Face(idx[0], idx[i + 1], idx[i + 2])
  {
    var init := idx[..|idx| - 1];
    if |idx| > 3 {
      FanLinesShape(init);
    }
  }

  /** The face section of one record: its material when its storage has a colour, its
      triangles, then an empty line. */
  function PolygonLines(st: PolygonStruct, coloured: bool): seq<Line>
    requires |st.indices| >= 1
  {
    (if coloured then [UseMaterial(st.materialName)] else []) + FanLines(st.indices) + [Text("")]
  }

  predicate HasIndices(sts: seq<PolygonStruct>)
  {
    forall i :: 0 <= i < |sts| ==> |sts[i].indices| >= 3
  }

  /** The storages' entries at one moment: what contains and getValue see. */
  type Tables = map<PropertyStorage, map<string, Value>>

  predicate Covers(tables: Tables, sts: seq<PolygonStruct>)
  {
    forall i :: 0 <= i < |sts| ==> sts[i].storage in tables
  }

  function FaceLines(sts: seq<PolygonStruct>, tables: Tables): seq<Line>
    requires HasIndices(sts) && Covers(tables, sts)
  {
    if sts == [] then []
    else
      var st := sts[|sts| - 1];
      FaceLines(sts[..|sts| - 1], tables) + PolygonLines(st, ColorKey in tables[st.storage])
  }

  /** The face section lists, for every polygon in order, its `usemtl` line exactly when
      its storage holds a colour, then its k - 2 triangles: the number of lines is the sum
      of those counts and one empty line per polygon. */
  lemma {:induction false} FaceLinesCount(sts: seq<PolygonStruct>, tables: Tables)
    requires HasIndices(sts) && Covers(tables, sts)
    ensures |FaceLines(sts, tables)| == FaceCount(sts, tables)
  {
    if sts != [] {
      FaceLinesCount(sts[..|sts| - 1], tables);
      FanLinesShape(sts[|sts| - 1].indices);
    }
  }

  function FaceCount(sts: seq<PolygonStruct>, tables: Tables): nat
    requires HasIndices(sts) && Covers(tables, sts)
  {
    if sts == [] then 0
    else
      var st := sts[|sts| - 1];
      FaceCount(sts[..|sts| - 1], tables) + (if ColorKey in tables[st.storage] then 1 else 0) + (|st.indices| - 2) + 1
  }

  /** The face section of a prefix of the records is a prefix of the face section. */
  lemma {:induction false} FaceLinesPrefix(sts: seq<PolygonStruct>, tables: Tables, n: nat)
    requires HasIndices(sts) && Covers(tables, sts) && n <= |sts|
    ensures FaceLines(sts[..n], tables) <= FaceLines(sts, tables)
    decreases |sts| - n
  {
    if n < |sts| {
      var init := sts[..|sts| - 1];
      assert init[..n] == sts[..n];
      FaceLinesPrefix(init, tables, n);
    } else {
      assert sts[..n] == sts;
    }
  }

  /** A record whose storage holds a colour puts its `usemtl` line in the face section. */
  lemma ColouredRecordUsesMaterial(sts: seq<PolygonStruct>, tables: Tables, i: nat)
    requires HasIndices(sts) && Covers(tables, sts) && i < |sts|
    requires ColorKey in tables[sts[i].storage]
    ensures UseMaterial(sts[i].materialName) in FaceLines(sts, tables)
  {
    FaceLinesPrefix(sts, tables, i + 1);
    var upto := sts[..i + 1];
    assert upto[..i] == sts[..i];
    var before := FaceLines(sts[..i], tables);
    assert FaceLines(upto, tables) == before + PolygonLines(sts[i], true);
    assert FaceLines(upto, tables)[|before|] == UseMaterial(sts[i].materialName);
    assert FaceLines(sts, tables)[|before|] == UseMaterial(sts[i].materialName);
  }

  function VertexLines(vs: seq<Vertex>): (ls: seq<Line>)
    ensures |ls| == |vs| && forall j :: 0 <= j < |vs| ==> ls[j] == VertexLine(vs[j].pos)
  {
    seq(|vs|, j requires 0 <= j < |vs| => VertexLine(vs[j].pos))
  }

  /** The OBJ text: the prelude, one line per listed vertex, the face section, the trailer. */
  function ObjLines(vs: seq<Vertex>, sts: seq<PolygonStruct>, tables: Tables): seq<Line>
    requires HasIndices(sts) && Covers(tables, sts)
  {
    Prelude + VertexLines(vs) + FacesHeader + FaceLines(sts, tables) + Trailer
  }

  // ---- material lines --------------------------------------------------------------

  predicate Known(tables: Tables, ms: seq<PropertyStorage>)
  {
    forall k :: 0 <= k < |ms| ==> ms[k] in tables
  }

  /** The name text getValue<string>("material:name") yields: the stored text, or nothing
      for null (a missing key or a value that is not a string). */
  function NameText(t: map<string, Value>): string
  {
    match Lookup(t, NameKey, StringType)
    case Success(Some(Str(s))) => s
    case _ => ""
  }

  /** The MTL loop as written: for each material whose storage holds a colour, the colour
      is read with getValue<Color> and the name with getValue<string>. The first colour
      that is not a Color makes the export throw. */
  function MtlAsWritten(ms: seq<PropertyStorage>, tables: Tables): (r: Result<seq<Line>>)
    requires Known(tables, ms)
    ensures r.Failure? ==> r.error == NullReference
  {
    if ms == [] then Success([])
    else
      match MtlAsWritten(ms[..|ms| - 1], tables)
      case Failure(e) => Failure(e)
      case Success(lines) =>
        var t := tables[ms[|ms| - 1]];
        if ColorKey !in t then Success(lines)
        else
          match Lookup(t, ColorKey, ColourType)
          case Failure(e) => Failure(e)
          case Success(c) => Success(lines + [NewMaterial("material-" + NameText(t)), Diffuse(c.value)])
  }

  /** The MTL lines as the format needs them: each coloured material under the name its
      polygons' `usemtl` lines use, with the colour as stored. */
  function MtlLines(ms: seq<PropertyStorage>, tables: Tables): (ls: seq<Line>)
    requires Known(tables, ms)
  {
    if ms == [] then []
    else
      var s := ms[|ms| - 1];
      var t := tables[s];
      MtlLines(ms[..|ms| - 1], tables)
        + (if ColorKey in t then [NewMaterial(MaterialName(|ms|)), Diffuse(t[ColorKey])] else [])
  }

  /** A coloured material at position k gets its newmtl line under MaterialName(k + 1). */
  lemma {:induction false} MtlLinesNameEach(ms: seq<PropertyStorage>, tables: Tables, k: nat)
    requires Known(tables, ms) && k < |ms| && ColorKey in tables[ms[k]]
    ensures NewMaterial(MaterialName(k + 1)) in MtlLines(ms, tables)
    ensures Diffuse(tables[ms[k]][ColorKey]) in MtlLines(ms, tables)
  {
    if k < |ms| - 1 {
      MtlLinesNameEach(ms[..|ms| - 1], tables, k);
    }
  }

  /** Every `usemtl` name in the face section has its `newmtl` entry in the MTL lines. */
  lemma UsedMaterialsDefined(ps: seq<Polygon>, c: Collected, tables: Tables, i: nat)
    requires |c.structs| == |ps| && forall j :: 0 <= j < |ps| ==> IndexedPolygon(c.vertices, c.materials, ps[j], c.structs[j])
    requires HasIndices(c.structs) && Covers(tables, c.structs) && Known(tables, c.materials)
    requires i < |ps| && ColorKey in tables[c.structs[i].storage]
    ensures UseMaterial(c.structs[i].materialName) in ObjLines(c.vertices, c.structs, tables)
    ensures NewMaterial(c.structs[i].materialName) in MtlLines(c.materials, tables)
  {
    assert IndexedPolygon(c.vertices, c.materials, ps[i], c.structs[i]);
    ColouredRecordUsesMaterial(c.structs, tables, i);
    FaceLineInObj(c.vertices, c.structs, tables, UseMaterial(c.structs[i].materialName));
    var k := Position(c.materials, ps[i].storage);
    assert c.materials[k] == c.structs[i].storage && c.structs[i].materialName == MaterialName(k + 1);
    MtlLinesNameEach(c.materials, tables, k);
  }

  lemma FaceLineInObj(vs: seq<Vertex>, sts: seq<PolygonStruct>, tables: Tables, l: Line)
    requires HasIndices(sts) && Covers(tables, sts) && l in FaceLines(sts, tables)
    ensures l in ObjLines(vs, sts, tables)
  {
    var faces := FaceLines(sts, tables);
    var before := Prelude + VertexLines(vs) + FacesHeader;
    var k :| 0 <= k < |faces| && faces[k] == l;
    assert (before + faces + Trailer)[|before| + k] == faces[k];
  }

  // ---- the export as a whole -------------------------------------------------------

  /** Every polygon the library builds has at least three vertices (its constructor
      refuses fewer), which the fan structure relies on. */
  predicate Exportable(ps: seq<Polygon>)
  {
    forall i :: 0 <= i < |ps| ==> |ps[i].vertices| >= 3
  }

  lemma {:induction false} IndexCovered(ps: seq<Polygon>)
    requires Exportable(ps)
    ensures HasIndices(Index(ps).structs)
    ensures forall i :: 0 <= i < |ps| ==> Index(ps).structs[i].storage == ps[i].storage
    ensures forall i :: 0 <= i < |ps| ==> ps[i].storage in Index(ps).materials
  {
    if ps != [] {
      var init, p := ps[..|ps| - 1], ps[|ps| - 1];
      IndexCovered(init);
      var c := Index(init);
      IndexVerticesSound(c.vertices, p.vertices);
      AddPolygonCovers(init, p, ps, c);
    }
  }

  lemma AddPolygonCovers(init: seq<Polygon>, p: Polygon, ps: seq<Polygon>, c: Collected)
    requires ps == init + [p] && |p.vertices| >= 3 && |c.structs| == |init|
    requires |IndexVertices(c.vertices, p.vertices).1| == |p.vertices|
    requires HasIndices(c.structs)
    requires forall i :: 0 <= i < |init| ==> c.structs[i].storage == init[i].storage && init[i].storage in c.materials
    ensures var r := AddPolygon(c, p);
      && HasIndices(r.structs)
      && forall i :: 0 <= i < |ps| ==> r.structs[i].storage == ps[i].storage && ps[i].storage in r.materials
  {
    var r := AddPolygon(c, p);
    forall i | 0 <= i < |ps| ensures r.structs[i].storage == ps[i].storage && ps[i].storage in r.materials {
      if i < |init| { assert r.structs[i] == c.structs[i] && ps[i] == init[i]; }
    }
  }

  /** toObj(3) as written, given the storages' entries when the MTL text is written. */
  function Export(ps: seq<Polygon>, tables: Tables): (r: Result<ObjFile>)
    requires Exportable(ps) && Known(tables, Index(ps).materials)
  {
    IndexCovered(ps);
    var c := Index(ps);
    match MtlAsWritten(c.materials, tables)
    case Failure(e) => Failure(e)
    case Success(mtl) => Success(ObjFile(ObjLines(c.vertices, c.structs, tables), mtl))
  }

  /** toObj(3) with the MTL text the format needs; it never throws. */
  function ExportCorrected(ps: seq<Polygon>, tables: Tables): (r: ObjFile)
    requires Exportable(ps) && Known(tables, Index(ps).materials)
  {
    IndexCovered(ps);
    var c := Index(ps);
    ObjFile(ObjLines(c.vertices, c.structs, tables), MtlLines(c.materials, tables))
  }

  /** The two agree on the OBJ text; they differ only in the MTL text. */
  lemma ExportsAgreeOnObj(ps: seq<Polygon>, tables: Tables)
    requires Exportable(ps) && Known(tables, Index(ps).materials)
    ensures Export(ps, tables).Success? ==> Export(ps, tables).value.obj == ExportCorrected(ps, tables).obj
    ensures Export(ps, tables).Failure? ==> Export(ps, tables).error == NullReference
  {
  }

  /** Once the written prefix of the materials throws, the whole loop throws the same. */
  lemma {:induction false} MtlAsWrittenFailureStays(ms: seq<PropertyStorage>, tables: Tables, n: nat)
    requires Known(tables, ms) && n <= |ms| && MtlAsWritten(ms[..n], tables).Failure?
    ensures MtlAsWritten(ms, tables) == MtlAsWritten(ms[..n], tables)
    decreases |ms| - n
  {
    if n < |ms| {
      var init := ms[..|ms| - 1];
      assert init[..n] == ms[..n];
      MtlAsWrittenFailureStays(init, tables, n);
    } else {
      assert ms[..n] == ms;
    }
  }

  /** The MTL loop as written throws as soon as one coloured storage holds its colour as
      text, which is what every storage made by the PropertyStorage constructor holds. */
  lemma MtlAsWrittenThrowsOnText(ms: seq<PropertyStorage>, tables: Tables, k: nat)
    requires Known(tables, ms) && k < |ms|
    requires ColorKey in tables[ms[k]] && tables[ms[k]][ColorKey].Str?
    ensures MtlAsWritten(ms, tables) == Failure(NullReference)
  {
    var upto := ms[..k + 1];
    assert upto[..k] == ms[..k];
    assert MtlAsWritten(upto, tables).Failure?;
    MtlAsWrittenFailureStays(ms, tables, k + 1);
  }

  /** Hence toObj(3) as written throws for every solid whose first polygon carries such a
      storage, for instance any solid made from a primitive. */
  lemma ExportThrowsOnTextColour(ps: seq<Polygon>, tables: Tables)
    requires Exportable(ps) && Known(tables, Index(ps).materials) && ps != []
    requires ps[0].storage in tables && ColorKey in tables[ps[0].storage] && tables[ps[0].storage][ColorKey].Str?
    ensures Export(ps, tables) == Failure(NullReference)
  {
    IndexCovered(ps);
    var ms := Index(ps).materials;
    MtlAsWrittenThrowsOnText(ms, tables, Position(ms, ps[0].storage));
  }

  /** The export records each material's number under "material:name" as an int, and the
      MTL loop as written reads it back as a string, which is null: a storage that does
      hold a Color value still gets the name "material-" instead of "material-1". */
  lemma MtlAsWrittenDropsName(s: PropertyStorage, tables: Tables, colour: Value)
    requires colour.Colour? && s in tables && tables[s] == map[ColorKey := colour, NameKey := Int(1)]
    ensures MtlAsWritten([s], tables) == Success([NewMaterial("material-"), Diffuse(colour)])
    ensures MtlLines([s], tables) == [NewMaterial(MaterialName(1)), Diffuse(colour)]
    ensures "material-" != MaterialName(1)
  {
    assert [s][..0] == [];
    assert NameKey != ColorKey;
    var t := tables[s];
    assert t[ColorKey] == colour && t[NameKey] == Int(1);
    assert ColourType.accepts(colour) && !StringType.accepts(Int(1));
    assert Lookup(t, ColorKey, ColourType) == Success(Some(colour));
    assert Lookup(t, NameKey, StringType) == Success(None);
    assert NameText(t) == "";
    assert "material-" + NameText(t) == "material-";
    assert MtlAsWritten([s][..0], tables) == Success([]);
    var none: seq<Line> := [];
    assert none + [NewMaterial("material-"), Diffuse(colour)] == [NewMaterial("material-"), Diffuse(colour)];
    assert none + [NewMaterial(MaterialName(1)), Diffuse(colour)] == [NewMaterial(MaterialName(1)), Diffuse(colour)];
    assert |MaterialName(1)| == |"material-"| + 1;
  }

  /** The corrected export defines every material the OBJ text uses: each coloured
      polygon's `usemtl` name has its `newmtl` entry. */
  lemma {:induction false} ExportCorrectedDefinesMaterials(ps: seq<Polygon>, tables: Tables, i: nat)
    requires Exportable(ps) && Known(tables, Index(ps).materials)
    requires i < |ps| && ps[i].storage in tables && ColorKey in tables[ps[i].storage]
    ensures var c := Index(ps); var f := ExportCorrected(ps, tables);
      && UseMaterial(c.structs[i].materialName) in f.obj
      && NewMaterial(c.structs[i].materialName) in f.mtl
  {
    var c := Index(ps);
    IndexCoversTables(ps, tables);
    IndexKeepsRecords(ps);
    UsedMaterialsDefined(ps, c, tables, i);
  }

  /** The storages of an indexed solid are those of its material list. */
  lemma {:induction false} IndexCoversTables(ps: seq<Polygon>, tables: Tables)
    requires Exportable(ps) && Known(tables, Index(ps).materials)
    ensures HasIndices(Index(ps).structs) && Covers(tables, Index(ps).structs)
    ensures forall i :: 0 <= i < |ps| ==> Index(ps).structs[i].storage == ps[i].storage
  {
    var c := Index(ps);
    IndexCovered(ps);
    forall j | 0 <= j < |c.structs| ensures c.structs[j].storage in tables {
      var k := Position(c.materials, ps[j].storage);
      assert c.materials[k] in tables;
    }
  }

  // ---- the export as the library runs it --------------------------------------------

  /** The entries of the given storages, as contains and getValue see them now. */
  function Snapshot(ms: seq<PropertyStorage>): (t: Tables)
    reads set k | 0 <= k < |ms| :: ms[k]
    ensures Known(t, ms) && forall k :: 0 <= k < |ms| ==> t[ms[k]] == ms[k].entries
  {
    map s | s in ms :: s.entries
  }

  /** The vertex loop of one polygon: each vertex is looked up by position; a new one is
      appended to the list and written as a vertex line. */
  method IndexPolygonVertices(vertices: seq<Vertex>, pvs: seq<Vertex>, obj: seq<Line>)
    returns (ws: seq<Vertex>, idx: seq<int>, obj': seq<Line>)
    ensures (ws, idx) == IndexVertices(vertices, pvs)
    ensures |vertices| <= |ws| && ws[..|vertices|] == vertices && obj' == obj + VertexLines(ws[|vertices|..])
  {
    ws, idx, obj' := vertices, [], obj;
    for k := 0 to |pvs|
      invariant (ws, idx) == IndexVertices(vertices, pvs[..k])
      invariant |vertices| <= |ws| && ws[..|vertices|] == vertices && obj' == obj + VertexLines(ws[|vertices|..])
    {
      var v := pvs[k];
      assert pvs[..k + 1][..k] == pvs[..k];
      var j := IndexOf(ws, v);
      if j < 0 {
        assert VertexLines((ws + [v])[|vertices|..]) == VertexLines(ws[|vertices|..]) + [VertexLine(v.pos)];
        ws := ws + [v];
        obj' := obj' + [VertexLine(v.pos)];
        idx := idx + [|ws|];
      } else {
        idx := idx + [j + 1];
      }
    }
    assert pvs[..|pvs|] == pvs;
  }

  /** The triangles of one record, as the face loop writes them. */
  method WriteFan(idx: seq<int>, obj: seq<Line>) returns (obj': seq<Line>)
    requires |idx| >= 3
    ensures obj' == obj + FanLines(idx)
  {
    obj' := obj;
    var index1 := idx[0];
    var i := 0;
    while i < |idx| - 2
      invariant 0 <= i <= |idx| - 2
      invariant obj' == obj + FanLines(idx[..i + 2])
    {
      var index2, index3 := idx[i + 1], idx[i + 2];
      assert idx[..i + 3][..i + 2] == idx[..i + 2];
      obj' := obj' + [Face(index1, index2, index3)];
      i := i + 1;
    }
    assert idx[..i + 2] == idx;
  }

  /** The face loop: per record, its `usemtl` line when its storage holds a colour, its
      triangles and an empty line. `tables` is what the storages hold while it runs. */
  method WriteFaces(sts: seq<PolygonStruct>, ghost tables: Tables, obj: seq<Line>) returns (obj': seq<Line>)
    requires HasIndices(sts) && Covers(tables, sts)
    requires forall i :: 0 <= i < |sts| ==> tables[sts[i].storage] == sts[i].storage.entries
    ensures obj' == obj + FaceLines(sts, tables)
  {
    obj' := obj;
    for i := 0 to |sts|
      invariant obj' == obj + FaceLines(sts[..i], tables)
    {
      var st := sts[i];
      FaceLinesStep(sts, tables, i);
      var coloured := st.storage.Contains(ColorKey);
      var lines := if coloured then [UseMaterial(st.materialName)] else [];
      lines := WriteFan(st.indices, lines);
      lines := lines + [Text("")];
      AppendAssoc(obj, FaceLines(sts[..i], tables), lines);
      obj' := obj' + lines;
    }
    assert sts[..|sts|] == sts;
  }

  lemma AppendAssoc<T>(a: seq<T>, b: seq<T>, c: seq<T>)
    ensures (a + b) + c == a + (b + c)
  {
  }

  lemma FaceLinesStep(sts: seq<PolygonStruct>, tables: Tables, i: nat)
    requires HasIndices(sts) && Covers(tables, sts) && i < |sts|
    ensures var st := sts[i];
      FaceLines(sts[..i + 1], tables) == FaceLines(sts[..i], tables) + PolygonLines(st, ColorKey in tables[st.storage])
  {
    assert sts[..i + 1][..i] == sts[..i];
  }

  /** The MTL loop as written: for each coloured material, its colour is read with
      getValue<Color> and its name with getValue<string>. */
  method WriteMaterials(ms: seq<PropertyStorage>, ghost tables: Tables) returns (r: Result<seq<Line>>)
    requires Known(tables, ms) && forall k :: 0 <= k < |ms| ==> tables[ms[k]] == ms[k].entries
    ensures r == MtlAsWritten(ms, tables)
  {
    var mtl: seq<Line> := [];
    for k := 0 to |ms|
      invariant MtlAsWritten(ms[..k], tables) == Success(mtl)
    {
      var s := ms[k];
      assert ms[..k + 1][..k] == ms[..k];
      var coloured := s.Contains(ColorKey);
      if coloured {
        var colour := s.GetValue(ColorKey, ColourType);
        if colour.Failure? {
          MtlAsWrittenFailureStays(ms, tables, k + 1);
          return Failure(colour.error);
        }
        var name := s.GetValue(NameKey, StringType);
        var text := if name.Success? && name.value.Some? && name.value.value.Str? then name.value.value.s else "";
        mtl := mtl + [NewMaterial("material-" + text), Diffuse(colour.value.value)];
      }
    }
    assert ms[..|ms|] == ms;
    r := Success(mtl);
  }

  /** The material dictionary of the first pass: its keys in insertion order (`keys`) and
      the number it gives each, 1 for the first storage met, 2 for the next, and so on. */
  predicate Numbered(keys: seq<PropertyStorage>, names: map<PropertyStorage, int>)
  {
    && NoDuplicates(keys)
    && (forall k :: 0 <= k < |keys| ==> keys[k] in names && names[keys[k]] == k + 1)
    && (forall s :: s in names ==> s in keys)
  }

  /** One polygon's turn in the first pass: its vertices are indexed and written, its
      storage is numbered (and records the number under "material:name") when first met,
      and its record is appended. */
  method CollectPolygon(c: Collected, names: map<PropertyStorage, int>, p: Polygon, obj: seq<Line>)
    returns (c': Collected, names': map<PropertyStorage, int>, obj': seq<Line>)
    requires Numbered(c.materials, names)
    ensures c' == AddPolygon(c, p) && Numbered(c'.materials, names')
    ensures c'.materials == if p.storage in c.materials then c.materials else c.materials + [p.storage]
    ensures |c.vertices| <= |c'.vertices| && c'.vertices[..|c.vertices|] == c.vertices
    ensures obj' == obj + VertexLines(c'.vertices[|c.vertices|..])
  {
    var ws, idx;
    ws, idx, obj' := IndexPolygonVertices(c.vertices, p.vertices, obj);
    var s := p.storage;
    var ms := c.materials;
    names' := names;
    if s !in names {
      assert s !in ms;
      ms := ms + [s];
      names' := names[s := |ms|];
      forall i, j | 0 <= i < j < |ms| ensures ms[i] != ms[j] {
        if j < |ms| - 1 { assert ms[i] == c.materials[i] && ms[j] == c.materials[j]; }
      }
    } else {
      assert s in ms;
    }
    PositionInDistinct(ms, Position(ms, s));
    c' := Collected(ws, c.structs + [PolygonStruct(s, idx, MaterialName(names'[s]))], ms);
  }

  /** The storages' entries after the first pass: each numbered storage gets its number
      under "material:name"; nothing else changes. */
  function Stamp(orig: Tables, ms: seq<PropertyStorage>): (t: Tables)
    ensures t.Keys == orig.Keys
  {
    if ms == [] then orig
    else
      var t := Stamp(orig, ms[..|ms| - 1]);
      var s := ms[|ms| - 1];
      if s in t then t[s := t[s][NameKey := Int(|ms|)]] else t
  }

  /** A storage at place k of the (duplicate-free) material list ends up with k + 1 under
      "material:name" and its other entries kept; any other storage keeps its entries. */
  lemma {:induction false} StampMeaning(orig: Tables, ms: seq<PropertyStorage>)
    requires Known(orig, ms) && NoDuplicates(ms)
    ensures forall k :: 0 <= k < |ms| ==> Stamp(orig, ms)[ms[k]] == orig[ms[k]][NameKey := Int(k + 1)]
    ensures forall s :: s in orig && s !in ms ==> Stamp(orig, ms)[s] == orig[s]
  {
    if ms != [] {
      var init := ms[..|ms| - 1];
      StampMeaning(orig, init);
      forall k | 0 <= k < |ms| ensures Stamp(orig, ms)[ms[k]] == orig[ms[k]][NameKey := Int(k + 1)] {
        if k < |init| { assert ms[k] == init[k] != ms[|ms| - 1]; }
      }
    }
  }

  /** What the given polygons' storages hold now. */
  function EntriesOf(ps: seq<Polygon>): (t: Tables)
    reads StoragesOf(ps)
    ensures t.Keys == StoragesOf(ps)
    ensures forall j :: 0 <= j < |ps| ==> t[ps[j].storage] == ps[j].storage.entries
  {
    map s | s in StoragesOf(ps) :: s.entries
  }

  /** The first pass over the polygons: it writes the prelude and the vertex lines,
      collects the records and numbers the storages, recording each storage's number
      under "material:name". */
  method FirstPass(ps: seq<Polygon>) returns (c: Collected, obj: seq<Line>)
    modifies StoragesOf(ps)
    ensures c == Index(ps) && obj == Prelude + VertexLines(c.vertices)
    ensures Exportable(ps) ==> HasIndices(c.structs)
    ensures forall i :: 0 <= i < |c.structs| ==> c.structs[i].storage in c.materials
    ensures EntriesOf(ps) == Stamp(old(EntriesOf(ps)), c.materials)
  {
    var names;
    c, names, obj := CollectAll(ps);
    NumberStorages(ps, c.materials, names);
  }

  /** The collecting part of the first pass: vertices, records and storage numbers. */
  method CollectAll(ps: seq<Polygon>) returns (c: Collected, names: map<PropertyStorage, int>, obj: seq<Line>)
    ensures c == Index(ps) && Numbered(c.materials, names) && ListsMaterials(ps, c.materials)
    ensures Exportable(ps) ==> HasIndices(c.structs)
    ensures forall i :: 0 <= i < |c.structs| ==> c.structs[i].storage in c.materials
    ensures obj == Prelude + VertexLines(c.vertices)
  {
    obj := Prelude;
    c := Collected([], [], []);
    names := map[];
    for i := 0 to |ps|
      invariant c == Index(ps[..i]) && Numbered(c.materials, names)
      invariant obj == Prelude + VertexLines(c.vertices)
    {
      c, names, obj := CollectNext(ps, i, c, names, obj);
    }
    assert ps[..|ps|] == ps;
    IndexFacts(ps);
  }

  /** What the rest of the export relies on about the collected state. */
  lemma {:induction false} IndexFacts(ps: seq<Polygon>)
    ensures ListsMaterials(ps, Index(ps).materials)
    ensures Exportable(ps) ==> HasIndices(Index(ps).structs)
    ensures forall i :: 0 <= i < |Index(ps).structs| ==> Index(ps).structs[i].storage in Index(ps).materials
  {
    IndexListsMaterials(ps);
    IndexKeepsRecords(ps);
    if Exportable(ps) {
      IndexCovered(ps);
    }
  }

  /** The recording part of the first pass: storage.set("material:name", n) on the
      storage numbered n, for every numbered storage. */
  method NumberStorages(ps: seq<Polygon>, ms: seq<PropertyStorage>, names: map<PropertyStorage, int>)
    requires ListsMaterials(ps, ms) && Numbered(ms, names)
    modifies StoragesOf(ps)
    ensures EntriesOf(ps) == Stamp(old(EntriesOf(ps)), ms)
  {
    ghost var orig := EntriesOf(ps);
    for k := 0 to |ms|
      invariant EntriesOf(ps) == Stamp(orig, ms[..k])
    {
      var s := ms[k];
      assert StorageOf(ps, s);
      assert s in StoragesOf(ps);
      assert ms[..k + 1] == ms[..k] + [s];
      RecordNumber(ps, s, orig, ms[..k], names[s]);
    }
    assert ms[..|ms|] == ms;
  }

  /** One polygon's turn in the collecting loop: its new vertices, its record and, when
      its storage is met for the first time, that storage's number. */
  method CollectNext(ps: seq<Polygon>, i: nat, c: Collected, names: map<PropertyStorage, int>, obj: seq<Line>)
    returns (c': Collected, names': map<PropertyStorage, int>, obj': seq<Line>)
    requires i < |ps| && c == Index(ps[..i]) && Numbered(c.materials, names)
    requires obj == Prelude + VertexLines(c.vertices)
    ensures c' == Index(ps[..i + 1]) && Numbered(c'.materials, names')
    ensures obj' == Prelude + VertexLines(c'.vertices)
  {
    var more;
    IndexSnoc(ps, i);
    c', names', more := CollectPolygon(c, names, ps[i], obj);
    VertexLinesSplit(c.vertices, c'.vertices);
    AppendAssoc(Prelude, VertexLines(c.vertices), VertexLines(c'.vertices[|c.vertices|..]));
    obj' := more;
  }

  lemma StampSnoc(orig: Tables, ms: seq<PropertyStorage>, s: PropertyStorage)
    requires s in orig
    ensures var t := Stamp(orig, ms); Stamp(orig, ms + [s]) == t[s := t[s][NameKey := Int(|ms| + 1)]]
  {
    assert (ms + [s])[..|ms|] == ms;
  }

  /** storage.set("material:name", n) on the n-th storage met. */
  method RecordNumber(ps: seq<Polygon>, s: PropertyStorage, ghost orig: Tables, ms: seq<PropertyStorage>, n: int)
    requires s in StoragesOf(ps) && n == |ms| + 1 && EntriesOf(ps) == Stamp(orig, ms)
    modifies s
    ensures EntriesOf(ps) == Stamp(orig, ms + [s])
  {
    ghost var before := EntriesOf(ps);
    StampSnoc(orig, ms, s);
    s.Set(NameKey, Int(n));
    assert EntriesOf(ps) == before[s := before[s][NameKey := Int(n)]];
  }

  lemma IndexSnoc(ps: seq<Polygon>, i: nat)
    requires i < |ps|
    ensures Index(ps[..i + 1]) == AddPolygon(Index(ps[..i]), ps[i])
  {
    assert ps[..i + 1][..i] == ps[..i];
  }

  /** toObj(maxNumberOfVerts): only 3 is supported. The first pass records each storage's
      material number in the storage; the result is the OBJ and MTL text of the export as
      written, read from the storages as they are after that pass. */
  method ToObj(csg: CSG, maxNumberOfVerts: int) returns (r: Result<ObjFile>)
    requires Exportable(csg.polygons)
    modifies StoragesOf(csg.polygons)
    ensures maxNumberOfVerts != 3 ==> r == Failure(NotSupported) && EntriesOf(csg.polygons) == old(EntriesOf(csg.polygons))
    ensures maxNumberOfVerts == 3 ==> var ms := Index(csg.polygons).materials;
      && EntriesOf(csg.polygons) == Stamp(old(EntriesOf(csg.polygons)), ms)
      && r == Export(csg.polygons, Snapshot(ms))
  {
    if maxNumberOfVerts != 3 {
      return Failure(NotSupported);
    }
    var ps := csg.polygons;
    var c, obj := FirstPass(ps);
    ghost var tables := Snapshot(c.materials);
    obj := SecondPass(c, tables, obj);
    var mtl := WriteMaterials(c.materials, tables);
    r := match mtl
      case Failure(e) => Failure(e)
      case Success(lines) => Success(ObjFile(obj, lines));
  }

  /** The face section and the trailer. */
  method SecondPass(c: Collected, ghost tables: Tables, obj: seq<Line>) returns (obj': seq<Line>)
    requires HasIndices(c.structs) && Covers(tables, c.structs)
    requires forall i :: 0 <= i < |c.structs| ==> tables[c.structs[i].storage] == c.structs[i].storage.entries
    requires obj == Prelude + VertexLines(c.vertices)
    ensures obj' == ObjLines(c.vertices, c.structs, tables)
  {
    obj' := obj + FacesHeader;
    obj' := WriteFaces(c.structs, tables, obj');
    obj' := obj' + Trailer;
  }

  lemma VertexLinesSplit(vs: seq<Vertex>, ws: seq<Vertex>)
    requires |vs| <= |ws| && ws[..|vs|] == vs
    ensures VertexLines(ws) == VertexLines(vs) + VertexLines(ws[|vs|..])
  {
  }
}
