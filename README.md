# CSharpCSG in Dafny

A model of the constructive-solid-geometry engine of CSharpCSG, with proofs about it.
Solids are lists of convex polygons. Union, difference and intersection are computed with
binary space partitioning (BSP) trees, and several primitive generators make the polygons
of cuboids, spheres, cylinders, polyhedra and extrusions.

What the modules cover:

- **Values and storage.**
  - `Vectors`, `Trig`, `Vertices`, `Planes`, `Boxes`, `Matrices`: exact real arithmetic in
    place of doubles.
  - `Storage`: the property storage that polygons share by reference. It is a class whose
    entry map its methods update.
- **Polygons.** `Polygons` treats a polygon as a value. Its field `ref` stands for object
  identity: clones and new polygons take the next free number, which is threaded through
  every operation as `next`.
- **Splitting.** `Splitting` is `Plane.splitPolygon`. It classifies every vertex against a
  plane and routes the polygon, whole or cut in two, to one of four lists. `PolygonList`
  is a class standing for a caller-owned list.
- **BSP trees.**
  - `BspTrees` gives the tree operations as functions on a `Tree` datatype: invert, clip,
    clipTo, allPolygons and build.
  - `Nodes` holds the `Node` class, updated in place. Each method is proved equal to the
    function of the same name, through the node's `Model()`.
- **Boolean operations.**
  - `CSGs` holds the solid, its bounds, clone, dumbUnion and volume.
  - `Booleans` states union, difference and intersect, with their bounding-box short-cuts
    and list overloads, as functions.
  - `Solids` runs the same call sequences on `Node` objects and proves them equal to the
    functions.
- **OBJ export.** `ObjExport` is `toObj`: vertex indexing, triangle fans and materials.
- **Generators and helpers.**
  - `Edges`: edges, boundary paths and hole detection.
  - `Extrusions`: `combine`, `extrude` and the orientation test.
  - `Cubes`, `Spheres`, `Cylinders`, `Polyhedra`: the primitive generators. Each
    generator's `toPolygons` is a method proved equal to a specification function, and the
    shape of that function's result is stated as lemmas.
  - `Modifiers`: the vertex-weight modifiers.

Square roots and trigonometry are not computed:

- A vector is normalized by multiplying it with `recip(v)`, a parameter standing for
  1/|v|. The properties that need the real value assume `ExactRecip(recip)`.
- `Math.PI`, `Math.Cos` and `Math.Sin` are the parameter `Trig`. The properties that need
  them assume cos² + sin² = 1.

Exceptions the source throws are `Failure` results.

Where the library's own description and its code disagree, the model follows the code:

- A union with no short-cut set goes straight to the plain BSP union. No bounding-box test
  comes first (CSharpCSG/CSG.cs:318-327).
- `Node.build` removes repeated polygons by reference, not by value. `Polygon` has no
  `Equals` override (CSharpCSG/Node.cs:261).
- In a spanning split, the front fragment keeps the original vertex objects uncloned. The
  back fragment clones only the coplanar ones. Each cut vertex goes to the front and its
  clone to the back (CSharpCSG/Plane.cs:174-199).

## Model

| member | source | states |
|---|---|---|
| Vertices.New | CSharpCSG/Vertex.cs:59-71 | the public constructor keeps position and normal and gives the default weight 1.0 |
| Vertices.Clone | CSharpCSG/Vertex.cs:89-92 | a clone is Equals to the original, with the same normal and weight |
| Vertices.FlipOnlyNegatesNormal | CSharpCSG/Vertex.cs:97-100 | flip negates the normal only, keeps position and weight, and flipping twice restores the vertex |
| Vertices.Flip | CSharpCSG/Vertex.cs:97-100 | flip negates the normal (definition; its properties are FlipOnlyNegatesNormal) |
| Vertices.Interpolate | CSharpCSG/Vertex.cs:110-114 | interpolate: a new vertex whose position and normal are interpolated by t, with the default weight (definition; InterpolateEnds) |
| Vertices.InterpolateEnds | CSharpCSG/Vertex.cs:110-114 | interpolate at t = 0 gives this vertex's position and normal, at t = 1 the other's, and the weight is always the default 1.0 |
| Vertices.SetWeight | CSharpCSG/Vertex.cs:195-198 | setWeight keeps position and normal |
| Vertices.WeightRoundTrip | CSharpCSG/Vertex.cs:186-198 | getWeight after setWeight(w) is w, a second set overwrites, and setting the current weight changes nothing |
| Vertices.Equals | CSharpCSG/Vertex.cs:214-230 | Equals compares positions only (definition; EqualsAgreesWithHashCode) |
| Vertices.HashCode | CSharpCSG/Vertex.cs:207-212 | GetHashCode is 53·7 plus the position's hash in wrapping 32-bit arithmetic (definition; EqualsAgreesWithHashCode) |
| Vertices.Wrap32 | CSharpCSG/Vertex.cs:207-212 | C# int arithmetic: the result is in the 32-bit range and congruent to the exact value modulo 2^32 |
| Vertices.EqualsAgreesWithHashCode | CSharpCSG/Vertex.cs:207-230 | Equals compares positions only and GetHashCode reads only the position, so Equals vertices hash alike |
| Vertices.OpEquals | CSharpCSG/Vertex.cs:232-239 | == is true for the same reference and for two nulls, false when exactly one side is null, and Equals otherwise |
| Vertices.OpNotEquals | CSharpCSG/Vertex.cs:241-248 | operator != written out on its own: false for the same reference, true when exactly one side is null, not Equals otherwise (definition; NotEqualsNegatesEquals) |
| Vertices.NotEqualsNegatesEquals | CSharpCSG/Vertex.cs:241-248 | != as written is always the negation of == |
| Planes.FlipNegates | CSharpCSG/Plane.cs:112-116 | flip negates normal and dist, so flipping twice restores the plane and every signed distance changes sign |
| Planes.Flip | CSharpCSG/Plane.cs:112-116 | flip negates the normal and the distance (definition; FlipNegates) |
| Planes.CreateFromPoints | CSharpCSG/Plane.cs:98-102 | the plane through three points: the normalized edge cross product and its dot product with the first point (definition; CreateFromPointsContainsPoints) |
| Planes.Clone | CSharpCSG/Plane.cs:104-107 | clone builds a plane from the normal and distance, normalizing the normal again (definition) |
| Planes.CreateFromPointsContainsPoints | CSharpCSG/Plane.cs:84-107 | with an exact square root, the plane through three points contains all three, has a unit normal unless they are collinear and the zero normal exactly when they are, and clone returns an equal plane |
| Planes.Or | CSharpCSG/Plane.cs:146-154 | the polygon class is the bitwise or of the vertex classes: front bit set iff one side has it, back bit likewise |
| Planes.OrIsBitwise | CSharpCSG/Plane.cs:146-154 | Or agrees with the integer `\|` on the values 0..3 |
| Planes.KindByBits | CSharpCSG/Plane.cs:146-154 | a class 0..3 is determined by its front and back bits |
| Planes.Classify | CSharpCSG/Plane.cs:146-152 | a vertex is BACK iff n·p − dist < −EPSILON, FRONT iff > EPSILON, COPLANAR otherwise, never SPANNING |
| Planes.OnPlaneIsCoplanar | CSharpCSG/Plane.cs:146-152 | a point exactly on the plane is COPLANAR |
| Planes.ClassifyFlipped | CSharpCSG/Plane.cs:112-116 | against the flipped plane FRONT and BACK swap and COPLANAR stays |
| Boxes.New | CSharpCSG/Bounds.cs:63-80 | the box keeps min and max; 2·center = min + max; the extent is non-negative and is max − min on every axis where min ≤ max |
| Boxes.Clone | CSharpCSG/Bounds.cs:82-85 | a clone has the same min and max, and equals a box built by the constructor |
| Boxes.IntersectsPolygon | CSharpCSG/Bounds.cs:186-189 | intersects(Polygon) throws NotSupportedException for every polygon |
| Boxes.IntersectsMeansCommonPoint | CSharpCSG/Bounds.cs:199-217 | for boxes with min ≤ max, intersects holds iff some point lies in both; hence it is symmetric and reflexive |
| Boxes.ContainsCorners | CSharpCSG/Bounds.cs:63-80 | a box built from min ≤ max contains both corners and its center |
| Matrices.UnityAndZero | CSharpCSG/Matrix3d.cs:51-52 | UNITY·v = v and ZERO·v = 0 |
| Matrices.ScaledByOneAndZero | CSharpCSG/Matrix3d.cs:84-90 | times(1) keeps the matrix and times(0) gives ZERO |
| Matrices.Scaled | CSharpCSG/Matrix3d.cs:84-90 | times(a) multiplies every entry by a (definition; ScaledByOneAndZero) |
| Matrices.Apply | CSharpCSG/Matrix3d.cs:100-106 | times(v) is the matrix-vector product (definition; UnityAndZero, ApplyAdditive) |
| Matrices.ApplyAdditive | CSharpCSG/Matrix3d.cs:100-106 | times(v) is additive: M·(u + w) = M·u + M·w |
| Matrices.MaxOf3 | CSharpCSG/Matrix3d.cs:108-138 | throws for fewer than three values; otherwise returns one of the first three values and it is at least each of them |
| Storage.ColourIndex | CSharpCSG/PropertyStorage.cs:125-131 | the palette slot (int)(draw · 9) is a valid index for every draw in [0, 1) |
| Storage.DecimalText | CSharpCSG/PropertyStorage.cs:130 | the decimal text of a channel is non-empty and made of digits |
| Storage.Lookup | CSharpCSG/PropertyStorage.cs:87-99 | getValue<T>: the stored value when it is a T; a stored non-T casts null (throws for a value type); a missing key gives default(T) |
| Storage.PropertyStorage.constructor | CSharpCSG/PropertyStorage.cs:61-64 | a fresh storage holds only "material:color", the "R G B" text of the palette colour the draw picks |
| Storage.PropertyStorage.RandomColour | CSharpCSG/PropertyStorage.cs:125-131 | randomColor overwrites "material:color" with a palette colour's text and nothing else |
| Storage.PropertyStorage.Set | CSharpCSG/PropertyStorage.cs:73-76 | set stores the value under the key (overwriting), getValue then returns it, and every other key is unchanged |
| Storage.PropertyStorage.GetValue | CSharpCSG/PropertyStorage.cs:87-99 | getValue is Lookup on the current entries |
| Storage.PropertyStorage.Delete | CSharpCSG/PropertyStorage.cs:107-110 | delete removes the key, is a no-op for a missing key, and leaves every other key unchanged |
| Storage.PropertyStorage.Contains | CSharpCSG/PropertyStorage.cs:120-123 | contains holds iff the key is stored |
| Storage.SetThenGet | CSharpCSG/PropertyStorage.cs:73-99 | after set(k, v), contains(k) holds and getValue<T>(k) returns v when v is a T |
| Storage.SetOverwrites | CSharpCSG/PropertyStorage.cs:73-76 | setting a key twice leaves only the second value visible |
| Storage.OtherKeysUnchanged | CSharpCSG/PropertyStorage.cs:73-110 | set and delete of one key leave the lookup of every other key unchanged |
| Storage.FreshStorageColour | CSharpCSG/PropertyStorage.cs:52-64 | a fresh storage contains "material:color" as one of the nine colours' text; reading it as a string succeeds and as a Color throws |
| Polygons.CentroidOfOnePoint | CSharpCSG/Polygon.cs:545-555 | the centroid of vertices that all sit at one point is that point |
| Polygons.Centroid | CSharpCSG/Polygon.cs:545-555 | centroid is the mean of the vertex positions (definition; CentroidOfOnePoint) |
| Polygons.New | CSharpCSG/Polygon.cs:132-167 | the constructor fails (index out of range) exactly when there are fewer than three vertices; otherwise it keeps reference, storage, positions and weights, takes the plane through the first three positions, gives every vertex that plane's normal, and is valid exactly when the normal is non-zero |
| Polygons.Make | CSharpCSG/Polygon.cs:132-167 | the constructor on three or more vertices: the plane through the first three positions, every vertex given that normal, valid iff the normal is non-zero (definition; New, MakeIgnoresNormals, InvalidIffCollinear) |
| Polygons.MakeAllShape | CSharpCSG/Polygon.cs:132-144 | polygon k of a generator's run of constructor calls has reference next + k, the shared storage and the positions of vertex list k |
| Polygons.InvalidIffCollinear | CSharpCSG/Polygon.cs:146-167 | with an exact square root, a polygon is invalid exactly when its first three positions are collinear |
| Polygons.MakeIgnoresNormals | CSharpCSG/Polygon.cs:146-167 | the constructor's result depends only on the positions and weights it is given: the normals are overwritten |
| Polygons.FromPoints | CSharpCSG/Polygon.cs:430-490 | fromPoints succeeds exactly on three or more points, keeps the points in order with the default weight, the storage and the reference, and takes the plane through the first three |
| Polygons.CounterClockwiseTriangle | CSharpCSG/Polygon.cs:430-490 | the counter-clockwise triangle (1,1,0), (2,1,0), (1,2,0) gives a valid polygon with normal +z |
| Polygons.FromPointsUnitCross | CSharpCSG/Polygon.cs:218-229 | when the edge cross product u has unit length, fromPoints' normal is u, validity is u != 0, and after flip the normal is -u |
| Polygons.FlipOfCounterClockwiseTriangle | CSharpCSG/Polygon.cs:218-229 | the counter-clockwise triangle has normal -z after flip |
| Polygons.FlipTwice | CSharpCSG/Polygon.cs:218-229 | flip is an involution; it keeps identity, storage and validity and reverses the positions |
| Polygons.Flip | CSharpCSG/Polygon.cs:218-229 | flip flips every vertex, reverses their order and flips both planes; the polygon keeps its reference (definition; FlipTwice) |
| Polygons.Flipped | CSharpCSG/Polygon.cs:238-241 | flipped is clone() then flip() (definition; FlippedPositions) |
| Polygons.Clone | CSharpCSG/Polygon.cs:204-211 | clone runs the constructor on clones of the vertices with the same storage (definition; CloneShares, ClonePositions) |
| Polygons.FlippedPositions | CSharpCSG/Polygon.cs:238-241 | flipped is a new polygon (new reference) with the same storage and the positions in reverse order |
| Polygons.CloneShares | CSharpCSG/Polygon.cs:204-211 | a clone has the new reference, the same storage object and positions, and cloning a constructed polygon reconstructs it exactly under the new reference |
| Polygons.ClonePositions | CSharpCSG/Polygon.cs:204-211 | a clone has the new reference, the same storage and vertex k at the original's position k |
| Polygons.Fan | CSharpCSG/Polygon.cs:296-324 | the fan of n >= 3 points has n - 2 triangles, triangle i being (p0, p(i+1), p(i+2)); nothing for fewer points |
| Polygons.ToTriangles | CSharpCSG/Polygon.cs:296-324 | toTriangles gives one polygon per fan triangle, with the fan's positions, consecutive new references and a fresh, distinct storage each |
| Polygons.FanTriangle | CSharpCSG/Polygon.cs:310-317 | one loop pass makes fan triangle i as a polygon with a fresh storage |
| Polygons.StlFacets | CSharpCSG/Polygon.cs:261-289 | toStlString writes n - 2 facets, facet i being the plane normal with vertices 0, i+1, i+2, and nothing for fewer than three vertices |
| Polygons.MinCorner | CSharpCSG/Polygon.cs:497-543 | the minimum corner is below every point in each coordinate |
| Polygons.MaxCorner | CSharpCSG/Polygon.cs:497-543 | the maximum corner is above every point in each coordinate |
| Polygons.BoxOf | CSharpCSG/Polygon.cs:497-543 | the box of the points contains every point and is proper (min <= max) |
| Polygons.GetBounds | CSharpCSG/Polygon.cs:497-543 | the running min/max loop computes exactly the box of the vertex positions |
| Polygons.InOwnBounds | CSharpCSG/Polygon.cs:497-543 | a polygon is contained in its own bounds |
| Polygons.Intersects | CSharpCSG/Polygon.cs:665-673 | intersects is false exactly when the two boxes are disjoint, and otherwise fails as not implemented |
| Polygons.TranslateAsWrittenShape | CSharpCSG/Polygon.cs:332-349 | the library's translate moves every position by d and leaves the polygon with the unnormalized cross-product normal and the old distance |
| Polygons.TranslateAsWritten | CSharpCSG/Polygon.cs:332-349 | translate as written: every position moves by d, the plane normal becomes the raw edge cross product and the distance stays (definition; TranslateAsWrittenShape) |
| Polygons.TranslateAsWrittenLeavesPlaneBehind | CSharpCSG/Polygon.cs:332-349 | a triangle on its own plane, translated by (0,0,1) as written, has its first vertex classified FRONT of the plane it then carries |
| Polygons.StalePlaneAfterTranslate | CSharpCSG/Polygon.cs:338-344 | the unit triangle at the origin, translated up z by one as written, still carries the plane z = 0 |
| Polygons.TranslateMovesPlane | CSharpCSG/Polygon.cs:332-349 | the corrected translate keeps identity, storage and normal, moves every position by d, and its plane's distance grows by n·d so the three moved points lie on it |
| Polygons.Translate | CSharpCSG/Polygon.cs:332-349 | the corrected translate: positions move by d and the plane is rebuilt through them (definition; TranslateMovesPlane) |
| Polygons.FlippedForgetsTranslatePlane | CSharpCSG/Polygon.cs:238-241 | flipped() rebuilds the plane from the positions, so flipping the as-written translate and the corrected one gives the same polygon |
| Splitting.PolygonTypeBits | CSharpCSG/Plane.cs:146-154 | the or-ed class has the FRONT bit exactly when some vertex is FRONT, and the BACK bit exactly when some vertex is BACK |
| Splitting.PolygonTypeOfVertices | CSharpCSG/Plane.cs:146-154 | the polygon is COPLANAR iff every vertex is, FRONT iff some vertex is FRONT and none BACK, BACK symmetrically, SPANNING iff one is FRONT and another BACK |
| Splitting.ClassifyVertices | CSharpCSG/Plane.cs:146-154 | the classification loop computes the class list and its bitwise or |
| Splitting.CrossingEdge | CSharpCSG/Plane.cs:191-195 | an edge with one FRONT and one BACK end is not parallel to the plane, so the division for t is defined |
| Splitting.Cut | CSharpCSG/Plane.cs:191-198 | the interpolated cut point of a crossing edge lies on the plane and has the default weight |
| Splitting.SplitPolygon | CSharpCSG/Plane.cs:132-210 | a split never takes back references and delivers at most two polygons in total; what goes where is stated by SplitRouting and SpanningPieces |
| Splitting.SplitRouting | CSharpCSG/Plane.cs:156-171 | a polygon that does not span goes as the same object to exactly one list: coplanar-front iff coplanar and facing the plane's way, coplanar-back iff coplanar and not, front iff FRONT, back iff BACK; nothing is allocated |
| Splitting.SpanningPieces | CSharpCSG/Plane.cs:174-207 | a spanning polygon goes to neither coplanar list; its pieces are new polygons with the next references, sharing its storage, with no BACK vertex in the front piece and no FRONT vertex in the back piece; the pieces carry the positions of the two vertex lists, which hold the same cut points in the same order (the cut in front, its clone behind), all on the plane, interleaved with the originals of each side in order |
| Splitting.StepOnItsSide | CSharpCSG/Plane.cs:178-199 | one pass of the edge walk appends to the front list only originals that are not BACK or points on the plane, and symmetrically for the back list |
| Splitting.StepMarked | CSharpCSG/Plane.cs:178-199 | one pass appends to the front list the original vertex unless it is BACK, then the cut point if the edge crosses; to the back list the original unless it is FRONT, then the clone of the cut; marking the cut entries picks out exactly the cut and the kept original |
| Splitting.FrontInterleaves | CSharpCSG/Plane.cs:174-199 | after k passes the front list interleaves the cut points of the first k edges, in order, with the first k originals that are not BACK, in order |
| Splitting.BackInterleaves | CSharpCSG/Plane.cs:174-199 | after k passes the back list interleaves the same cut points, in the same order, with the first k originals that are not FRONT |
| Splitting.CutsOnPlane | CSharpCSG/Plane.cs:191-198 | every cut point the loop makes lies on the plane |
| Splitting.LoopSharesCuts | CSharpCSG/Plane.cs:174-199 | after the whole loop the front and back lists hold the same cut points in the same order, each list interleaving them with its own originals in order, and every cut point is on the plane |
| Splitting.FragmentsOnTheirSide | CSharpCSG/Plane.cs:174-199 | after any number of passes both fragment lists hold only vertices on their own side or on the plane |
| Splitting.SideMeansClass | CSharpCSG/Plane.cs:174-199 | a vertex on the front side is never classified BACK, and one on the back side never FRONT |
| Splitting.FragmentClasses | CSharpCSG/Plane.cs:174-199 | no vertex of the finished front list is BACK, none of the back list FRONT |
| Splitting.SpanningFragments | CSharpCSG/Plane.cs:174-199 | the edge-walking loop builds exactly the fragment lists, each on its own side |
| Splitting.PieceOnSide | CSharpCSG/Plane.cs:200-207 | a piece made from a fragment with no vertex of a class has no vertex of that class |
| Splitting.FragmentPositions | CSharpCSG/Plane.cs:200-207 | a fragment of three or more vertices becomes one polygon with the next reference, the shared storage and the fragment's positions; a shorter one is dropped |
| Splitting.PolygonList.Add | CSharpCSG/Plane.cs:164-171 | appending to a polygon list adds the polygon at the end |
| Splitting.SplitInto | CSharpCSG/Plane.cs:132-210 | splitPolygon leaves every list as it was plus what it receives in each of its roles, aliased lists included, and returns the next free reference |
| Splitting.RouteWhole | CSharpCSG/Plane.cs:158-171 | the non-spanning cases append the polygon once to the list its class selects |
| Splitting.AddPieces | CSharpCSG/Plane.cs:200-207 | the front piece is appended to front and then the back piece to back, each only when it has three or more vertices |
| Splitting.AddFragment | CSharpCSG/Plane.cs:200-207 | a fragment of three or more vertices is appended to its list as a new polygon under the next reference, which then advances; a shorter one changes nothing |
| Splitting.ReceivedPieces | CSharpCSG/Plane.cs:200-207 | from a spanning split a list receives the front piece if it is the front list, then the back piece if it is the back list, and nothing in a coplanar role |
| Splitting.ReceivedByTwo | CSharpCSG/Node.cs:180-183 | two distinct lists in the coplanar-front/front and coplanar-back/back roles receive their coplanar pieces then their side's pieces |
| Splitting.ReceivedByThree | CSharpCSG/Node.cs:267-270 | one list in both coplanar roles receives both coplanar parts; the two side lists receive their side only |
| Splitting.RoutePieces | CSharpCSG/Plane.cs:174-207 | the spanning case appends the two pieces to the lists in their roles and returns the next free reference |
| BspTrees.FlipAll | CSharpCSG/Node.cs:122-129 | every polygon of the list flipped, in order |
| BspTrees.FlipAllTwice | CSharpCSG/Node.cs:122-129 | flipping every polygon twice restores the list |
| BspTrees.InvertTwice | CSharpCSG/Node.cs:118-158 | inverting a well-formed tree keeps it well-formed, and inverting it twice gives the tree back |
| BspTrees.InvertFlipsEveryPolygon | CSharpCSG/Node.cs:118-158 | the inverted tree holds exactly the flipped polygons of the original, as a multiset |
| BspTrees.SplitForClip | CSharpCSG/Node.cs:177-183 | splitting a list for clipping never takes back references |
| BspTrees.SplitForClipStep | CSharpCSG/Node.cs:180-183 | one more polygon split appends its coplanar-front and front pieces to the front list and its coplanar-back and back pieces to the back list |
| BspTrees.Clip | CSharpCSG/Node.cs:169-199 | clipPolygons never takes back references |
| BspTrees.ClipTo | CSharpCSG/Node.cs:208-219 | clipTo never takes back references |
| BspTrees.ClipEmpty | CSharpCSG/Node.cs:169-199 | clipping an empty list gives an empty list and makes nothing |
| BspTrees.SplitForClipOutputs | CSharpCSG/Node.cs:177-183 | splitting for clipping hands out only the given polygons and newly made ones |
| BspTrees.SplitForClipFrontNotBehind | CSharpCSG/Node.cs:177-183 | no polygon in the front list of a split for clipping has a vertex behind the plane |
| BspTrees.SplitForClipKeepsFront | CSharpCSG/Node.cs:177-183 | a polygon wholly in front of the plane reaches the front list unchanged |
| BspTrees.ClipOutputs | CSharpCSG/Node.cs:169-199 | clipping hands out only the given polygons and newly made ones |
| BspTrees.ClipByLeaf | CSharpCSG/Node.cs:169-199 | clipping by a single node returns nothing with a vertex behind its plane and keeps every polygon wholly in front of it |
| BspTrees.ClipToKeepsShape | CSharpCSG/Node.cs:208-219 | clipTo keeps every plane where it was, keeps the tree well-formed, and leaves only polygons it held before or newly made ones |
| BspTrees.ValidOnlyKeepsValid | CSharpCSG/Node.cs:261 | Where(isValid) keeps exactly the valid polygons of the list |
| BspTrees.DistinctKeepsObjects | CSharpCSG/Node.cs:261 | Distinct keeps each object of the list exactly once, and nothing else |
| BspTrees.SplitForBuild | CSharpCSG/Node.cs:263-270 | splitting a list for build never takes back references |
| BspTrees.SplitForBuildStep | CSharpCSG/Node.cs:267-270 | one more polygon split appends both coplanar parts to the node's list, the front piece to front and the back piece to back |
| BspTrees.Partition | CSharpCSG/Node.cs:256-270 | the partition step never takes back references |
| BspTrees.Build | CSharpCSG/Node.cs:251-288 | build never takes back references |
| BspTrees.Descend | CSharpCSG/Node.cs:272-287 | descending into a child never takes back references |
| BspTrees.BuildCell | CSharpCSG/Node.cs:251-288 | build on a node with a non-empty list is the partition kept in the node and the two parts built into the children |
| BspTrees.BuildAllPolygons | CSharpCSG/Node.cs:251-288 | after build a node holds its old polygons and the coplanar parts, then the children's polygons |
| BspTrees.SplitOutputs | CSharpCSG/Plane.cs:132-210 | splitPolygon hands out the polygon itself or polygons made from the next reference on |
| BspTrees.FrontRolesNotBehind | CSharpCSG/Plane.cs:132-210 | what the two front roles receive has no vertex behind the plane |
| BspTrees.SplitForBuildOutputs | CSharpCSG/Node.cs:263-270 | splitting for build hands out only the given polygons and new ones |
| BspTrees.BuildKeepsOld | CSharpCSG/Node.cs:251-288 | build keeps every polygon the tree held |
| BspTrees.DescendKeepsOld | CSharpCSG/Node.cs:272-287 | descending keeps every polygon the child held |
| BspTrees.BuildAddsOnly | CSharpCSG/Node.cs:251-288 | build adds only polygons it was given and newly made ones |
| BspTrees.BuildWellFormed | CSharpCSG/Node.cs:251-288 | build keeps a tree well-formed, and a node built from a non-empty list has a plane |
| BspTrees.DescendWellFormed | CSharpCSG/Node.cs:272-287 | descending into a child keeps it well-formed |
| BspTrees.CloneAllCopies | CSharpCSG/Node.cs:101-108 | the cloned list holds copies of the polygons, one per polygon, sharing their storage, with consecutive new references |
| BspTrees.CloneTreeCell | CSharpCSG/Node.cs:89-113 | clone on a node is a copy of the plane, the clones of both subtrees, front first, then copies of the polygons |
| BspTrees.CloneTreeCopies | CSharpCSG/Node.cs:89-113 | a cloned tree holds, position for position, copies of the polygons under new references, one per polygon, and keeps a well-formed tree well-formed |
| Nodes.Node.Empty | CSharpCSG/Node.cs:87 | a new node has no polygons, no plane and no children |
| Nodes.NewNode | CSharpCSG/Node.cs:75-82 | Node(polygons) is an empty node built from the list |
| Nodes.Node.Invert | CSharpCSG/Node.cs:118-158 | invert changes the node and its subtrees in place into the inverted tree |
| Nodes.FlipEach | CSharpCSG/Node.cs:122-129 | the flipping loop flips every polygon, in order |
| Nodes.Node.ClipPolygons | CSharpCSG/Node.cs:169-199 | clipPolygons returns exactly the clipping of the list by the node's tree |
| Nodes.SplitEachForClip | CSharpCSG/Node.cs:177-183 | the clipping loop over splitPolygon gives exactly the front and back lists of the split for clipping |
| Nodes.ClipStep | CSharpCSG/Node.cs:180-183 | one turn of the clipping loop appends each piece to the list of its side |
| Nodes.Node.ClipTo | CSharpCSG/Node.cs:208-219 | clipTo changes every node's list in place to its clipping against bsp and leaves bsp as it is |
| Nodes.Node.AllPolygons | CSharpCSG/Node.cs:226-241 | allPolygons returns the node's polygons, then the front subtree's, then the back's |
| Nodes.Node.Build | CSharpCSG/Node.cs:251-288 | build changes the node in place to the built tree, allocating only fresh nodes |
| Nodes.Node.Partition | CSharpCSG/Node.cs:254-270 | the first half of build chooses the plane, keeps the coplanar parts and returns the front and back lists |
| Nodes.SplitEachForBuild | CSharpCSG/Node.cs:263-270 | the build loop over splitPolygon gives the node's list plus the coplanar parts, and the front and back lists |
| Nodes.BuildStep | CSharpCSG/Node.cs:267-270 | one turn of the build loop appends both coplanar parts to the node's list and each piece to the list of its side |
| Nodes.Node.BuildFront | CSharpCSG/Node.cs:272-279 | a non-empty front list is built into the front child, made when absent |
| Nodes.Node.BuildBack | CSharpCSG/Node.cs:280-287 | a non-empty back list is built into the back child, made when absent |
| Nodes.Node.Clone | CSharpCSG/Node.cs:89-113 | clone returns a fresh node tree equal to the cloned tree of values |
| CSGs.GetOptType | CSharpCSG/CSG.cs:84-87 | a solid's own choice of short-cut when it has one, otherwise the library-wide default |
| CSGs.FromPolygons | CSharpCSG/CSG.cs:187-194 | fromPolygons holds that very list and has no short-cut of its own |
| CSGs.FromPolygonsSharing | CSharpCSG/CSG.cs:216-230 | fromPolygons(storage, list) holds the list with every polygon given the storage |
| CSGs.SharingSetsOneStorage | CSharpCSG/CSG.cs:216-230 | afterwards every polygon shares the one storage and is otherwise the polygon it was |
| CSGs.Optimization | CSharpCSG/CSG.cs:287-291 | optimization sets the short-cut and keeps the polygons |
| CSGs.CloneCopies | CSharpCSG/CSG.cs:246-269 | a clone holds, position by position, copies of the polygons sharing their storage under new references, and keeps the effective short-cut |
| CSGs.Clone | CSharpCSG/CSG.cs:246-269 | clone: a solid of polygon clones under new references, carrying the effective short-cut (definition; CloneCopies) |
| CSGs.DumbUnionCopies | CSharpCSG/CSG.cs:345-354 | dumbUnion holds copies of this solid's polygons followed by copies of the other's, as many as both together, all new objects, with this solid's short-cut |
| CSGs.DumbUnion | CSharpCSG/CSG.cs:345-354 | dumbUnion: clones of both solids' polygons, this one's first (definition; DumbUnionCopies) |
| CSGs.InAllPositions | CSharpCSG/CSG.cs:111-170 | every vertex position of every polygon is among the positions getBounds scans |
| CSGs.BoundsContainEveryVertex | CSharpCSG/CSG.cs:111-170 | every vertex of every polygon lies in the solid's box, and a solid without polygons has the zero box at the origin |
| CSGs.Bounds | CSharpCSG/CSG.cs:111-170 | getBounds as a function: the box of all vertex positions, the zero box for none (definition; BoundsContainEveryVertex) |
| CSGs.GetBounds | CSharpCSG/CSG.cs:111-170 | the nested running min/max loop computes exactly the box of all vertex positions (the zero box for no polygons) |
| CSGs.Widen | CSharpCSG/CSG.cs:132-162 | the inner loop over one polygon's vertices widens the running corners to the corners of all positions so far |
| CSGs.ComputeVolume | CSharpCSG/CSG.cs:1282-1320 | computeVolume is 0 for no polygons, otherwise the absolute value of the summed signed fan-triangle volumes, hence never negative |
| CSGs.QuadFanVolume | CSharpCSG/CSG.cs:1294-1317 | the fan of a four-vertex face is its two triangles sharing the first vertex |
| CSGs.FaceFansSixth | CSharpCSG/Cube.cs:178-183 | each face of an origin-centred cube winds outward: its two fan triangles make up a sixth of the volume |
| CSGs.FaceVolume | CSharpCSG/CSG.cs:1294-1317 | each face of an origin-centred cube contributes a sixth of width × height × depth |
| CSGs.EqualShares | CSharpCSG/CSG.cs:1294-1317 | polygons that each contribute v contribute v times their number |
| CSGs.CubeVolume | CSharpCSG/CSG.cs:1282-1320 | computeVolume of an origin-centred cube is the absolute product of its dimensions (so 1 for the unit cube) |
| Booleans.NodeOfMade | CSharpCSG/CSG.cs:560-566 | the tree built from a solid's clones is well-formed and holds only new polygons |
| Booleans.BuildMade | CSharpCSG/Node.cs:251-288 | building new polygons into a tree of new polygons gives only new polygons |
| Booleans.ClipToMade | CSharpCSG/Node.cs:208-219 | clipping a tree of new polygons leaves only new polygons and keeps it well-formed |
| Booleans.InvertMade | CSharpCSG/Node.cs:118-158 | inverting a well-formed tree of new polygons keeps them new and the tree well-formed |
| Booleans.UnionTreesMade | CSharpCSG/CSG.cs:560-571 | the node-call sequence of the union hands out only new polygons |
| Booleans.DifferenceTreesMade | CSharpCSG/CSG.cs:714-731 | the node-call sequence of the difference hands out only new polygons |
| Booleans.IntersectTreesMade | CSharpCSG/CSG.cs:756-769 | the node-call sequence of intersect hands out only new polygons |
| Booleans.UnionMakesNew | CSharpCSG/CSG.cs:560-571 | the un-optimised union works on clones: every result polygon is a new object with three or more vertices, so the operands are untouched |
| Booleans.DifferenceMakesNew | CSharpCSG/CSG.cs:714-731 | the un-optimised difference works on clones only |
| Booleans.IntersectMakesNew | CSharpCSG/CSG.cs:756-769 | intersect works on clones only |
| Booleans.ClipToByEmpty | CSharpCSG/Node.cs:169-175 | clipping by a node that was never built keeps every polygon |
| Booleans.EmptyClipped | CSharpCSG/Node.cs:208-219 | a node that was never built stays so when clipped |
| Booleans.NodeOfNothing | CSharpCSG/Node.cs:254 | a solid without polygons gives the node that was never built |
| Booleans.UnionWithNothing | CSharpCSG/CSG.cs:560-571 | union with a solid without polygons is this solid's clones built into a tree and read back |
| Booleans.DifferenceOfNothing | CSharpCSG/CSG.cs:714-731 | the difference of a solid without polygons and B is B's clones rebuilt and flipped, because invert returns early on a node never built |
| Booleans.IntersectWithNothing | CSharpCSG/CSG.cs:756-769 | intersecting with a solid without polygons is this solid's clones built into a tree and read back, not the empty solid |
| Booleans.UnionTrees | CSharpCSG/CSG.cs:564-570 | the node calls of _unionNoOpt on two trees: a.clipTo(b), b.clipTo(a), b.invert(), b.clipTo(a), b.invert(), a.build(b.allPolygons()) (definition; UnionTreesMade, UnionWithNothing) |
| Booleans.DifferenceTrees | CSharpCSG/CSG.cs:720-729 | the node calls of _differenceNoOpt (definition; DifferenceTreesMade, DifferenceOfNothing) |
| Booleans.IntersectTrees | CSharpCSG/CSG.cs:761-768 | the node calls of intersect (definition; IntersectTreesMade, IntersectWithNothing) |
| Booleans.UnionNoOpt | CSharpCSG/CSG.cs:560-571 | _unionNoOpt: the union tree calls on fresh trees of both solids' clones (definition; UnionMakesNew, UnionWithNothing) |
| Booleans.DifferenceNoOpt | CSharpCSG/CSG.cs:714-731 | _differenceNoOpt: the difference tree calls on fresh trees of both solids' clones (definition; DifferenceMakesNew) |
| Booleans.Intersect | CSharpCSG/CSG.cs:756-769 | intersect: the intersect tree calls on fresh trees of both solids' clones (definition; IntersectMakesNew, IntersectWithNothing) |
| Booleans.HitsMeaning | CSharpCSG/CSG.cs:490-502 | flag i is whether polygon i's box meets the other solid's box |
| Booleans.KeptTogether | CSharpCSG/CSG.cs:490-502 | the two sides of the partition are, as a multiset, the polygons |
| Booleans.KeptSide | CSharpCSG/CSG.cs:490-502 | a kept polygon sits at a place whose flag is its side |
| Booleans.KeptEmptyIff | CSharpCSG/CSG.cs:490-502 | one side is empty exactly when no flag is that side, and then the other side keeps them all |
| Booleans.SidesStep | CSharpCSG/CSG.cs:490-502 | one more polygon goes inside when its box meets the box and outside otherwise |
| Booleans.InnerOuterPartition | CSharpCSG/CSG.cs:490-502 | inner and outer together are the polygons; every inner polygon meets the box and no outer one does |
| Booleans.InnerEmptyIff | CSharpCSG/CSG.cs:490-502 | nothing is inside exactly when no polygon's box meets the box, and then everything is outside |
| Booleans.UnionIntersectOpt | CSharpCSG/CSG.cs:530-558 | _unionIntersectOpt: the plain concatenation when no polygon box meets the other box, else the un-optimised union (definition; UnionIntersectOptCases) |
| Booleans.UnionPolygonBounds | CSharpCSG/CSG.cs:485-520 | _unionPolygonBoundsOpt: the polygons outside the other box kept, the rest united (definition; UnionPolygonBoundsCases) |
| Booleans.DifferencePolygonBounds | CSharpCSG/CSG.cs:686-712 | _differencePolygonBoundsOpt: the polygons outside the other box kept, the rest differenced (definition; DifferencePolygonBoundsCases) |
| Booleans.DifferenceCsgBounds | CSharpCSG/CSG.cs:676-684 | _differenceCSGBoundsOpt: with the other solid's box made into a solid twice, a1 = this − box and a2 = this ∩ box, and the result is (a2 − other) united with a1 by _unionIntersectOpt (definition; DifferenceCsgBoundsMakesNew) |
| Booleans.BoxSolidShape | CSharpCSG/Bounds.cs:113-122 | the box solid is six new polygons of four vertices |
| Booleans.UnionIntersectOptCases | CSharpCSG/CSG.cs:530-558 | when no polygon's box meets the other's box the result is the two lists concatenated, the same objects, nothing allocated; otherwise the full union |
| Booleans.UnionPolygonBoundsCases | CSharpCSG/CSG.cs:485-520 | the polygons missing the other's box come first, unchanged and in order, then the union of the rest; when all miss, the two lists concatenated |
| Booleans.DifferencePolygonBoundsCases | CSharpCSG/CSG.cs:686-712 | the polygons missing the other's box come first, unchanged; when all miss, the difference still runs and appends the other solid's polygons rebuilt and flipped |
| Booleans.DifferenceCsgBoundsMakesNew | CSharpCSG/CSG.cs:676-684 | the CSG_BOUND difference works on clones and new pieces only |
| Booleans.UnionIntersectOptShape | CSharpCSG/CSG.cs:530-558 | the result keeps every polygon's three vertices |
| Booleans.UnionIntersectOptMakesNew | CSharpCSG/CSG.cs:530-558 | with operands of new polygons only, the result holds new polygons only |
| Booleans.UnionPolygonBoundsShape | CSharpCSG/CSG.cs:485-520 | the result keeps every polygon's three vertices |
| Booleans.UnionShape | CSharpCSG/CSG.cs:316-328 | every union keeps every polygon's three vertices and carries this solid's effective short-cut |
| Booleans.Union | CSharpCSG/CSG.cs:316-328 | union dispatches on the effective short-cut: CSG_BOUND to _unionIntersectOpt, POLYGON_BOUND to _unionPolygonBoundsOpt, NONE to _unionNoOpt (definition; UnionShape) |
| Booleans.Difference | CSharpCSG/CSG.cs:663-674 | difference dispatches on the effective short-cut: CSG_BOUND to _differenceCSGBoundsOpt, POLYGON_BOUND to _differencePolygonBoundsOpt, NONE to _differenceNoOpt (definition; DifferenceCsgBoundsMakesNew, DifferencePolygonBoundsCases) |
| Booleans.UnionAll | CSharpCSG/CSG.cs:380-391 | the list union keeps the vertices, never takes back references and, for a non-empty list, carries this solid's short-cut |
| Booleans.UnionAllOfOne | CSharpCSG/CSG.cs:380-391 | the union over a one-solid list is the union with that solid |
| Booleans.ListOverloadsOfNothing | CSharpCSG/CSG.cs:595-611 | with an empty list, difference(list) and intersect(list) return a clone of this solid |
| Booleans.ListOverloadsOfOne | CSharpCSG/CSG.cs:794-810 | with one solid in the list, the overloads are the single operations on it |
| Booleans.IntersectAllSnoc | CSharpCSG/CSG.cs:794-810 | intersect(list) is A ∩ (B1 ∪ … ∪ Bk), the union folded from the first solid |
| Solids.NewNodeOf | CSharpCSG/CSG.cs:562-563 | new Node(c.clone().polygons) gives a fresh node tree holding the built tree of the clones |
| Solids.UnionNodes | CSharpCSG/CSG.cs:564-570 | the union's node calls on two separate trees compute the union sequence of tree operations |
| Solids.DifferenceNodes | CSharpCSG/CSG.cs:720-729 | the difference's node calls compute the difference sequence of tree operations |
| Solids.IntersectNodes | CSharpCSG/CSG.cs:761-768 | intersect's node calls compute the intersect sequence of tree operations |
| Solids.UnionNoOpt | CSharpCSG/CSG.cs:560-571 | _unionNoOpt on Node objects equals the union of the value model |
| Solids.DifferenceNoOpt | CSharpCSG/CSG.cs:714-731 | _differenceNoOpt on Node objects equals the difference of the value model |
| Solids.Intersect | CSharpCSG/CSG.cs:756-769 | intersect on Node objects equals the intersection of the value model |
| Solids.PartitionByBounds | CSharpCSG/CSG.cs:490-502 | the ForEach over the polygons yields exactly the inner and outer lists |
| Solids.AnyMeets | CSharpCSG/CSG.cs:536-543 | the early-exit loop finds an overlap exactly when the inner list is non-empty |
| Solids.UnionIntersectOpt | CSharpCSG/CSG.cs:530-558 | _unionIntersectOpt equals its value model |
| Solids.UnionPolygonBounds | CSharpCSG/CSG.cs:485-520 | _unionPolygonBoundsOpt equals its value model |
| Solids.DifferencePolygonBounds | CSharpCSG/CSG.cs:686-712 | _differencePolygonBoundsOpt equals its value model |
| Solids.BoxSolid | CSharpCSG/Bounds.cs:113-122 | toCSG on a fresh box is the cube of the box with a fresh storage |
| Solids.DifferenceCsgBounds | CSharpCSG/CSG.cs:676-684 | _differenceCSGBoundsOpt equals its value model, with the two box solids' fresh storages |
| Solids.Union | CSharpCSG/CSG.cs:316-328 | union dispatches on the short-cut as the value model does |
| Solids.Difference | CSharpCSG/CSG.cs:663-674 | difference dispatches on the short-cut as the value model does |
| Solids.UnionAll | CSharpCSG/CSG.cs:380-391 | the list-union loop equals the folded union |
| Solids.DifferenceAll | CSharpCSG/CSG.cs:595-611 | difference(list) equals its value model: a clone for an empty list, else the difference with the union of the list |
| Solids.IntersectAll | CSharpCSG/CSG.cs:794-810 | intersect(list) equals its value model |
| ObjExport.MaterialNamesDiffer | CSharpCSG/CSG.cs:933-940 | different material numbers give different material names |
| ObjExport.IndexOf | CSharpCSG/CSG.cs:919-927 | IndexOf is the first entry Equals to the vertex (same position), or -1 exactly when there is none |
| ObjExport.IndexVerticesSound | CSharpCSG/CSG.cs:917-929 | indexing keeps the listed vertices as a prefix and gives each polygon vertex the 1-based index of an entry at its position |
| ObjExport.IndexVerticesNew | CSharpCSG/CSG.cs:917-929 | the vertex list never holds a position twice, and every vertex it adds is one of the polygon's |
| ObjExport.IndexOfListed | CSharpCSG/CSG.cs:927 | a vertex at a listed position gets that entry's index |
| ObjExport.AddPolygon | CSharpCSG/CSG.cs:913-941 | each polygon's turn adds exactly one record |
| ObjExport.Index | CSharpCSG/CSG.cs:913-941 | the first pass makes one record per polygon |
| ObjExport.IndexSound | CSharpCSG/CSG.cs:913-941 | the first pass lists every distinct position once and only polygons' vertices; each record has one index per vertex, pointing at an entry with that vertex's position; the materials are the polygons' storages, each once, named by 1-based position |
| ObjExport.IndexListsVertices | CSharpCSG/CSG.cs:917-929 | the collected vertices have distinct positions and are all polygon vertices |
| ObjExport.IndexListsMaterials | CSharpCSG/CSG.cs:931-936 | the material keys are the polygons' storages, in first-met order, without duplicates |
| ObjExport.IndexKeepsRecords | CSharpCSG/CSG.cs:938-940 | every record agrees with the final vertex list and material keys |
| ObjExport.FanLinesShape | CSharpCSG/CSG.cs:956-967 | a polygon of k indices gives k - 2 face lines, line i being (first, i+1, i+2) |
| ObjExport.FaceLinesCount | CSharpCSG/CSG.cs:945-974 | the face section has, per polygon, a usemtl line exactly when its storage has a colour, its k - 2 triangles and one empty line |
| ObjExport.FaceLinesPrefix | CSharpCSG/CSG.cs:945-974 | the face section of a prefix of the records is a prefix of the face section |
| ObjExport.ColouredRecordUsesMaterial | CSharpCSG/CSG.cs:949-952 | a record whose storage holds a colour puts its usemtl line in the face section |
| ObjExport.VertexLines | CSharpCSG/CSG.cs:922 | one vertex line per listed vertex, in order |
| ObjExport.MtlAsWritten | CSharpCSG/CSG.cs:980-989 | the MTL loop as written fails only with a null-reference error |
| ObjExport.MtlAsWrittenFailureStays | CSharpCSG/CSG.cs:980-989 | once a prefix of the materials throws, the whole loop throws the same |
| ObjExport.MtlAsWrittenThrowsOnText | CSharpCSG/CSG.cs:980-989 | the MTL loop as written throws as soon as one coloured storage holds its colour as the text randomColor stores |
| ObjExport.ExportThrowsOnTextColour | CSharpCSG/CSG.cs:889-992 | toObj(3) as written throws for every solid whose first polygon carries such a storage, e.g. any primitive's |
| ObjExport.MtlAsWrittenDropsName | CSharpCSG/CSG.cs:984-986 | a storage with a real colour still gets the name "material-" instead of "material-1", since the number is an int read back as a string |
| ObjExport.MtlLinesNameEach | CSharpCSG/CSG.cs:980-989 | in the corrected MTL text a coloured material at position k gets its newmtl line under material-(k+1) with its colour |
| ObjExport.UsedMaterialsDefined | CSharpCSG/CSG.cs:940-952 | every usemtl name in the face section has its newmtl entry in the corrected MTL lines |
| ObjExport.ExportsAgreeOnObj | CSharpCSG/CSG.cs:889-992 | the export as written and the corrected export produce the same OBJ text; the written one fails only with a null reference |
| ObjExport.ExportCorrectedDefinesMaterials | CSharpCSG/CSG.cs:889-992 | the corrected export defines every material the OBJ text uses |
| ObjExport.Export | CSharpCSG/CSG.cs:889-992 | toObj(3) as written: the OBJ text of the two passes and the MTL text, or the MTL loop's exception (definition; ExportsAgreeOnObj, ExportThrowsOnTextColour) |
| ObjExport.ExportCorrected | CSharpCSG/CSG.cs:889-992 | the export with the corrected MTL text (definition; ExportCorrectedDefinesMaterials) |
| ObjExport.MtlLines | CSharpCSG/CSG.cs:980-989 | the corrected MTL text: for each coloured material, a newmtl line under the name its usemtl lines use and a Kd line with the stored colour (definition; MtlLinesNameEach, UsedMaterialsDefined) |
| ObjExport.IndexCovered | CSharpCSG/CSG.cs:913-941 | every record carries its polygon's storage, which is among the materials |
| ObjExport.Stamp | CSharpCSG/CSG.cs:935 | recording the material numbers touches exactly the storages it already knows |
| ObjExport.StampMeaning | CSharpCSG/CSG.cs:931-936 | the storage at place k gets k + 1 under "material:name" with its other entries kept; other storages are unchanged |
| ObjExport.WriteFan | CSharpCSG/CSG.cs:956-967 | the triangle loop appends exactly the polygon's fan lines |
| ObjExport.WriteFaces | CSharpCSG/CSG.cs:945-974 | the face loop appends exactly the face section |
| ObjExport.WriteMaterials | CSharpCSG/CSG.cs:980-989 | the MTL loop computes the MTL text as written, or its failure |
| ObjExport.CollectAll | CSharpCSG/CSG.cs:913-941 | the collecting loop computes the first pass's vertex list, records and numbered materials, and writes the prelude and vertex lines |
| ObjExport.FirstPass | CSharpCSG/CSG.cs:896-941 | the first pass writes the prelude and vertex lines, collects the records and stamps every storage with its number, changing nothing else |
| ObjExport.NumberStorages | CSharpCSG/CSG.cs:931-936 | set("material:name", n) on each numbered storage changes the storages exactly as the stamp says |
| ObjExport.RecordNumber | CSharpCSG/CSG.cs:935 | one set stamps one more storage |
| ObjExport.ToObj | CSharpCSG/CSG.cs:889-992 | toObj throws unless maxNumberOfVerts is 3 and then changes nothing; with 3 it stamps the storages and returns the export as written, read from the stamped storages |
| ObjExport.SecondPass | CSharpCSG/CSG.cs:943-976 | the face section and trailer complete the OBJ text |
| Edges.NewEdge | CSharpCSG/Edge.cs:53-59 | the constructor keeps both end vertices |
| Edges.FromPolygon | CSharpCSG/Edge.cs:89-101 | fromPolygon's loop appends edge i from vertex i to vertex (i + 1) mod n |
| Edges.ToVertices | CSharpCSG/Edge.cs:103-106 | toVertices is the first vertex of each edge, in order |
| Edges.ToPoints | CSharpCSG/Edge.cs:108-111 | toPoints is the position of the first vertex of each edge, in order |
| Edges.EdgesOfPolygonAreClosed | CSharpCSG/Edge.cs:89-111 | a polygon's edges form a closed chain whose first vertices are the polygon's vertices again |
| Edges.EqualsAsWrittenNotSymmetric | CSharpCSG/Edge.cs:548-559 | as written, Equals is not symmetric: the edge a→b equals a→a but not the other way round |
| Edges.EqualsAsWritten | CSharpCSG/Edge.cs:548-559 | Equals as written: each end of the argument equals one of this edge's ends (definition; EqualsAsWrittenNotSymmetric, EqualsAsWrittenOnProperEdges) |
| Edges.EqualsAsWrittenOnProperEdges | CSharpCSG/Edge.cs:548-559 | on edges with two distinct end points Equals as written is equality up to reversal |
| Edges.EdgeEqualsIsEquivalence | CSharpCSG/Edge.cs:548-559 | the intended edge equality is an equivalence that identifies an edge with its reverse |
| Edges.HashCodeOrderDependent | CSharpCSG/Edge.cs:534-540 | GetHashCode depends on end-point order, so an edge and its (equal) reverse can hash differently |
| Edges.HashCode | CSharpCSG/Edge.cs:534-540 | GetHashCode combines the end-point hashes in order, in wrapping 32-bit arithmetic (definition; HashCodeOrderDependent) |
| Edges.SymmetricHashCodeAgreesWithEquals | CSharpCSG/Edge.cs:534-559 | the corrected, order-independent hash gives equal edges equal codes for any position hash |
| Edges.NextUnused | CSharpCSG/Edge.cs:442-453 | nextUnused returns the smallest index whose flag is false, or -1 exactly when all are set |
| Edges.FirstWhere | CSharpCSG/Edge.cs:149-150 | the first index from k on whose edge satisfies the test, or none when no edge does |
| Edges.NextEdge | CSharpCSG/Edge.cs:149-150 | the walk's step fails (First() throws) exactly when no edge starts where the current one ends; otherwise it is an index of the list, the first edge that Equals as written accepts the found edge |
| Edges.NextEdgeOnProperEdges | CSharpCSG/Edge.cs:149-150 | when no edge starts and ends at one point, the step is the first edge equal, in either direction, to the first edge starting where the current one ends |
| Edges.DistinctBounded | CSharpCSG/Edge.cs:140-161 | a walk of distinct edges has at most as many steps as there are edges |
| Edges.PathGrows | CSharpCSG/Edge.cs:147 | visiting one more edge adds its first position to the path |
| Edges.WalkGrows | CSharpCSG/Edge.cs:152-160 | a step to an unused edge extends the walk |
| Edges.Walk | CSharpCSG/Edge.cs:140-161 | a walk starts at edge 0, visits distinct edges and goes from each to the next by the next-edge step (definition; WalkGrows, DistinctBounded) |
| Edges.MaximalWalkUnique | CSharpCSG/Edge.cs:141-163 | a walk that has stopped (its next edge used) or is stuck (no next edge) is the longest: every walk is a prefix of it, so the loop has exactly one way to end |
| Edges.BoundaryPath | CSharpCSG/Edge.cs:138-161 | the walk fails with an index error exactly on an empty list; otherwise it follows the next-edge step from edge 0, visiting each edge at most once; on success it has stopped at an edge already used (a closed walk) and returns the first positions of the visited edges, and any other failure is First() throwing at a stuck walk |
| Edges.ToPolygons | CSharpCSG/Edge.cs:135-170 | toPolygons fails on an empty list, throws InvalidOperation only when the walk gets stuck and an index error only for an empty list or a closed walk of fewer than three edges; on success one polygon with the given storage and reference whose positions are the path of a closed walk of three or more edges, every vertex with the plane's normal |
| Edges.FalseBoundaryEdgeShared | CSharpCSG/Edge.cs:793-809 | false whenever the edges share an end point; otherwise true exactly when an end point of e lies on fbe |
| Edges.Containers | CSharpCSG/Edge.cs:294-306 | the containers of polygon i are indices of the list |
| Edges.ContainersMeaning | CSharpCSG/Edge.cs:294-306 | the containers of i are exactly the other polygons that contain it, each once, in increasing order |
| Edges.Parents | CSharpCSG/Edge.cs:291-308 | one container list per polygon, all naming polygons of the list |
| Edges.CollectParents | CSharpCSG/Edge.cs:291-308 | the first loop computes every polygon's containers and marks a polygon a hole iff an odd number of others contain it |
| Edges.Deepest | CSharpCSG/Edge.cs:323-333 | the scan ends on its starting index or on a container |
| Edges.ParentAsWritten | CSharpCSG/Edge.cs:321-335 | the parent as written is an index of the list |
| Edges.ParentOf | CSharpCSG/Edge.cs:321-335 | the intended parent is an index of the list |
| Edges.DeepestFacts | CSharpCSG/Edge.cs:323-333 | the scan ends on the first container with a strictly larger count than every earlier one, or on its start when none beats it |
| Edges.ParentIsDeepestContainer | CSharpCSG/Edge.cs:321-335 | the intended parent is 0 without containers, otherwise the first container with the most containers of its own |
| Edges.ParentAsWrittenMissesContainer | CSharpCSG/Edge.cs:321-335 | as written, a hole whose only container is contained by nothing gets parent 0, which does not contain it |
| Edges.ParentAsWrittenWhenNested | CSharpCSG/Edge.cs:321-335 | when some container has containers of its own, the scan as written picks the intended parent |
| Edges.ParentAsWrittenContains | CSharpCSG/Edge.cs:321-335 | the parent as written is a container of the hole with the most containers of its own whenever some container is itself contained, and is polygon 0 when no container is |
| Edges.ChooseParent | CSharpCSG/Edge.cs:319-335 | the parent loop as written, starting from a count of 0 at index 0, computes ParentAsWritten |
| Edges.AddHole | CSharpCSG/Edge.cs:340-356 | the hole is appended to the storage's hole list, created when absent; nothing else in the storage changes |
| Edges.RegisterHoles | CSharpCSG/Edge.cs:317-358 | every storage ends with its old holes plus, in order, each hole whose parent as written (not a hole) has that storage; its other entries are kept |
| Edges.RegisterOne | CSharpCSG/Edge.cs:319-357 | one turn of the parent loop records polygon i with the storage of its parent as written when it is a hole and that parent is not; every other entry is kept |
| Edges.CopiesShareStorages | CSharpCSG/Edge.cs:286 | clones keep the storages of the originals |
| Edges.BoundaryPathsWithHoles | CSharpCSG/Edge.cs:283-361 | the result is clones of the paths in order under new references; a clone is a hole when an odd number of the others contain it, and every storage gains exactly the holes whose parent as written (not itself a hole) has that storage, and keeps its other entries |
| Extrusions.Combine | CSharpCSG/Extrude.cs:154-194 | combine fails exactly on profiles of different lengths (or a bottom profile the constructor refuses); otherwise p1 flipped when bottom, two side triangles per index with wrap-around, then p2 itself when top; count 2n + [bottom] + [top] |
| Extrusions.Sides | CSharpCSG/Extrude.cs:170-186 | the side loop makes 2n triangles, those of index i being (p1[j], p2[j], p2[i]) and (p1[j], p2[i], p1[i]) with j = (i + 1) mod n, all with p1's storage |
| Extrusions.Assembled | CSharpCSG/Extrude.cs:154-194 | base, sides and lid put together are what combine returns |
| Extrusions.BandsMeet | CSharpCSG/Extrude.cs:170-186 | neighbouring bands share every upright edge in opposite directions, so the tube is closed round its side |
| Extrusions.BottomIsTurnedOver | CSharpCSG/Extrude.cs:165-168 | the bottom is p1 turned over: p1's positions reversed, with p1's storage |
| Extrusions.ExtrudeSolid | CSharpCSG/Extrude.cs:196-232 | extrude throws exactly for a downward z direction (or a polygon the translation cannot clone); otherwise the convex pieces of the polygon, one side quad per vertex between the polygon and its copy translated as written, then the convex pieces of that copy flipped |
| Extrusions.StackedOf | CSharpCSG/Extrude.cs:205-228 | the base, the quads and the lid stack into the extrusion's polygon list |
| Extrusions.SideQuads | CSharpCSG/Extrude.cs:208-223 | the side-quad loop makes one four-vertex quad per vertex, (p[j], p[j] + dir, p[i] + dir, p[i]), with the polygon's storage |
| Extrusions.SideQuad | CSharpCSG/Extrude.cs:210-221 | side quad i has the positions (p[j], p[j] + dir, p[i] + dir, p[i]) for j = (i + 1) mod n and the polygon's storage (definition; SideQuads) |
| Extrusions.TranslatedPositions | CSharpCSG/Extrude.cs:206 | translated(dir), the library's translate as written on a clone, moves every position by dir and keeps the clone's reference and storage |
| Extrusions.LidIsMovedBase | CSharpCSG/Extrude.cs:225 | the lid is the base moved by dir and turned over, with the base's storage |
| Extrusions.CorrectedLid | CSharpCSG/Extrude.cs:206-225 | the lid built with the corrected translate, the reference LidForgetsStalePlane compares the lid with (definition) |
| Extrusions.Lid | CSharpCSG/Extrude.cs:206-225 | the lid is the clone translated as written and then flipped (definition; LidIsMovedBase) |
| Extrusions.LidForgetsStalePlane | CSharpCSG/Extrude.cs:206-225 | the lid built with translate as written equals the lid built with the corrected translate, because flipped() rebuilds the plane |
| Extrusions.PivotUnique | CSharpCSG/Extrude.cs:354-372 | there is at most one pivot |
| Extrusions.Highest | CSharpCSG/Extrude.cs:354-372 | the pivot scan ends on an index of the list |
| Extrusions.HighestIsPivot | CSharpCSG/Extrude.cs:354-372 | the scan ends on the pivot: the highest vertex, leftmost among the highest, first among equals |
| Extrusions.HighestLeft | CSharpCSG/Extrude.cs:354-372 | the search loop finds the pivot |
| Extrusions.TurnMeansNextSelected | CSharpCSG/Extrude.cs:374-416 | the index adjustments decide nothing of their own: the result is counter-clockwise exactly when the edge to the previous vertex has the larger normalized x |
| Extrusions.Ccw | CSharpCSG/Extrude.cs:345-417 | isCCW on three or more points: the turn at the pivot, the highest and leftmost vertex (definition; IsCCW, SquareOrientation) |
| Extrusions.IsCCW | CSharpCSG/Extrude.cs:345-417 | isCCW throws an argument error exactly for fewer than three vertices, otherwise decides by the pivot's turn |
| Extrusions.SquareOrientation | CSharpCSG/Extrude.cs:345-417 | the unit square listed counter-clockwise counts as counter-clockwise and listed clockwise does not |
| Extrusions.ReversedTwice | CSharpCSG/Extrude.cs:313-337 | reversing twice gives the list back |
| Extrusions.ToCCW | CSharpCSG/Extrude.cs:313-324 | toCCW fails exactly for fewer than three points, otherwise returns a new list: the input or its reverse, by isCCW |
| Extrusions.ToCW | CSharpCSG/Extrude.cs:326-337 | toCW fails exactly for fewer than three points, otherwise returns the reverse of a counter-clockwise list and the list otherwise |
| Extrusions.OrdersAreReverses | CSharpCSG/Extrude.cs:313-337 | toCCW gives the list or its reverse, and toCW is always the reverse of toCCW |
| Cubes.Bit | CSharpCSG/Cube.cs:192-194 | Math.Min(1, i & b) for b of 1, 2 or 4 is 0 or 1 |
| Cubes.CubePolygonsShape | CSharpCSG/Cube.cs:173-220 | toPolygons gives six faces of four vertices, each with the cube's shared storage and consecutive references; for a centred cube vertex k of face f sits at the table's corner k of face f |
| Cubes.CubePolygons | CSharpCSG/Cube.cs:173-220 | toPolygons: the six table faces with consecutive references, each moved by half the dimensions when the cube is not centred (definition; CubePolygonsShape, UncentredIsTranslated) |
| Cubes.FaceShape | CSharpCSG/Cube.cs:186-202 | one face: four vertices, the shared storage, its reference, and for a centred cube its table corners in order |
| Cubes.UncentredIsTranslated | CSharpCSG/Cube.cs:205-217 | each face of a cube that is not centred is the centred face moved by half the dimensions, with its plane moved along |
| Cubes.FaceUncentred | CSharpCSG/Cube.cs:205-217 | one face of UncentredIsTranslated |
| Cubes.CornerCoordinates | CSharpCSG/Cube.cs:189-195 | corner i is center + dims/2 on an axis exactly when i's bit for that axis is set, else center - dims/2 |
| Cubes.CornerInBox | CSharpCSG/Cube.cs:189-195 | with non-negative dimensions every corner lies in the box center ± dims/2 |
| Cubes.FaceOnItsSide | CSharpCSG/Cube.cs:178-183 | the four corners of each face lie on the side its table normal names (x = center.x - dims.x/2 for face 0, and so on) |
| Cubes.FaceWindsOutward | CSharpCSG/Cube.cs:178-183 | the edge cross product of each face is its table normal times the product of the other two dimensions, so each face winds counter-clockwise seen from outside |
| Cubes.Cube.constructor | CSharpCSG/Cube.cs:68-72 | center (0,0,0), dimensions (1,1,1), centred, a fresh storage |
| Cubes.Cube.OfSize | CSharpCSG/Cube.cs:81-85 | centred at the origin with size on every axis |
| Cubes.Cube.At | CSharpCSG/Cube.cs:95-99 | the given center and dimensions, centred |
| Cubes.Cube.OfDimensions | CSharpCSG/Cube.cs:110-111 | centred at the origin with dimensions (w, h, d) |
| Cubes.Cube.ToPolygons | CSharpCSG/Cube.cs:173-220 | the method returns exactly CubePolygons of the cube's fields and uses six references |
| Cubes.Cube.CentredFaces | CSharpCSG/Cube.cs:185-203 | the face loop returns the centred faces |
| Cubes.Cube.NewFace | CSharpCSG/Cube.cs:202 | the polygon constructor on face f's vertex list with the cube's storage |
| Cubes.Cube.Uncentre | CSharpCSG/Cube.cs:205-217 | every polygon moved by half the dimensions, in order |
| Cubes.Cube.FaceCorners | CSharpCSG/Cube.cs:188-201 | the inner loop builds face f's vertex list |
| Cubes.Cube.SetCenter | CSharpCSG/Cube.cs:233-236 | the center is replaced; nothing else changes |
| Cubes.Cube.SetDimensions | CSharpCSG/Cube.cs:249-252 | the dimensions are replaced; nothing else changes |
| Cubes.Cube.NoCenter | CSharpCSG/Cube.cs:266-270 | the cube is no longer centred, center and dimensions stay, and the same cube is returned |
| Spheres.DirectionIsUnit | CSharpCSG/Sphere.cs:123-133 | the direction sphereVertex computes has length one when cos² + sin² = 1 |
| Spheres.SphereVertex | CSharpCSG/Sphere.cs:123-133 | sphereVertex: the direction (cos θ sin φ, cos φ, sin θ sin φ), the vertex at c + r·dir with that normal (definition; DirectionIsUnit, OnSphere) |
| Spheres.OnSphere | CSharpCSG/Sphere.cs:123-133 | every sphere vertex lies at distance abs(r) from the center |
| Spheres.CellCorners | CSharpCSG/Sphere.cs:144-167 | a cell's corner list starts at (i, j), ends at (i, j + 1), and has between two and four corners |
| Spheres.CellArity | CSharpCSG/Sphere.cs:150-163 | the cells at the two poles have three corners and all others four; with a single stack every cell has two |
| Spheres.RowConstructible | CSharpCSG/Sphere.cs:142-169 | with two stacks or more every cell of a slice has the three vertices the polygon constructor needs |
| Spheres.SphereFailsIff | CSharpCSG/Sphere.cs:136-172 | toPolygons throws exactly when there is at least one slice and exactly one stack, because the two-vertex cell reaches the constructor |
| Spheres.SphereShape | CSharpCSG/Sphere.cs:136-172 | on success toPolygons makes slices·stacks polygons (none when either count is not positive), slice-major: polygon k is cell (k / stacks, k % stacks) with reference next + k, the shared storage, three vertices at the poles, four elsewhere, at the cell's corners in order |
| Spheres.SpherePolygons | CSharpCSG/Sphere.cs:136-172 | toPolygons: one polygon per slice and stack cell, slice by slice, or the constructor's exception (definition; SphereFailsIff, SphereShape, SphereCell) |
| Spheres.SphereCell | CSharpCSG/Sphere.cs:140-169 | the polygon at index i·stacks + j is cell (i, j) |
| Spheres.SphereOnSurface | CSharpCSG/Sphere.cs:123-172 | when cos² + sin² = 1 every vertex of every polygon lies on the sphere |
| Spheres.Sphere.constructor | CSharpCSG/Sphere.cs:65-68 | init's defaults: center at the origin, radius 1, 16 slices, 8 stacks, a fresh storage |
| Spheres.Sphere.OfRadius | CSharpCSG/Sphere.cs:76-80 | init's defaults with the given radius |
| Spheres.Sphere.OfResolution | CSharpCSG/Sphere.cs:90-96 | init's center with the given radius, slices and stacks |
| Spheres.Sphere.At | CSharpCSG/Sphere.cs:107-113 | every field as given |
| Spheres.Sphere.Init | CSharpCSG/Sphere.cs:115-121 | center at the origin, radius 1, 16 slices, 8 stacks |
| Spheres.Sphere.ToPolygons | CSharpCSG/Sphere.cs:136-172 | the nested loops return exactly SpherePolygons of the fields, and use one reference per polygon made |
| Spheres.Sphere.SliceCells | CSharpCSG/Sphere.cs:142-169 | the stack loop of slice i: nothing for no stacks, the constructor's exception for one stack, else one polygon per cell in stack order |
| Spheres.Sphere.CellVerticesOf | CSharpCSG/Sphere.cs:144-167 | the vertex list of cell (i, j), built as toPolygons builds it |
| Spheres.Sphere.SetCenter | CSharpCSG/Sphere.cs:185-188 | the center is replaced; nothing else changes |
| Spheres.Sphere.SetRadius | CSharpCSG/Sphere.cs:201-204 | the radius is replaced; nothing else changes |
| Spheres.Sphere.SetNumSlices | CSharpCSG/Sphere.cs:217-220 | the slice count is replaced; nothing else changes |
| Spheres.Sphere.SetNumStacks | CSharpCSG/Sphere.cs:233-236 | the stack count is replaced; nothing else changes |
| Cylinders.FrameOrthogonal | CSharpCSG/Cylinder.cs:161-166 | the axes toPolygons sets up are pairwise orthogonal, whatever square root is used |
| Cylinders.FrameOrthonormal | CSharpCSG/Cylinder.cs:161-166 | with an exact square root and distinct ends, the three axes also have length one |
| Cylinders.AcrossIsNonZero | CSharpCSG/Cylinder.cs:163-165 | the isY choice of x or y never gives a zero cross product with a unit axis, so axisX can be normalized |
| Cylinders.CylPointOnRim | CSharpCSG/Cylinder.cs:198-207 | with an orthonormal frame and cos² + sin² = 1, cylPoint lies at distance abs(r) from s + ray·stack, across the axis |
| Cylinders.CylPoint | CSharpCSG/Cylinder.cs:198-207 | cylPoint: s + ray·stack + r·(cos a·axisX + sin a·axisY), with the blended normal (definition; CylPointOnRim) |
| Cylinders.SliceSpots | CSharpCSG/Cylinder.cs:173-192 | each slice has a start cap of three corners, a side of four and an end cap of three |
| Cylinders.SpotKinds | CSharpCSG/Cylinder.cs:174-192 | the first corner of each cap is its apex vertex; every other corner is on the start rim (stack 0, startRadius) or the end rim (stack 1, endRadius), as the loop body lists them |
| Cylinders.SliceLists | CSharpCSG/Cylinder.cs:174-192 | every vertex list the loop body hands the constructor has at least three vertices, so toPolygons never throws |
| Cylinders.CylinderShape | CSharpCSG/Cylinder.cs:157-196 | toPolygons makes three polygons per slice (none for no slices): polygon 3i is slice i's start cap, 3i + 1 its side, 3i + 2 its end cap, each with the shared storage, reference next + 3i + k and vertices at the listed corners in order |
| Cylinders.CylinderPolygons | CSharpCSG/Cylinder.cs:157-196 | toPolygons: three polygons per slice, start cap, side and end cap (definition; CylinderShape, CylinderRims) |
| Cylinders.CylinderRims | CSharpCSG/Cylinder.cs:157-207 | each start cap starts at the start point and each end cap at the end point; with an exact square root, distinct ends and cos² + sin² = 1 every other vertex lies on the start rim (radius abs(startRadius) round start, across the axis) or the end rim |
| Cylinders.Cylinder.constructor | CSharpCSG/Cylinder.cs:65-72 | from (0, -0.5, 0) to (0, 0.5, 0), radius 1 at both ends, 16 slices, a fresh storage |
| Cylinders.Cylinder.Between | CSharpCSG/Cylinder.cs:85-92 | the given ends and slices, one radius at both ends |
| Cylinders.Cylinder.Tapered | CSharpCSG/Cylinder.cs:106-113 | every field as given |
| Cylinders.Cylinder.Upright | CSharpCSG/Cylinder.cs:126-133 | from the origin to (0, 0, height), one radius at both ends |
| Cylinders.Cylinder.UprightTapered | CSharpCSG/Cylinder.cs:147-154 | from the origin to (0, 0, height), with the two radii as given |
| Cylinders.Cylinder.ToPolygons | CSharpCSG/Cylinder.cs:157-196 | the slice loop returns exactly CylinderPolygons of the fields and uses one reference per polygon |
| Cylinders.Cylinder.SlicePolygons | CSharpCSG/Cylinder.cs:173-192 | the loop body's three polygons are the constructor on slice i's three vertex lists |
| Cylinders.Cylinder.SetStart | CSharpCSG/Cylinder.cs:220-223 | the start is replaced; nothing else changes |
| Cylinders.Cylinder.SetEnd | CSharpCSG/Cylinder.cs:236-239 | the end is replaced; nothing else changes |
| Cylinders.Cylinder.SetStartRadius | CSharpCSG/Cylinder.cs:252-255 | the start radius is replaced; nothing else changes |
| Cylinders.Cylinder.SetEndRadius | CSharpCSG/Cylinder.cs:268-271 | the end radius is replaced; nothing else changes |
| Cylinders.Cylinder.SetNumSlices | CSharpCSG/Cylinder.cs:284-287 | the slice count is replaced; nothing else changes |
| Polyhedra.FacePoints | CSharpCSG/Polyhedron.cs:93-95 | the face's index list mapped to points succeeds exactly when every index names a point, and then position k is the point at index face[k]; otherwise it throws an index error |
| Polyhedra.FacePolygon | CSharpCSG/Polyhedron.cs:94-95 | fromPoints on one face succeeds exactly when the face's indexes are in range and it has at least three, and then the polygon has the shared storage and a vertex at each indexed point in order |
| Polyhedra.Prepend | CSharpCSG/Polyhedron.cs:97 | a face's polygon before the rest's polygons; the first failure wins |
| Polyhedra.FacesPolygons | CSharpCSG/Polyhedron.cs:97 | one result per face, in face order; a failure is the index error |
| Polyhedra.FacesPolygonsOnFaces | CSharpCSG/Polyhedron.cs:90-98 | the faces' polygons exist exactly when every face is well formed, and then polygon f is on face f with reference next + f |
| Polyhedra.PrependOnFaces | CSharpCSG/Polyhedron.cs:97 | one face's polygon before the polygons of the others are the polygons of all faces |
| Polyhedra.Polyhedron.constructor | CSharpCSG/Polyhedron.cs:64-68 | copies of the point and face lists, a fresh storage |
| Polyhedra.Polyhedron.OfArrays | CSharpCSG/Polyhedron.cs:78-87 | the points, and face f a list copy of face array f, for every f |
| Polyhedra.Polyhedron.ToPolygons | CSharpCSG/Polyhedron.cs:90-98 | toPolygons throws exactly when some face has an index outside the point list or fewer than three points; otherwise one polygon per face, polygon f on face f with the shared storage |
| Modifiers.Modify | CSharpCSG/Modifier.cs:50-59 | every vertex of every polygon, in order, gets the weight the function gives for its position and the solid; nothing else about the polygons or vertices changes, nor the optimization type |
| Modifiers.ReweighedKeepsBounds | CSharpCSG/Modifier.cs:50-59 | setting weights never moves a position, so the solid's bounds stay the same |
| Modifiers.Modified | CSharpCSG/Modifier.cs:61-66 | the result holds copies of the input's polygons under new references, each reweighed with the function applied to the clone; it has the input's count and bounds |
| Modifiers.XModifier.constructor | CSharpCSG/XModifier.cs:60-62 | not centred, no bounds cached |
| Modifiers.XModifier.Centered | CSharpCSG/XModifier.cs:70-73 | the given centring, no bounds cached |
| Modifiers.XModifier.Eval | CSharpCSG/XModifier.cs:76-95 | the first call caches the solid's bounds and the weight per unit of x; later calls keep both, whatever solid they pass; the result is the x weight of pos over the cached bounds |
| Modifiers.Weigh | CSharpCSG/XModifier.cs:85-94 | once the bounds are cached the arithmetic gives XWeight: the fraction of the way along x, or centred twice its distance from one half |
| Modifiers.UncentredWeight | CSharpCSG/XModifier.cs:82-85 | uncentred, the weight is 0 at min.x, 1 at max.x and between 0 and 1 in between |
| Modifiers.CentredWeight | CSharpCSG/XModifier.cs:82-92 | centred, the weight is 1 at both ends along x, 0 in the middle and between 0 and 1 in between |
| Modifiers.ModifyX | CSharpCSG/Modifier.cs:50-59 | modify with an x modifier: a solid without polygons leaves the modifier alone; otherwise the first evaluation caches this solid's bounds unless an earlier call cached others, and every vertex gets the x weight over the cached bounds |
| Modifiers.ReweighX | CSharpCSG/Modifier.cs:54-57 | the inner loop: one polygon's vertices each get the x weight of their position, and the cache is set |

## Left out

- Floating point: coordinates are exact reals. `Plane.EPSILON` is kept in the classification, but rounding, NaN and infinities are not modelled.
- Square root and trigonometry: `normalized`, `magnitude`, `Math.Cos` and `Math.Sin` are the parameters `Recip` and `Trig`. Properties that need their true values assume `ExactRecip` or cos² + sin² = 1.
- Randomness: the `Random` draw in `PropertyStorage.randomColor` is a parameter `draw` in [0, 1) given to each constructor.
- Logging: the console warnings have no effect on results and are omitted.
- Parallel paths: the PLINQ branches taken above 200 polygons are not modelled. Only the sequential path is.
- Polygon.getStorage: the lazy creation of a storage when none is set is not modelled. Every constructor in the core passes a storage, so a polygon always has one.
- Polygon constructor aliasing: the constructor overwrites the normal of every vertex object it is given. Vertices are values here. So the model does not capture that the `startV`/`endV` objects shared by all cylinder caps end up with the normal of the last cap built.
- Hole lists: the `KEY_POLYGON_HOLES` entry is a value holding the holes' polygon references. Two storages aliasing one list object is not captured.
- Bounds.toCSG caching: the model computes the box's cube on a fresh box each time. Every call site in the core uses a fresh box, so the cache never hits there.
- Bounds and solid transforms: `Transform`, `Polygon.transform`, `Vertex.transform`, `CSG.transformed` and the other transform-based operations are not modelled. The core moves polygons in two places. The noCenter shift of `Cube` goes through `Polygon.transform`, which rebuilds the plane, and is `Polygons.Translate`. The lid of `extrude` comes from `translated(dir)`, the library's translate as written, and is `Polygons.TranslateAsWritten`; `Extrusions.LidForgetsStalePlane` proves that the stale plane it leaves does not reach the lid, because `flipped()` rebuilds it.
- Convex hull and RoundedCube: they delegate to an external hull library.
- Concave-polygon triangulation: `concaveToConvex` is the function parameter `toConvex` of `Extrusions.ExtrudeSolid`.
- Point and containment tests: `Polygon.contains(point)` and `Edge.contains(point)` are floating-point geometry. They are parameters: of `Polygons.ContainsPolygon`, of `Edges.FalseBoundaryEdgeShared` (as `onEdge`), and of the hole detection in `Edges.Containers`, which takes polygon containment as `contains`.
- Output: file I/O, the viewer meshes and number formatting are not modelled. A vertex or colour line carries its value, not its text.
- CSG extras: the solid's own storage and the `color`, `weighted`, `transformed` and `toStlString` operations of `CSG` are not modelled. The polygon-level `toStlString` structure is, as `Polygons.StlFacets`.
- BspTrees.Build: takes a `fuel` bound on recursion depth and returns the tree unchanged when the fuel runs out. Termination of the source's recursion, which depends on split fragments shrinking, is not proved. Every statement about build holds for any fuel.
- Nodes.Node.Build: the same fuel bound as `BspTrees.Build`.
- Modifiers.XModifier.Eval: requires the first solid's bounds to have positive width along x. The source divides by zero there and yields an infinite or NaN weight, which reals cannot represent.
- Modifiers.Modify: the weight function is handed the solid as it was before any weight was set. The source hands it the solid being reweighed, which differs only in weights. The x-axis weight function reads only positions.
- Modifiers.ModifyX: the same precondition as `XModifier.Eval`.
- Polyhedra.Polyhedron.OfArrays: null arrays, and null entries in the face array, are not modelled.

## Findings

The operations run the code as written. Each finding's intended behaviour is a separate definition with its property proved, and where the two agree a lemma says so (ObjExport.ExportsAgreeOnObj, Edges.EqualsAsWrittenOnProperEdges, Edges.ParentAsWrittenWhenNested, Extrusions.LidForgetsStalePlane).

| source | as written | input that shows it | evidently intended | confidence | as-written member | corrected member |
|---|---|---|---|---|---|---|
| CSharpCSG/CSG.cs:984 | the MTL loop reads "material:color" with `getValue<Color>`, but the storage constructor stores the colour as text, so the cast of null to the Color struct throws | any solid made from a primitive, exported with `toObj(3)` | one `newmtl` entry per coloured storage, carrying the stored colour, and no exception | high, not executed | ObjExport.ExportThrowsOnTextColour | ObjExport.ExportCorrectedDefinesMaterials |
| CSharpCSG/CSG.cs:985-986 | the MTL loop reads the material number, stored under "material:name" as an int, back as a string, which gives null | a storage holding a Color value numbered 1 gets `newmtl material-` | `newmtl material-1`, the name its `usemtl` lines use | high, not executed | ObjExport.MtlAsWrittenDropsName | ObjExport.MtlLinesNameEach |
| CSharpCSG/Polygon.cs:332-349 | translate moves the vertices but sets the BSP plane normal to the unnormalized edge cross product and keeps the old distance | the unit triangle at the origin translated by (0, 0, 1) keeps the plane z = 0, and its own vertices classify FRONT of it | the plane rebuilt through the moved points, as `transform` does | high, not executed | Polygons.TranslateAsWrittenLeavesPlaneBehind | Polygons.TranslateMovesPlane |
| CSharpCSG/Edge.cs:548-559 | Equals checks that each of e's endpoints equals one of this edge's endpoints, which is not symmetric when an edge's two ends coincide | edge (a, b) equals edge (a, a), but (a, a) does not equal (a, b), for a != b | the same two endpoints in either order | medium, not executed | Edges.EqualsAsWrittenNotSymmetric | Edges.EdgeEqualsIsEquivalence |
| CSharpCSG/Edge.cs:534-540 | GetHashCode combines the endpoint hashes in order, while Equals ignores order | edges (a, b) and (b, a) are equal; with position hashes 0 for a and 1 for b their hashes are 62000 and 62070 | equal edges hash alike, for instance by a symmetric combination | high, not executed | Edges.HashCodeOrderDependent | Edges.SymmetricHashCodeAgreesWithEquals |
| CSharpCSG/Edge.cs:321-335 | the parent scan starts with max = 0 and maxIndex = 0 and updates only on a strictly larger count, so a hole whose containers have no containers of their own gets parent 0 | three paths where only path 2 contains path 1 (container lists [], [2], []): path 1 is a hole with parent 0, which does not contain it, and it is added to path 0's hole list; ChooseParent, RegisterHoles and BoundaryPathsWithHoles run this scan as written | the first container with the most containers of its own, ParentOf | high, not executed | Edges.ParentAsWrittenMissesContainer | Edges.ParentIsDeepestContainer |
