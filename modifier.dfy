/**
 * Vertex weights (CSharpCSG/Modifier.cs, CSharpCSG/XModifier.cs). A modifier
 * visits every vertex of every polygon and sets its weight to what a weight
 * function gives for the vertex position. A pure weight function is a function
 * parameter here; the x-axis weight function caches the solid's bounds on its first
 * call, so it is an object whose fields change.
 */
module Modifiers {
  import opened Vectors
  import opened Wrappers
  import opened Vertices
  import opened Polygons
  import Boxes
  import opened BspTrees
  import opened CSGs

  /** q is p with every vertex weight set to w(position): nothing else about the
      polygon or its vertices differs. */
  predicate Reweighed(q: Polygon, p: Polygon, w: Vec3 -> real)
  {
    && q.ref == p.ref && q.plane == p.plane && q.surface == p.surface
    && q.storage == p.storage && q.valid == p.valid
    && |q.vertices| == |p.vertices|
    && forall j :: 0 <= j < |q.vertices| ==>
         && q.vertices[j].pos == p.vertices[j].pos
         && q.vertices[j].normal == p.vertices[j].normal
         && GetWeight(q.vertices[j]) == w(p.vertices[j].pos)
  }

  /** Element by element, qs are the polygons ps reweighed by w, in the same order. */
  predicate AllReweighed(qs: seq<Polygon>, ps: seq<Polygon>, w: Vec3 -> real)
  {
    |qs| == |ps| && forall i :: 0 <= i < |qs| ==> Reweighed(qs[i], ps[i], w)
  }

  /** modify(csg): for each polygon and each of its vertices, setWeight(eval(pos, csg)).
      The weight function sees the solid it was given. */
  method Modify(c: CSG, eval: (Vec3, CSG) -> real) returns (r: CSG)
    ensures r.optType == c.optType
    ensures AllReweighed(r.polygons, c.polygons, pos => eval(pos, c))
  {
    var ps := c.polygons;
    var done: seq<Polygon> := [];
    var i := 0;
    while i < |ps|
      invariant 0 <= i <= |ps|
      invariant AllReweighed(done, ps[..i], pos => eval(pos, c))
    {
      var p := ps[i];
      var vs: seq<Vertex> := [];
      var j := 0;
      while j < |p.vertices|
        invariant 0 <= j <= |p.vertices|
        invariant |vs| == j
        invariant forall k :: 0 <= k < j ==>
          vs[k].pos == p.vertices[k].pos && vs[k].normal == p.vertices[k].normal
          && GetWeight(vs[k]) == eval(p.vertices[k].pos, c)
      {
        var v := p.vertices[j];
        vs := vs + [SetWeight(v, eval(v.pos, c))];
        j := j + 1;
      }
      assert Reweighed(p.(vertices := vs), ps[i], pos => eval(pos, c));
      done := done + [p.(vertices := vs)];
      i := i + 1;
    }
    assert ps[..i] == ps;
    r := c.(polygons := done);
  }

  /** Reweighing never changes a position, so the bounds of the solid stay those of its
      input. */
  lemma {:induction false} ReweighedKeepsBounds(qs: seq<Polygon>, ps: seq<Polygon>, w: Vec3 -> real)
    requires AllReweighed(qs, ps, w) && Proper(ps)
    ensures Proper(qs) && Bounds(qs) == Bounds(ps)
  {
    forall i | 0 <= i < |qs| ensures Positions(qs[i].vertices) == Positions(ps[i].vertices) {
    }
    SamePositionsSameBounds(qs, ps);
  }

  lemma {:induction false} SamePositionsSameBounds(qs: seq<Polygon>, ps: seq<Polygon>)
    requires |qs| == |ps| && Proper(ps)
    requires forall i :: 0 <= i < |qs| ==> Positions(qs[i].vertices) == Positions(ps[i].vertices)
    ensures Proper(qs) && AllPositions(qs) == AllPositions(ps) && Bounds(qs) == Bounds(ps)
  {
    forall i | 0 <= i < |qs| ensures |qs[i].vertices| >= 3 {
      assert |Positions(qs[i].vertices)| == |Positions(ps[i].vertices)|;
    }
    if qs != [] {
      var n := |qs| - 1;
      SamePositionsSameBounds(qs[..n], ps[..n]);
      assert AllPositions(qs) == AllPositions(qs[..n]) + Positions(qs[n].vertices);
      assert AllPositions(ps) == AllPositions(ps[..n]) + Positions(ps[n].vertices);
    }
  }

  /** modified(csg): modify a clone of the solid and return the clone. The clone holds
      copies of the input's polygons, in order, under new references, each with the
      weights the function gives; the input is a value and so keeps its weights. */
  method Modified(c: CSG, eval: (Vec3, CSG) -> real, defaultOpt: OptType, next: nat, recip: Recip)
    returns (r: CSG, next': nat)
    requires Proper(c.polygons)
    ensures |r.polygons| == |c.polygons| && next' == next + |c.polygons|
    ensures Proper(r.polygons) && Bounds(r.polygons) == Bounds(c.polygons)
    ensures exists cl :: Copies(cl, c.polygons, next, next')
              && AllReweighed(r.polygons, cl, pos => eval(pos, CSG(cl, Some(GetOptType(c, defaultOpt)))))
  {
    var cl := CSGs.Clone(c, defaultOpt, next, recip);
    var result := cl.0;
    next' := cl.1;
    CloneCopies(c, defaultOpt, next, recip);
    r := Modify(result, eval);
    ReweighedKeepsBounds(r.polygons, result.polygons, pos => eval(pos, result));
    SamePositionsSameBounds(result.polygons, c.polygons);
  }

  /** The weight range of the x-axis weight function, fixed at [0, 1]. */
  const WeightMin: real := 0.0
  const WeightMax: real := 1.0

  /** The x-axis weight function: the linear weight along x over the solid's bounds,
      optionally folded about the middle. */
  class XModifier {
    /** The bounds of the first solid evaluated, unset before the first call. */
    var bounds: Option<Boxes.Bounds>
    /** Weight per unit of x, set with the bounds. */
    var sPerUnit: real
    const centered: bool

    /** The cache, once set, is a box of positive width along x and sPerUnit is the
        weight range over that width. */
    predicate Valid()
      reads this
    {
      bounds.Some? ==>
        && bounds.value.max.x > bounds.value.min.x
        && sPerUnit == PerUnit(bounds.value)
    }

    /** XModifier(): not centred, nothing cached. */
    constructor ()
      ensures Valid() && bounds.None? && !centered
    {
      centered := false;
      bounds := None;
    }

    /** XModifier(centered): nothing cached. */
    constructor Centered(centered: bool)
      ensures Valid() && bounds.None? && this.centered == centered
    {
      this.centered := centered;
      bounds := None;
    }

    /** eval(pos, csg): on the first call cache the bounds of csg and sPerUnit, then the
        weight of pos.x against the cached bounds, whatever solid later calls pass. */
    method Eval(pos: Vec3, csg: CSG) returns (s: real)
      requires Valid() && Proper(csg.polygons)
      requires bounds.None? ==> Bounds(csg.polygons).max.x > Bounds(csg.polygons).min.x
      modifies this
      ensures Valid()
      ensures bounds == if old(bounds).None? then Some(Bounds(csg.polygons)) else old(bounds)
      ensures old(bounds).Some? ==> sPerUnit == old(sPerUnit)
      ensures s == XWeight(bounds.value, centered, pos.x)
    {
      if bounds.None? {
        var b := CSGs.GetBounds(csg);
        bounds := Some(b);
        sPerUnit := (WeightMax - WeightMin) / (b.max.x - b.min.x);
      }
      s := Weigh(sPerUnit, bounds.value, centered, pos.x);
    }
  }

  /** The arithmetic of eval once the bounds are cached: s = sPerUnit * (x - min.x),
      then, centred, twice the distance of s from the middle of the weight range. */
  method Weigh(sPerUnit: real, b: Boxes.Bounds, centered: bool, x: real) returns (s: real)
    requires b.max.x > b.min.x && sPerUnit == PerUnit(b)
    ensures s == XWeight(b, centered, x)
  {
    s := sPerUnit * (x - b.min.x);
    if centered {
      s := s - (WeightMax - WeightMin) / 2.0;
      s := Abs(s) * 2.0;
    }
  }

  /** The weight at x over a box of positive width: the fraction of the way from min.x
      to max.x, or, centred, twice the distance of that fraction from one half. */
  function XWeight(b: Boxes.Bounds, centered: bool, x: real): real
    requires b.max.x > b.min.x
  {
    var s := PerUnit(b) * (x - b.min.x);
    if centered then Abs(s - (WeightMax - WeightMin) / 2.0) * 2.0 else s
  }

  /** The weight range over the width of the box along x. */
  function PerUnit(b: Boxes.Bounds): real
    requires b.max.x > b.min.x
  {
    (WeightMax - WeightMin) / (b.max.x - b.min.x)
  }

  /** Uncentred, the weight is 0 at min.x, 1 at max.x and in [0, 1] between them. */
  lemma UncentredWeight(b: Boxes.Bounds, x: real)
    requires b.max.x > b.min.x
    ensures XWeight(b, false, b.min.x) == 0.0 && XWeight(b, false, b.max.x) == 1.0
    ensures b.min.x <= x <= b.max.x ==> 0.0 <= XWeight(b, false, x) <= 1.0
  {
    var w := b.max.x - b.min.x;
    assert XWeight(b, false, x) == (x - b.min.x) / w;
    assert XWeight(b, false, b.max.x) == w / w;
    if b.min.x <= x <= b.max.x {
      FractionInUnit(x - b.min.x, w);
    }
  }

  lemma FractionInUnit(d: real, w: real)
    requires w > 0.0 && 0.0 <= d <= w
    ensures 0.0 <= d / w <= 1.0
  {
    assert d / w * w == d;
  }

  /** Centred, the weight is 1 at both ends of the box along x, 0 at its middle and in
      [0, 1] between the ends. */
  lemma CentredWeight(b: Boxes.Bounds, x: real)
    requires b.max.x > b.min.x
    ensures XWeight(b, true, b.min.x) == 1.0 && XWeight(b, true, b.max.x) == 1.0
    ensures XWeight(b, true, (b.min.x + b.max.x) / 2.0) == 0.0
    ensures b.min.x <= x <= b.max.x ==> 0.0 <= XWeight(b, true, x) <= 1.0
  {
    var w := b.max.x - b.min.x;
    UncentredWeight(b, x);
    assert XWeight(b, false, (b.min.x + b.max.x) / 2.0) == 0.5 by {
      assert (b.min.x + b.max.x) / 2.0 - b.min.x == w / 2.0;
    }
  }

  /** modify with an x-axis modifier: every vertex weight becomes the x weight over the
      box the modifier caches on its first call, which is this solid's box unless an
      earlier call cached another. A solid without polygons leaves the modifier as it
      was. The weight function is given the input solid, whose positions (and so whose
      bounds) are those of the solid being modified. */
  method ModifyX(c: CSG, xm: XModifier) returns (r: CSG)
    requires xm.Valid() && Proper(c.polygons)
    requires xm.bounds.None? ==> Bounds(c.polygons).max.x > Bounds(c.polygons).min.x
    modifies xm
    ensures xm.Valid() && r.optType == c.optType
    ensures c.polygons == [] ==> xm.bounds == old(xm.bounds) && r.polygons == []
    ensures c.polygons != [] ==>
      && xm.bounds == (if old(xm.bounds).None? then Some(Bounds(c.polygons)) else old(xm.bounds))
      && var b := xm.bounds.value;
         AllReweighed(r.polygons, c.polygons, (pos: Vec3) => XWeight(b, xm.centered, pos.x))
  {
    ghost var b := if xm.bounds.None? then Bounds(c.polygons) else xm.bounds.value;
    var ps := c.polygons;
    var done: seq<Polygon> := [];
    var i := 0;
    while i < |ps|
      invariant 0 <= i <= |ps|
      invariant xm.Valid()
      invariant xm.bounds == old(xm.bounds) || xm.bounds == Some(b)
      invariant i > 0 ==> xm.bounds == Some(b)
      invariant AllReweighed(done, ps[..i], (pos: Vec3) => XWeight(b, xm.centered, pos.x))
    {
      var q := ReweighX(ps[i], c, xm, b);
      done := done + [q];
      i := i + 1;
    }
    assert ps[..i] == ps;
    r := c.(polygons := done);
  }

  /** The inner loop of modify with an x-axis modifier: one polygon's vertices, each
      given the weight eval returns for its position. */
  method ReweighX(p: Polygon, c: CSG, xm: XModifier, ghost b: Boxes.Bounds) returns (q: Polygon)
    requires xm.Valid() && Proper(c.polygons) && |p.vertices| > 0
    requires xm.bounds == Some(b) || (xm.bounds.None? && b == Bounds(c.polygons) && b.max.x > b.min.x)
    modifies xm
    ensures xm.Valid() && xm.bounds == Some(b)
    ensures Reweighed(q, p, (pos: Vec3) => XWeight(b, xm.centered, pos.x))
  {
    var vs: seq<Vertex> := [];
    var j := 0;
    while j < |p.vertices|
      invariant 0 <= j <= |p.vertices|
      invariant xm.Valid()
      invariant xm.bounds == old(xm.bounds) || xm.bounds == Some(b)
      invariant j > 0 ==> xm.bounds == Some(b)
      invariant |vs| == j
      invariant forall k :: 0 <= k < j ==>
        vs[k].pos == p.vertices[k].pos && vs[k].normal == p.vertices[k].normal
        && GetWeight(vs[k]) == XWeight(b, xm.centered, p.vertices[k].pos.x)
    {
      var v := p.vertices[j];
      var s := xm.Eval(v.pos, c);
      vs := vs + [SetWeight(v, s)];
      j := j + 1;
    }
    q := p.(vertices := vs);
  }
}
