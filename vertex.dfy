/**
 * Vertex: a position, a normal and a weight (CSharpCSG/Vertex.cs). Vertices are
 * values here; the library's in-place mutators return the updated vertex.
 */
module Vertices {
  import opened Vectors

  datatype Vertex = Vertex(pos: Vec3, normal: Vec3, weight: real)

  /** The weight a vertex gets unless one is given. */
  const DefaultWeight: real := 1.0

  /** The public constructor: position and normal, default weight. */
  function New(pos: Vec3, normal: Vec3): (v: Vertex)
    ensures v.pos == pos && v.normal == normal && GetWeight(v) == DefaultWeight
  {
    Vertex(pos, normal, DefaultWeight)
  }

  /** A copy with equal position and normal and the same weight. */
  function Clone(v: Vertex): (c: Vertex)
    ensures Equals(c, v) && c.normal == v.normal && GetWeight(c) == GetWeight(v)
  {
    Vertex(v.pos, v.normal, v.weight)
  }

  function Flip(v: Vertex): Vertex
  {
    v.(normal := Negated(v.normal))
  }

  /** flip negates only the normal: position and weight are kept. */
  lemma FlipOnlyNegatesNormal(v: Vertex)
    ensures Flip(v).pos == v.pos && GetWeight(Flip(v)) == GetWeight(v)
    ensures Flip(v).normal == Negated(v.normal) && Dot(Flip(v).normal, v.normal) == -Dot(v.normal, v.normal)
    ensures Flip(Flip(v)) == v
  {
  }

  /** A new vertex between this one and `other`: positions and normals are interpolated,
      the weight is the default and not interpolated. */
  function Interpolate(v: Vertex, other: Vertex, t: real): Vertex
  {
    New(Lerp(v.pos, other.pos, t), Lerp(v.normal, other.normal, t))
  }

  /** t = 0 gives this vertex's position and normal, t = 1 the other's; the weight is 1. */
  lemma InterpolateEnds(v: Vertex, other: Vertex)
    ensures Interpolate(v, other, 0.0).pos == v.pos && Interpolate(v, other, 0.0).normal == v.normal
    ensures Interpolate(v, other, 1.0).pos == other.pos && Interpolate(v, other, 1.0).normal == other.normal
    ensures forall t :: GetWeight(Interpolate(v, other, t)) == DefaultWeight
  {
    LerpEnds(v.pos, other.pos);
    LerpEnds(v.normal, other.normal);
  }

  function GetWeight(v: Vertex): real { v.weight }

  function SetWeight(v: Vertex, w: real): (r: Vertex)
    ensures r.pos == v.pos && r.normal == v.normal
  {
    v.(weight := w)
  }

  /** setWeight then getWeight returns the weight set; a second set overwrites the first. */
  lemma WeightRoundTrip(v: Vertex, w: real, w2: real)
    ensures GetWeight(SetWeight(v, w)) == w
    ensures SetWeight(SetWeight(v, w), w2) == SetWeight(v, w2)
    ensures SetWeight(v, GetWeight(v)) == v
  {
  }

  /** Equals compares positions only. */
  function Equals(a: Vertex, b: Vertex): bool { a.pos == b.pos }

  /** C#'s 32-bit int arithmetic, which wraps around. */
  function Wrap32(x: int): (r: int)
    ensures -0x8000_0000 <= r < 0x8000_0000
    ensures (r - x) % 0x1_0000_0000 == 0
  {
    (x + 0x8000_0000) % 0x1_0000_0000 - 0x8000_0000
  }

  /** GetHashCode: 53 * 7 + the position's hash, in wrapping 32-bit arithmetic. The
      position's hash comes from the vector library and is a parameter. */
  function HashCode(v: Vertex, posHash: Vec3 -> int): int
  {
    Wrap32(53 * 7 + posHash(v.pos))
  }

  /** Equal vertices have equal hash codes, whatever the position hash is. */
  lemma EqualsAgreesWithHashCode(a: Vertex, b: Vertex, posHash: Vec3 -> int)
    requires Equals(a, b)
    ensures HashCode(a, posHash) == HashCode(b, posHash)
  {
  }

  /** A possibly null reference to a vertex object: the address is the object's identity. */
  datatype VertexRef = Null | Obj(addr: nat, vertex: Vertex)

  /** object.ReferenceEquals: both null, or the same address. */
  predicate SameReference(a: VertexRef, b: VertexRef)
  {
    (a.Null? && b.Null?) || (a.Obj? && b.Obj? && a.addr == b.addr)
  }

  /** operator ==: true for the same reference, false when exactly one side is null,
      Equals otherwise. */
  function OpEquals(a: VertexRef, b: VertexRef): (r: bool)
    ensures a.Obj? && b.Obj? && a.addr == b.addr ==> r
    ensures a.Null? && b.Null? ==> r
    ensures a.Null? != b.Null? ==> !r
    ensures a.Obj? && b.Obj? && a.addr != b.addr ==> (r <==> Equals(a.vertex, b.vertex))
  {
    if SameReference(a, b) then true
    else if a.Null? || b.Null? then false
    else Equals(a.vertex, b.vertex)
  }

  /** operator !=, written out separately as in the library. */
  function OpNotEquals(a: VertexRef, b: VertexRef): bool
  {
    if SameReference(a, b) then false
    else if a.Null? || b.Null? then true
    else !Equals(a.vertex, b.vertex)
  }

  /** != is always the negation of ==. */
  lemma NotEqualsNegatesEquals(a: VertexRef, b: VertexRef)
    ensures OpNotEquals(a, b) == !OpEquals(a, b)
  {
  }
}
