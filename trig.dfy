/**
 * The .NET Math.PI, Math.Cos and Math.Sin the primitives use to place their
 * vertices. Floating-point trigonometry is outside the model: the three are
 * parameters, and the properties that need them hold for any choice satisfying
 * Pythagorean.
 */
module Trigonometry {

  datatype Trig = Trig(pi: real, cos: real -> real, sin: real -> real)

  /** cos² + sin² = 1 at every angle. */
  ghost predicate Pythagorean(t: Trig)
  {
    forall a :: t.cos(a) * t.cos(a) + t.sin(a) * t.sin(a) == 1.0
  }
}
