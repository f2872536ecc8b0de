/**
 * The launch force of the firing coroutines: the speed a 45-degree shot needs to
 * cover the distance to the target, perturbed by a random factor and clamped to
 * the tank's configured band.
 */
module Ballistics {
  import opened Types

  /** Bounds of `Random.Range(-0.05f, 0.25f)`, the relative variation. */
  const VariationMin: real := -0.05
  const VariationMax: real := 0.25

  /**
   * `base` is `Mathf.Sqrt(distance * gravity / Mathf.Sin(2 * 45 degrees))`, with the
   * sine equal to 1: the non-negative root of distance * gravity.
   */
  predicate IsBaseForce(base: real, distance: real, gravity: real) {
    base >= 0.0 && base * base == distance * gravity
  }

  /** `Mathf.Clamp(value, min, max)`: test the lower bound first, then the upper. */
  function Clamp(value: real, min: real, max: real): (r: real)
    ensures min <= max ==> min <= r <= max
    ensures min <= value <= max ==> r == value
    ensures value < min ==> r == min
    ensures min <= value && max < value ==> r == max
  {
    if value < min then min
    else if value > max then max
    else value
  }

  /**
   * The force before clamping: `base + Random.Range(-0.05, 0.25, u) * base`. For a
   * non-negative base it lies between 95% and 125% of it.
   */
  function Varied(base: real, u: real): (f: real)
    requires 0.0 <= u <= 1.0
    ensures base >= 0.0 ==> 0.95 * base <= f <= 1.25 * base
  {
    var v := Draw(VariationMin, VariationMax, u);
    VariationScaled(base, v);
    base + v * base
  }

  lemma VariationScaled(base: real, v: real)
    requires VariationMin <= v <= VariationMax
    ensures base >= 0.0 ==> -0.05 * base <= v * base <= 0.25 * base
  {
    if base >= 0.0 {
      assert (v + 0.05) * base >= 0.0;
      assert (0.25 - v) * base >= 0.0;
    }
  }

  /** The force handed to LaunchProjectile: within [min, max] whenever min <= max. */
  function LaunchForce(base: real, u: real, min: real, max: real): (f: real)
    requires 0.0 <= u <= 1.0
    ensures min <= max ==> min <= f <= max
    ensures min <= Varied(base, u) <= max ==> f == Varied(base, u)
  {
    Clamp(Varied(base, u), min, max)
  }

  /** A target at distance 0 needs no force: the unclamped force is 0 whatever the draw. */
  lemma ZeroDistanceZeroForce(base: real, gravity: real, u: real)
    requires IsBaseForce(base, 0.0, gravity)
    requires 0.0 <= u <= 1.0
    ensures base == 0.0 && Varied(base, u) == 0.0
  {
  }
}
