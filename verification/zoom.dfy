/** The zoom level: multiplicative wheel steps, rejected when they would leave [0.1, 10]. */
module Zoom {

  const Initial: real := 1.0
  const Min: real := 0.1
  const Max: real := 10.0
  const InFactor: real := 1.1
  const OutFactor: real := 0.9

  predicate InRange(z: real)
  {
    Min <= z <= Max
  }

  /** A positive wheel delta zooms in; zero and negative deltas zoom out. */
  function Factor(delta: int): real
  {
    if delta > 0 then InFactor else OutFactor
  }

  /** One wheel step: the scaled zoom if it stays in range, otherwise the old zoom. */
  function Step(z: real, delta: int): (r: real)
    ensures InRange(z * Factor(delta)) ==> r == z * Factor(delta)
    ensures !InRange(z * Factor(delta)) ==> r == z
    ensures InRange(z) ==> InRange(r)
  {
    var next := z * Factor(delta);
    if next < Min || next > Max then z else next
  }

  /** The zoom after `n` wheel steps in the same direction. */
  function Repeat(z: real, delta: int, n: nat): (r: real)
    ensures InRange(z) ==> InRange(r)
    decreases n
  {
    if n == 0 then z else Repeat(Step(z, delta), delta, n - 1)
  }

  /** Once a zoom-in step is rejected at the upper bound, every further one is too. */
  lemma {:induction false} ZoomInSaturates(z: real, delta: int, n: nat)
    requires delta > 0
    requires z * InFactor > Max
    ensures Repeat(z, delta, n) == z
  {
    if n > 0 {
      assert Step(z, delta) == z;
      ZoomInSaturates(z, delta, n - 1);
    }
  }

  /** Once a zoom-out step is rejected at the lower bound, every further one is too. */
  lemma {:induction false} ZoomOutSaturates(z: real, delta: int, n: nat)
    requires delta <= 0
    requires z * OutFactor < Min
    ensures Repeat(z, delta, n) == z
  {
    if n > 0 {
      assert Step(z, delta) == z;
      ZoomOutSaturates(z, delta, n - 1);
    }
  }

  /**
   * Zooming in and then out does not return to the old level: 1.1 * 0.9 is 0.99.
   * The range is exactly the levels at which both steps are accepted.
   */
  lemma InThenOutDrifts(z: real)
    requires Min <= z * 0.99 && z * InFactor <= Max
    ensures Step(Step(z, 1), -1) == z * 0.99
    ensures Step(Step(z, 1), -1) != z
  {
  }
}
