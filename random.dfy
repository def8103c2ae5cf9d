/**
 * Uniform integer draws as the simulator writes them: `Math.floor(Math.random() * span) + base`.
 * The sample of `Math.random()` is passed in as a real `u` with 0 <= u < 1.
 */
module Random {

  /** `u` is a value `Math.random()` can return. */
  predicate IsUnit(u: real) {
    0.0 <= u < 1.0
  }

  /** Every sample of a run is a value `Math.random()` can return. */
  predicate AllUnit(us: seq<real>) {
    forall i :: 0 <= i < |us| ==> IsUnit(us[i])
  }

  /** `Math.floor(u * span) + base`: lands in the inclusive range [base, base + span - 1]. */
  function Draw(u: real, span: nat, base: int): (d: int)
    requires IsUnit(u) && span > 0
    ensures base <= d <= base + span - 1
  {
    assert u * span as real < span as real by {
      assert (1.0 - u) * span as real > 0.0;
    }
    (u * span as real).Floor + base
  }

  /** Every value of the range is drawn by some sample: the range is exact, not just a bound. */
  lemma DrawCovers(span: nat, base: int, k: int)
    requires span > 0 && base <= k <= base + span - 1
    ensures IsUnit((k - base) as real / span as real)
    ensures Draw((k - base) as real / span as real, span, base) == k
  {
  }
}
