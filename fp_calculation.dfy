/** The firepower correction stages (src/battle/fp_calculation.rs). */
module FpCalculation {
  import opened Numeric

  /** The firepower cap every engine passes to the capping stage. */
  const Cap: real := 220.0

  /** Pre-cap correction: multiply by the direction factor. */
  function FpPrecapCorrection(firepower: real, directionFactor: real): (r: real)
    ensures directionFactor == 1.0 ==> r == firepower
    ensures 0.0 <= firepower && 0.0 <= directionFactor <= 1.0 ==> r <= firepower
  {
    firepower * directionFactor
  }

  /** Soft cap: the part above `cap` only contributes floor(sqrt(excess)). */
  function FpCapping(firepower: real, cap: real): (r: real)
  {
    (if firepower <= cap then firepower else cap) +
    (if firepower - cap <= 0.0 then 0.0 else FloorSqrt(firepower - cap) as real)
  }

  /** Post-cap correction: currently the identity, kept as a stage. */
  function FpPostcapCorrection(firepower: real): (r: real)
    ensures r == firepower
  {
    firepower
  }

  /** At or below the cap, capping changes nothing. */
  lemma CappingBelowCap(fp: real, cap: real)
    requires fp <= cap
    ensures FpCapping(fp, cap) == fp
  {
  }

  /** Above the cap by at least 1, the result is cap + floor(sqrt(excess)), strictly above the cap. */
  lemma CappingAboveCap(fp: real, cap: real)
    requires fp - cap >= 1.0
    ensures FpCapping(fp, cap) == cap + ISqrt((fp - cap).Floor) as real
    ensures FpCapping(fp, cap) > cap
  {
    var n := (fp - cap).Floor;
    assert n >= 1;
    if ISqrt(n) == 0 {
      assert false;
    }
  }

  /** Capping never adds firepower. */
  lemma CappingAtMost(fp: real, cap: real)
    ensures FpCapping(fp, cap) <= fp
  {
    if fp > cap {
      var d := fp - cap;
      ISqrtAtMost(d.Floor);
    }
  }

  /** Capping is monotone in the firepower. */
  lemma CappingMonotone(a: real, b: real, cap: real)
    requires a <= b
    ensures FpCapping(a, cap) <= FpCapping(b, cap)
  {
    if cap < a {
      ISqrtMonotone((a - cap).Floor, (b - cap).Floor);
    }
  }

  /** The repository's own test values: (200, 220) gives 200; (230, 220) gives 220 + floor(sqrt(10)) = 223. */
  lemma CappingTestValues()
    ensures FpCapping(200.0, 220.0) == 200.0
    ensures FpCapping(230.0, 220.0) == 223.0
    ensures FpCapping(230.0, 220.0) > 220.0
  {
    ISqrtUnique(10, 3);
  }
}
