/** Damage tiers and their firepower factors (src/battle/damaged_level.rs). */
module DamagedLevels {
  import opened Numeric

  /** Declaration order is the derived PartialOrd: NoDamage < Minor < Moderate < Heavy < Sunk. */
  datatype DamagedLevel = NoDamage | Minor | Moderate | Heavy | Sunk

  function Rank(d: DamagedLevel): (n: nat)
    ensures n <= 4
  {
    match d
    case NoDamage => 0
    case Minor => 1
    case Moderate => 2
    case Heavy => 3
    case Sunk => 4
  }

  /** `a >= b` under the derived order. */
  predicate AtLeast(a: DamagedLevel, b: DamagedLevel) {
    Rank(a) >= Rank(b)
  }

  function FpFactor(d: DamagedLevel): real {
    match d
    case NoDamage => 1.0
    case Minor => 1.0
    case Moderate => 0.7
    case Heavy => 0.4
    case Sunk => 0.0
  }

  /** The factor never grows as the damage tier worsens, stays in [0, 1], and is 0 only for Sunk. */
  lemma FpFactorNonIncreasing(a: DamagedLevel, b: DamagedLevel)
    requires AtLeast(b, a)
    ensures FpFactor(b) <= FpFactor(a)
  {
  }

  lemma FpFactorBounds(d: DamagedLevel)
    ensures 0.0 <= FpFactor(d) <= 1.0
    ensures FpFactor(d) == 0.0 <==> d == Sunk
  {
  }

  /**
   * The tier of a ship from its maximum and current HP, as the source computes it:
   * Sunk at 0 HP, otherwise by the ratio now/max against the inclusive bounds 0.25, 0.5, 0.75.
   * A zero maximum with HP left makes the f64 ratio infinite, which is above every bound.
   */
  function Classify(maxHp: nat, nowHp: nat): DamagedLevel {
    if nowHp == 0 then Sunk
    else if maxHp == 0 then NoDamage
    else
      var ratio := nowHp as real / maxHp as real;
      if ratio <= 0.25 then Heavy
      else if ratio <= 0.5 then Moderate
      else if ratio <= 0.75 then Minor
      else NoDamage
  }

  /** The ratio tests are exactly these integer thresholds (all inclusive). */
  lemma ClassifyThresholds(maxHp: nat, nowHp: nat)
    ensures Classify(maxHp, nowHp) == Sunk <==> nowHp == 0
    ensures Classify(maxHp, nowHp) == Heavy <==> 0 < nowHp && 4 * nowHp <= maxHp
    ensures Classify(maxHp, nowHp) == Moderate <==> maxHp < 4 * nowHp && 2 * nowHp <= maxHp
    ensures Classify(maxHp, nowHp) == Minor <==> maxHp < 2 * nowHp && 4 * nowHp <= 3 * maxHp
    ensures Classify(maxHp, nowHp) == NoDamage <==> 0 < nowHp && 3 * maxHp < 4 * nowHp
  {
    if nowHp > 0 && maxHp > 0 {
      RatioAtMost(nowHp, maxHp, 1, 4);
      RatioAtMost(nowHp, maxHp, 1, 2);
      RatioAtMost(nowHp, maxHp, 3, 4);
      assert 0.25 == 1 as real / 4 as real;
      assert 0.5 == 1 as real / 2 as real;
      assert 0.75 == 3 as real / 4 as real;
    }
  }

  /** Losing HP never improves the tier. */
  lemma ClassifyMonotone(maxHp: nat, a: nat, b: nat)
    requires b <= a
    ensures AtLeast(Classify(maxHp, b), Classify(maxHp, a))
  {
    ClassifyThresholds(maxHp, a);
    ClassifyThresholds(maxHp, b);
  }
}
