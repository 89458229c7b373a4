/**
 * The per-shot formulas every engine generation repeats inline: the armor roll,
 * the damage of a hit with its "glancing hit" fallback, and the cast to u16.
 */
module Gunnery {
  import opened Numeric

  /** `armor * 0.7 + floor(armor * r) * 0.6` for a draw r in [0, 1). */
  function EffectiveArmor(armor: nat, r: real): (a: real)
    requires 0.0 <= r < 1.0
    ensures 0.7 * armor as real <= a
    ensures armor > 0 ==> a < 1.3 * armor as real
    ensures armor == 0 ==> a == 0.0
  {
    FloorOfFraction(armor, r);
    armor as real * 0.7 + (armor as real * r).Floor as real * 0.6
  }

  /** The glancing damage `hp_now * 0.06 + floor(hp_now * r) * 0.08` (the first term is not floored). */
  function GlancingDamage(hp: nat, r: real): (d: real)
    requires 0.0 <= r < 1.0
    ensures 0.0 <= d
    ensures hp == 0 ==> d == 0.0
    ensures hp > 0 ==> d < hp as real
  {
    FloorOfFraction(hp, r);
    hp as real * 0.06 + (hp as real * r).Floor as real * 0.08
  }

  /**
   * The f64 damage of one shot: `floor(firepower - armor)` when that is positive,
   * otherwise the glancing damage against the target's current HP.
   */
  function RawDamage(firepower: real, armor: real, targetHp: nat, glanceDraw: real): (d: real)
    requires 0.0 <= glanceDraw < 1.0
    ensures 0.0 <= d
  {
    var floored := (firepower - armor).Floor;
    if floored > 0 then floored as real else GlancingDamage(targetHp, glanceDraw)
  }

  /** `damage as u16`: what is actually subtracted from the target. */
  function HitDamage(firepower: real, armor: real, targetHp: nat, glanceDraw: real): (n: nat)
    requires 0.0 <= glanceDraw < 1.0
    ensures n <= U16Max
  {
    ToU16(RawDamage(firepower, armor, targetHp, glanceDraw))
  }

  /**
   * A penetrating shot deals floor(firepower - armor), saturated at 65535; a
   * glancing shot always leaves a target that had HP with some HP left.
   */
  lemma HitDamageCases(firepower: real, armor: real, targetHp: nat, glanceDraw: real)
    requires 0.0 <= glanceDraw < 1.0
    ensures var f := (firepower - armor).Floor;
      f > 0 ==> HitDamage(firepower, armor, targetHp, glanceDraw) == (if f <= U16Max then f else U16Max)
    ensures (firepower - armor).Floor <= 0 && targetHp > 0 ==>
      HitDamage(firepower, armor, targetHp, glanceDraw) < targetHp
  {
    var f := (firepower - armor).Floor;
    if f <= 0 && targetHp > 0 {
      var g := GlancingDamage(targetHp, glanceDraw);
      assert ToU16(g) as real <= g;
    }
  }
}
