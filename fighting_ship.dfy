/**
 * A ship taking part in a battle (src/battle/fighting_ship.rs): its firepower
 * pipeline and the friendly "sink stopper" applied to incoming damage.
 */
module FightingShips {
  import opened Numeric
  import opened FpCalculation
  import DL = DamagedLevels
  import BD = BattleDirections
  import FS = FleetShip

  /**
   * Base firepower: `floor((firepower + torpedo + bombing) * 1.5) + 55` for a ship
   * carrying an attack aircraft, `firepower + 5` otherwise.
   */
  function BasicFp(s: FS.Ship): (fp: real)
    requires FS.WellFormed(s)
    ensures fp >= 5.0
    ensures FS.HasAttackAircraft(s) ==> fp >= 55.0
  {
    if FS.HasAttackAircraft(s) then
      ((FS.Firepower(s) + FS.Torpedo(s) + FS.Bombing(s)) as real * 1.5).Floor as real + 55.0
    else
      FS.Firepower(s) as real + 5.0
  }

  /** The base firepower is a whole number: (3 * sum) / 2 + 55 with integer division, or firepower + 5. */
  lemma BasicFpWhole(s: FS.Ship)
    requires FS.WellFormed(s)
    ensures var sum := FS.Firepower(s) + FS.Torpedo(s) + FS.Bombing(s);
      BasicFp(s) == if FS.HasAttackAircraft(s) then ((3 * sum) / 2 + 55) as real
                    else (FS.Firepower(s) + 5) as real
  {
    var sum := FS.Firepower(s) + FS.Torpedo(s) + FS.Bombing(s);
    HalfOfTriple(sum);
  }

  lemma HalfOfTriple(n: nat)
    ensures (n as real * 1.5).Floor == (3 * n) / 2
  {
    var q := (3 * n) / 2;
    var rem := (3 * n) % 2;
    assert 3 * n == 2 * q + rem;
    assert n as real * 1.5 == q as real + rem as real / 2.0;
  }

  /** Pre-cap firepower: base x direction factor x damage-tier factor. */
  function PrecapFp(s: FS.Ship, hp: nat, d: BD.BattleDirection): (fp: real)
    requires FS.WellFormed(s)
    ensures 0.0 <= fp <= BasicFp(s) * 1.2
    ensures hp == 0 ==> fp == 0.0
  {
    var level := FS.DamagedLevelOf(s, hp);
    BD.FpFactorPositive(d);
    DL.FpFactorBounds(level);
    var withDirection := FpPrecapCorrection(BasicFp(s), BD.FpFactor(d));
    assert withDirection <= BasicFp(s) * 1.2;
    assert withDirection * DL.FpFactor(level) <= withDirection;
    withDirection * DL.FpFactor(level)
  }

  /** `calculate_firepower`: base, pre-cap correction, soft cap, post-cap correction. */
  function CalculateFirepower(s: FS.Ship, hp: nat, d: BD.BattleDirection, cap: real): real
    requires FS.WellFormed(s)
  {
    FpPostcapCorrection(FpCapping(PrecapFp(s, hp, d), cap))
  }

  /**
   * The final firepower never exceeds the pre-cap value, equals it when that is at
   * most the cap, and is 0 for a sunk ship (under a non-negative cap).
   */
  lemma FirepowerBounds(s: FS.Ship, hp: nat, d: BD.BattleDirection, cap: real)
    requires FS.WellFormed(s)
    ensures CalculateFirepower(s, hp, d, cap) <= PrecapFp(s, hp, d)
    ensures PrecapFp(s, hp, d) <= cap ==> CalculateFirepower(s, hp, d, cap) == PrecapFp(s, hp, d)
    ensures hp == 0 && cap >= 0.0 ==> CalculateFirepower(s, hp, d, cap) == 0.0
  {
    CappingAtMost(PrecapFp(s, hp, d), cap);
  }

  /**
   * The damage a lethal hit is replaced with on a friendly flagship:
   * `floor(hp * 0.5 + floor(hp * r) * 0.3) as u16`.
   */
  function StopperDamage(hp: nat, r: real): (d: nat)
    requires 0.0 <= r < 1.0
    ensures hp > 0 ==> d < hp
  {
    FloorOfFraction(hp, r);
    var x := hp as real * 0.5 + (hp as real * r).Floor as real * 0.3;
    ToU16(x.Floor as real)
  }

  /**
   * `apply_damage(diff)`: a friendly ship hit for at least its HP has the damage
   * replaced (the flagship by StopperDamage, any other by hp - 1); then the
   * snapshot subtracts with saturation. `hp - 1` underflows for a friendly
   * non-flagship at 0 HP, so that case is excluded.
   */
  function AfterDamage(isFriend: bool, index: nat, hp: nat, diff: nat, r: real): (after: nat)
    requires 0.0 <= r < 1.0
    requires isFriend && index != 0 && diff >= hp ==> hp > 0
    ensures after <= hp
    ensures isFriend && hp > 0 ==> after > 0
  {
    var d := if isFriend && diff >= hp then (if index == 0 then StopperDamage(hp, r) else hp - 1) else diff;
    SaturatingSub(hp, d)
  }

  /** A lethal hit on a friendly non-flagship leaves it at exactly 1 HP. */
  lemma EscortLeftAtOne(index: nat, hp: nat, diff: nat, r: real)
    requires 0.0 <= r < 1.0
    requires index != 0 && hp > 0 && diff >= hp
    ensures AfterDamage(true, index, hp, diff, r) == 1
  {
  }

  /** A lethal hit on the friendly flagship removes StopperDamage(hp, r), which is less than its HP. */
  lemma FlagshipStopper(hp: nat, diff: nat, r: real)
    requires 0.0 <= r < 1.0
    requires hp > 0 && diff >= hp
    ensures AfterDamage(true, 0, hp, diff, r) == hp - StopperDamage(hp, r)
    ensures AfterDamage(true, 0, hp, diff, r) >= 1
  {
  }

  /** Enemies, and friends hit for less than their HP, take a plain saturating subtraction. */
  lemma PlainSubtraction(isFriend: bool, index: nat, hp: nat, diff: nat, r: real)
    requires 0.0 <= r < 1.0
    requires !isFriend || diff < hp
    ensures AfterDamage(isFriend, index, hp, diff, r) == SaturatingSub(hp, diff)
  {
  }

  /** Only an enemy hit for at least its HP goes from afloat to 0. */
  lemma OnlyEnemiesSink(isFriend: bool, index: nat, hp: nat, diff: nat, r: real)
    requires 0.0 <= r < 1.0
    requires isFriend && index != 0 && diff >= hp ==> hp > 0
    requires hp > 0
    ensures AfterDamage(isFriend, index, hp, diff, r) == 0 <==> !isFriend && diff >= hp
  {
  }

  /** A ship in battle; `hp` is its snapshot's HP, the only thing that changes. */
  class FightingShip {
    const ship: FS.Ship
    const isFriend: bool
    const index: nat
    var hp: nat

    /** `FightingShip::new`: the snapshot starts at the ship's HP. */
    constructor (ship: FS.Ship, isFriend: bool, index: nat)
      ensures this.ship == ship && this.isFriend == isFriend && this.index == index
      ensures hp == FS.Hp(ship)
    {
      this.ship := ship;
      this.isFriend := isFriend;
      this.index := index;
      hp := FS.Hp(ship);
    }

    predicate IsAlive()
      reads this
    {
      hp > 0
    }

    function DamagedLevel(): DL.DamagedLevel
      reads this
    {
      FS.DamagedLevelOf(ship, hp)
    }

    function Firepower(d: BD.BattleDirection, cap: real): real
      requires FS.WellFormed(ship)
      reads this
    {
      CalculateFirepower(ship, hp, d, cap)
    }

    /** `apply_damage`, with the flagship's random draw passed in as r. */
    method ApplyDamage(diff: nat, r: real)
      requires 0.0 <= r < 1.0
      requires isFriend && index != 0 && diff >= hp ==> hp > 0
      modifies this
      ensures hp == AfterDamage(isFriend, index, old(hp), diff, r)
      ensures old(IsAlive()) && isFriend ==> IsAlive()
    {
      var d := diff;
      if isFriend && diff >= hp {
        if index == 0 {
          d := StopperDamage(hp, r);
        } else {
          d := hp - 1;
        }
      }
      hp := SaturatingSub(hp, d);
    }
  }
}
