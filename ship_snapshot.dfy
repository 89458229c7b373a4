/**
 * The per-ship HP snapshot with saturating damage: src/battle_legacy/ship_snapshot.rs
 * and its identical twin `interface::ShipSnapshot` in src/interface.rs.
 */
module Snapshots {
  import opened Numeric
  import FS = FleetShip

  class ShipSnapshot {
    var hp: nat

    /** `ShipSnapshot::from(&ship)`: the ship's HP on entering the battle. */
    constructor From(ship: FS.Ship)
      ensures hp == FS.Hp(ship)
    {
      hp := FS.Hp(ship);
    }

    function Hp(): nat
      reads this
    {
      hp
    }

    /** `apply_damage(amount)`: `hp.saturating_sub(amount)`. */
    method ApplyDamage(amount: nat)
      modifies this
      ensures hp == SaturatingSub(old(hp), amount)
      ensures hp <= old(hp)
      ensures amount == 0 ==> hp == old(hp)
    {
      hp := SaturatingSub(hp, amount);
    }
  }

  /** Two hits of a and b leave the same HP as one hit of a + b. */
  lemma DamageComposes(hp: nat, a: nat, b: nat)
    ensures SaturatingSub(SaturatingSub(hp, a), b) == SaturatingSub(hp, a + b)
    ensures SaturatingSub(hp, 0) == hp
  {
    SaturatingSubTwice(hp, a, b);
  }

  /** The unit test's sequence: a snapshot of a 12-HP ship hit for 5 and then 10 reads 12, 7, 0. */
  method SnapshotTestSequence(ship: FS.Ship) returns (readings: seq<nat>)
    requires FS.Hp(ship) == 12
    ensures readings == [12, 7, 0]
  {
    var snap := new ShipSnapshot.From(ship);
    var first := snap.Hp();
    snap.ApplyDamage(5);
    var second := snap.Hp();
    snap.ApplyDamage(10);
    readings := [first, second, snap.Hp()];
  }
}
