/** Ships and their derived combat stats (src/fleet/ship.rs). */
module FleetShip {
  import opened Wrappers
  import opened FleetStatus
  import E = FleetEquipment
  import DamagedLevels

  datatype ShipStatus = ShipStatus(
    maxHp: nat, nowHp: nat, firepower: nat, armor: nat, torpedo: nat,
    antiAircraft: nat, condition: nat,
    evasion: Option<nat>, airplaneSlots: Option<seq<nat>>, antiSubmarineWarfare: Option<nat>,
    speed: Option<nat>, scouting: Option<nat>, range: Option<Range>, luck: Option<nat>)

  datatype Ship = Ship(
    id: nat, name: string, shipTypeId: Option<nat>, shipTypeName: Option<string>,
    status: ShipStatus, equips: seq<E.Equipment>)

  function MaxHp(s: Ship): nat { s.status.maxHp }
  /** HP on entering the battle. */
  function Hp(s: Ship): nat { s.status.nowHp }
  function Firepower(s: Ship): nat { s.status.firepower }
  function Armor(s: Ship): nat { s.status.armor }
  function Torpedo(s: Ship): nat { s.status.torpedo }

  /** The sum of a list of equipment's bombing values. */
  function SumBombing(es: seq<E.Equipment>): (total: nat)
    ensures forall i :: 0 <= i < |es| ==> E.Bombing(es[i]) <= total
    ensures (forall i :: 0 <= i < |es| ==> es[i].status.None?) ==> total == 0
  {
    if es == [] then 0 else SumBombing(es[..|es| - 1]) + E.Bombing(es[|es| - 1])
  }

  /** The sum is additive over concatenation, so the fold order does not matter. */
  lemma {:induction false} SumBombingAppend(a: seq<E.Equipment>, b: seq<E.Equipment>)
    ensures SumBombing(a + b) == SumBombing(a) + SumBombing(b)
    decreases |b|
  {
    if b == [] {
      assert a + b == a;
    } else {
      var b' := b[..|b| - 1];
      assert (a + b)[..|a + b| - 1] == a + b';
      SumBombingAppend(a, b');
    }
  }

  function Bombing(s: Ship): nat {
    SumBombing(s.equips)
  }

  /** The greatest range among a list of equipment; the least range when the list is empty. */
  function MaxEquipRange(es: seq<E.Equipment>): (m: Range)
    ensures forall i :: 0 <= i < |es| ==> Le(E.RangeOf(es[i]), m)
    ensures es == [] ==> m == Range.None
    ensures es != [] ==> exists i :: 0 <= i < |es| && E.RangeOf(es[i]) == m
  {
    if es == [] then Range.None
    else
      var rest := MaxEquipRange(es[..|es| - 1]);
      var m := Max(rest, E.RangeOf(es[|es| - 1]));
      assert es[..|es| - 1] != [] ==> exists i :: 0 <= i < |es| - 1 && E.RangeOf(es[i]) == rest;
      m
  }

  /** The hull's range, the least range when it is not set. */
  function HullRange(s: Ship): Range {
    if s.status.range.Some? then s.status.range.value else Default()
  }

  /** The effective range: the greatest of the hull range and every equipment range. */
  function RangeOf(s: Ship): (r: Range)
    ensures Le(HullRange(s), r)
    ensures forall i :: 0 <= i < |s.equips| ==> Le(E.RangeOf(s.equips[i]), r)
    ensures r == HullRange(s) || exists i :: 0 <= i < |s.equips| && E.RangeOf(s.equips[i]) == r
  {
    Max(HullRange(s), MaxEquipRange(s.equips))
  }

  function ShipTypeId(s: Ship): nat {
    if s.shipTypeId.Some? then s.shipTypeId.value else 0
  }

  /** Battleship classes: type ids 8, 9, 10 and 12. */
  predicate IsBattleshipClass(s: Ship) {
    var id := ShipTypeId(s);
    id == 8 || id == 9 || id == 10 || id == 12
  }

  lemma BattleshipClassIds(s: Ship)
    ensures IsBattleshipClass(s) <==> s.shipTypeId.Some? && s.shipTypeId.value in {8, 9, 10, 12}
    ensures s.shipTypeId.None? ==> ShipTypeId(s) == 0 && !IsBattleshipClass(s)
  {
  }

  /**
   * The scan of `iter().any(is_attack_aircraft)` never panics: every piece it
   * reaches, up to and including the first attack aircraft, has no type-id list
   * or one of at least three entries. Pieces after that are never read.
   */
  predicate ScanSafe(es: seq<E.Equipment>) {
    es != [] ==> E.WellFormed(es[0]) && (E.IsAttackAircraft(es[0]) || ScanSafe(es[1..]))
  }

  /** The ship can be asked whether it carries an attack aircraft without panicking. */
  predicate WellFormed(s: Ship) {
    ScanSafe(s.equips)
  }

  /** `iter().any(is_attack_aircraft)` over a list of equipment, stopping at the first hit. */
  predicate AnyAttackAircraft(es: seq<E.Equipment>)
    requires ScanSafe(es)
    ensures AnyAttackAircraft(es) <==> exists i :: 0 <= i < |es| && E.WellFormed(es[i]) && E.IsAttackAircraft(es[i])
  {
    if es == [] then false
    else if E.IsAttackAircraft(es[0]) then true
    else
      assert forall i :: 1 <= i < |es| ==> es[i] == es[1..][i - 1];
      AnyAttackAircraft(es[1..])
  }

  /**
   * The scan stops at the first attack aircraft: a piece after it may carry a
   * type-id list too short to index, and the answer is still true.
   */
  lemma ScanStopsAtFirstHit(first: E.Equipment, rest: seq<E.Equipment>)
    requires first.equipTypeId.Some? && |first.equipTypeId.value| >= 3 && first.equipTypeId.value[2] == 7
    ensures ScanSafe([first] + rest)
    ensures AnyAttackAircraft([first] + rest)
  {
  }

  /**
   * Whether any equipment is an attack aircraft. The source also takes the ship's
   * snapshot and ignores it; the model leaves that argument out.
   */
  predicate HasAttackAircraft(s: Ship)
    requires WellFormed(s)
  {
    AnyAttackAircraft(s.equips)
  }

  /** The damage tier for the HP held in a snapshot, against this ship's maximum HP. */
  function DamagedLevelOf(s: Ship, snapshotHp: nat): (d: DamagedLevels.DamagedLevel)
    ensures d == DamagedLevels.Sunk <==> snapshotHp == 0
    ensures d == DamagedLevels.Heavy <==> 0 < snapshotHp && 4 * snapshotHp <= MaxHp(s)
    ensures d == DamagedLevels.Moderate <==> MaxHp(s) < 4 * snapshotHp && 2 * snapshotHp <= MaxHp(s)
    ensures d == DamagedLevels.Minor <==> MaxHp(s) < 2 * snapshotHp && 4 * snapshotHp <= 3 * MaxHp(s)
    ensures d == DamagedLevels.NoDamage <==> 0 < snapshotHp && 3 * MaxHp(s) < 4 * snapshotHp
  {
    DamagedLevels.ClassifyThresholds(MaxHp(s), snapshotHp);
    DamagedLevels.Classify(MaxHp(s), snapshotHp)
  }

  /** `apply_snapshot`: the ship with its current HP replaced by the snapshot's. */
  function ApplySnapshot(s: Ship, snapshotHp: nat): (t: Ship)
    ensures Hp(t) == snapshotHp
    ensures t.status.(nowHp := s.status.nowHp) == s.status
    ensures t.(status := s.status) == s
  {
    s.(status := s.status.(nowHp := snapshotHp))
  }
}
