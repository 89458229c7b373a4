/** The immutable battle setup (src/battle/battle_setup.rs). */
module BattleSetups {
  import opened Wrappers
  import FS = FleetShip
  import FL = FleetLike
  import BD = BattleDirections

  /** A cloned `Fleet`. */
  datatype FleetCopy = FleetCopy(ships: seq<FS.Ship>, formation: Option<FL.Formation>)

  /** A cloned `EnemyFleet`. */
  datatype EnemyFleetCopy = EnemyFleetCopy(
    area: nat, mapId: nat, node: string, probability: real,
    ships: seq<FS.Ship>, formation: Option<FL.Formation>)

  datatype BattleSetup = BattleSetup(direction: BD.BattleDirection, friendFleet: FleetCopy, enemyFleet: EnemyFleetCopy)

  /**
   * `BattleSetup::new`: copies of both fleets, field for field. The direction comes
   * from `BattleDirection::random()`, which is not part of this model, so it is a parameter.
   */
  function New(friend: FL.Fleet, enemy: FL.EnemyFleet, direction: BD.BattleDirection): (s: BattleSetup)
    reads friend, enemy
    ensures s.direction == direction
    ensures s.friendFleet.ships == friend.ships && s.friendFleet.formation == friend.formation
    ensures s.enemyFleet.ships == enemy.ships && s.enemyFleet.formation == enemy.formation
    ensures s.enemyFleet.area == enemy.area && s.enemyFleet.mapId == enemy.mapId
    ensures s.enemyFleet.node == enemy.node && s.enemyFleet.probability == enemy.probability
  {
    BattleSetup(direction, FleetCopy(friend.ships, friend.formation),
      EnemyFleetCopy(enemy.area, enemy.mapId, enemy.node, enemy.probability, enemy.ships, enemy.formation))
  }

  /** `iter().any(is_battleship_class)` over a ship list. */
  predicate AnyBattleship(ships: seq<FS.Ship>)
    ensures AnyBattleship(ships) <==> exists i :: 0 <= i < |ships| && FS.IsBattleshipClass(ships[i])
  {
    if ships == [] then false
    else FS.IsBattleshipClass(ships[0]) || AnyBattleship(ships[1..])
  }

  predicate IncludesBattleshipClass(s: BattleSetup) {
    AnyBattleship(s.friendFleet.ships) || AnyBattleship(s.enemyFleet.ships)
  }

  /** True exactly when some friendly or some enemy ship is of a battleship class; false for two empty fleets. */
  lemma IncludesBattleshipClassIff(s: BattleSetup)
    ensures IncludesBattleshipClass(s) <==>
      (exists i :: 0 <= i < |s.friendFleet.ships| && FS.IsBattleshipClass(s.friendFleet.ships[i])) ||
      (exists i :: 0 <= i < |s.enemyFleet.ships| && FS.IsBattleshipClass(s.enemyFleet.ships[i]))
    ensures s.friendFleet.ships == [] && s.enemyFleet.ships == [] ==> !IncludesBattleshipClass(s)
  {
  }

  predicate SameTypeIds(a: seq<FS.Ship>, b: seq<FS.Ship>) {
    |a| == |b| && forall i :: 0 <= i < |a| ==> FS.ShipTypeId(a[i]) == FS.ShipTypeId(b[i])
  }

  /** The gate reads only ship type ids: HP, equipment, formation and direction do not matter. */
  lemma GateReadsOnlyTypeIds(s: BattleSetup, t: BattleSetup)
    requires SameTypeIds(s.friendFleet.ships, t.friendFleet.ships)
    requires SameTypeIds(s.enemyFleet.ships, t.enemyFleet.ships)
    ensures IncludesBattleshipClass(s) == IncludesBattleshipClass(t)
  {
    assert forall i :: 0 <= i < |s.friendFleet.ships| ==>
      (FS.IsBattleshipClass(s.friendFleet.ships[i]) <==> FS.IsBattleshipClass(t.friendFleet.ships[i]));
    assert forall i :: 0 <= i < |s.enemyFleet.ships| ==>
      (FS.IsBattleshipClass(s.enemyFleet.ships[i]) <==> FS.IsBattleshipClass(t.enemyFleet.ships[i]));
  }
}
