/**
 * One shot as the two engines built on `FightingShip` fire it
 * (src/battle_legacy/mod.rs and src/battle/mod.rs): a random alive target on the
 * opposite side, the armor roll, the damage, and its application through the
 * target's `apply_damage` with the friendly sink stopper.
 */
module Salvos {
  import opened Wrappers
  import opened Alive
  import FS = FleetShip
  import BD = BattleDirections
  import FX = FightingShips
  import FC = FpCalculation
  import G = Gunnery
  import BS = BattleSetups

  /** The fixed part of a battle: the direction and both fleets' ships. */
  datatype Lineup = Lineup(direction: BD.BattleDirection, friend: seq<FS.Ship>, enemy: seq<FS.Ship>)

  predicate AllWellFormed(ships: seq<FS.Ship>) {
    forall i :: 0 <= i < |ships| ==> FS.WellFormed(ships[i])
  }

  predicate WellFormedLineup(l: Lineup) {
    AllWellFormed(l.friend) && AllWellFormed(l.enemy)
  }

  function Ships(l: Lineup, friend: bool): seq<FS.Ship> {
    if friend then l.friend else l.enemy
  }

  /** `includes_battleship_class` over the fixed fleets. */
  predicate Gate(l: Lineup) {
    BS.AnyBattleship(l.friend) || BS.AnyBattleship(l.enemy)
  }

  /**
   * The random draws one turn consumes: the `random_range` target pick, the
   * armor roll, the glancing-damage roll and the flagship stopper roll.
   */
  datatype TurnDraws = TurnDraws(target: nat, armor: real, glance: real, stopper: real)

  predicate ValidDraw(d: TurnDraws) {
    0.0 <= d.armor < 1.0 && 0.0 <= d.glance < 1.0 && 0.0 <= d.stopper < 1.0
  }

  predicate ValidDraws(ds: seq<TurnDraws>) {
    forall i :: 0 <= i < |ds| ==> ValidDraw(ds[i])
  }

  /** The damage (already cast to u16) an actor deals to a target ship holding `targetHp`. */
  function ShotDamage(direction: BD.BattleDirection, actor: FS.Ship, actorHp: nat,
                      target: FS.Ship, targetHp: nat, d: TurnDraws): nat
    requires FS.WellFormed(actor) && ValidDraw(d)
  {
    var fp := FX.CalculateFirepower(actor, actorHp, direction, FC.Cap);
    G.HitDamage(fp, G.EffectiveArmor(FS.Armor(target), d.armor), targetHp, d.glance)
  }

  /** Where a shot landed, what it dealt, and the target side's HP afterwards. */
  datatype Shot = Shot(target: nat, damage: nat, hp: seq<nat>)

  /**
   * The target pick, the damage and `apply_damage(!actor_is_friend, target_idx, ..)`.
   * No shot exactly when nobody on the target side is alive; otherwise the
   * picked alive ship alone is hit, loses the damage if it had more HP than
   * that, and otherwise sinks only if it is an enemy.
   */
  function Fire(direction: BD.BattleDirection, actor: FS.Ship, actorHp: nat,
                targets: seq<FS.Ship>, targetHp: seq<nat>, targetsAreFriends: bool,
                d: TurnDraws): (r: Option<Shot>)
    requires FS.WellFormed(actor) && |targetHp| == |targets| && ValidDraw(d)
    ensures r.None? <==> AliveCount(targetHp) == 0
    ensures r.Some? ==> RandomAlive(targetHp, d.target) == Some(r.value.target)
    ensures r.Some? ==> var s := r.value;
      s.target < |targets| && targetHp[s.target] > 0 &&
      s.damage == ShotDamage(direction, actor, actorHp, targets[s.target], targetHp[s.target], d) &&
      |s.hp| == |targetHp| &&
      (forall i :: 0 <= i < |targetHp| && i != s.target ==> s.hp[i] == targetHp[i]) &&
      (s.damage < targetHp[s.target] ==> s.hp[s.target] == targetHp[s.target] - s.damage) &&
      (s.damage >= targetHp[s.target] ==> (s.hp[s.target] == 0 <==> !targetsAreFriends))
    ensures r.Some? ==> NoHpGained(targetHp, r.value.hp)
    ensures r.Some? && targetsAreFriends ==> NoneSunk(targetHp, r.value.hp)
  {
    match RandomAlive(targetHp, d.target)
    case None => None
    case Some(t) =>
      var damage := ShotDamage(direction, actor, actorHp, targets[t], targetHp[t], d);
      var after := FX.AfterDamage(targetsAreFriends, t, targetHp[t], damage, d.stopper);
      FX.OnlyEnemiesSink(targetsAreFriends, t, targetHp[t], damage, d.stopper);
      Some(Shot(t, damage, targetHp[t := after]))
  }
}
