/** The HP snapshot the battle log keeps per ship (src/battle/battle_log.rs). */
module LogSnapshots {
  import opened Numeric
  import FS = FleetShip

  class ShipSnapshot {
    var hp: nat

    /** `From<&Ship>`: the ship's HP on entering the battle. */
    constructor From(ship: FS.Ship)
      ensures hp == FS.Hp(ship)
    {
      hp := FS.Hp(ship);
    }

    function Hp(): nat
      reads this
    {
      hp
    }

    predicate IsAlive()
      reads this
    {
      hp > 0
    }

    /**
     * `apply_damage`: 0 when the damage reaches the HP, the difference otherwise --
     * the same saturating subtraction the older snapshot uses, and never a gain.
     */
    method ApplyDamage(damage: nat)
      modifies this
      ensures hp == SaturatingSub(old(hp), damage)
      ensures hp <= old(hp)
      ensures damage == 0 ==> hp == old(hp)
    {
      if damage >= hp {
        hp := 0;
      } else {
        hp := hp - damage;
      }
    }
  }

  /** The HP of each snapshot, in order. */
  function HpsOf(snapshots: seq<ShipSnapshot>): (r: seq<nat>)
    reads set s | s in snapshots
    ensures |r| == |snapshots|
    ensures forall i :: 0 <= i < |r| ==> r[i] == snapshots[i].hp
  {
    seq(|snapshots|, i reads set s | s in snapshots requires 0 <= i < |snapshots| => snapshots[i].hp)
  }

  /** One fresh snapshot per ship, each holding that ship's HP. */
  method SnapshotsOf(ships: seq<FS.Ship>) returns (snapshots: seq<ShipSnapshot>)
    ensures |snapshots| == |ships|
    ensures forall i :: 0 <= i < |ships| ==> fresh(snapshots[i]) && snapshots[i].hp == FS.Hp(ships[i])
    ensures forall i, j :: 0 <= i < j < |ships| ==> snapshots[i] != snapshots[j]
  {
    snapshots := [];
    for k := 0 to |ships|
      invariant |snapshots| == k
      invariant forall i :: 0 <= i < k ==> fresh(snapshots[i]) && snapshots[i].hp == FS.Hp(ships[i])
      invariant forall i, j :: 0 <= i < j < k ==> snapshots[i] != snapshots[j]
    {
      var s := new ShipSnapshot.From(ships[k]);
      snapshots := snapshots + [s];
    }
  }
}

/** The battle log (src/battle/battle_log.rs): an append-only action list and the HP snapshots. */
module BattleLogs {
  import FS = FleetShip
  import FL = FleetLike
  import opened LogSnapshots

  datatype Phase = AirCombat | Artillery | Torpedo

  datatype AttackType = ArtilleryAttack | TorpedoAttack | AirStrike

  datatype AttackLog = AttackLog(
    toEnemy: bool, actorIdx: nat, targetIdx: nat, attackType: AttackType,
    firepower: nat, armor: nat, calculatedDamage: nat, appliedDamage: nat,
    isCritical: bool, isMiss: bool)

  datatype ActionLog =
    | PhaseStart(phase: Phase)
    | Attack(attack: AttackLog)
    | TurnSkip(isFriend: bool, shipIdx: nat, reason: string)
    | Sunk(isFriend: bool, shipIdx: nat)

  class BattleLog {
    var actionLogs: seq<ActionLog>
    var friendSnapshots: seq<ShipSnapshot>
    var enemySnapshots: seq<ShipSnapshot>

    /** `BattleLog::new`: no actions yet, one fresh snapshot per ship of each fleet at that ship's HP. */
    constructor (friend: FL.Fleet, enemy: FL.EnemyFleet)
      ensures actionLogs == []
      ensures |friendSnapshots| == |friend.ships| && |enemySnapshots| == |enemy.ships|
      ensures forall i :: 0 <= i < |friendSnapshots| ==>
        fresh(friendSnapshots[i]) && friendSnapshots[i].hp == FS.Hp(friend.ships[i])
      ensures forall i :: 0 <= i < |enemySnapshots| ==>
        fresh(enemySnapshots[i]) && enemySnapshots[i].hp == FS.Hp(enemy.ships[i])
    {
      var friends := SnapshotsOf(friend.ships);
      var enemies := SnapshotsOf(enemy.ships);
      actionLogs := [];
      friendSnapshots := friends;
      enemySnapshots := enemies;
    }

    /** `push`: exactly one entry appended at the end; nothing else changes. */
    method Push(log: ActionLog)
      modifies this
      ensures actionLogs == old(actionLogs) + [log]
      ensures friendSnapshots == old(friendSnapshots) && enemySnapshots == old(enemySnapshots)
    {
      actionLogs := actionLogs + [log];
    }
  }
}
