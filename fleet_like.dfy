/**
 * Fleets (src/fleet/fleet_like.rs): the friendly `Fleet` and the `EnemyFleet`,
 * with the `FleetLike` trait's default methods written out on each.
 */
module FleetLike {
  import opened Wrappers
  import FS = FleetShip
  import LogSnapshots

  datatype Formation = LineAhead | DoubleLine | Diamond | Echelon | LineAbreast | Vanguard

  /**
   * `validate` as a function of a fleet's ships and formation: the verdict and the
   * formation afterwards. An empty fleet is rejected untouched; otherwise a missing
   * formation becomes line ahead.
   */
  function ValidateOutcome(ships: seq<FS.Ship>, formation: Option<Formation>): (res: (bool, Option<Formation>))
    ensures res.0 <==> ships != []
    ensures res.0 ==> res.1.Some?
    ensures formation.Some? || !res.0 ==> res.1 == formation
  {
    if ships == [] then (false, formation)
    else if formation.None? then (true, Some(LineAhead))
    else (true, formation)
  }

  /** Validating a second time gives the same verdict and changes nothing. */
  lemma ValidateIdempotent(ships: seq<FS.Ship>, formation: Option<Formation>)
    ensures var once := ValidateOutcome(ships, formation);
      ValidateOutcome(ships, once.1) == once
  {
  }

  /** The ships with each one's current HP replaced by the matching snapshot's, zipped to the shorter list. */
  function WithSnapshots(ships: seq<FS.Ship>, hps: seq<nat>): (r: seq<FS.Ship>)
    ensures |r| == if |ships| <= |hps| then |ships| else |hps|
    ensures forall i :: 0 <= i < |r| ==> FS.Hp(r[i]) == hps[i]
    ensures forall i :: 0 <= i < |r| ==> r[i].(status := ships[i].status) == ships[i]
  {
    var n := if |ships| <= |hps| then |ships| else |hps|;
    seq(n, i requires 0 <= i < n => FS.ApplySnapshot(ships[i], hps[i]))
  }

  /** Each ship's current HP, in fleet order. */
  function HpsOfShips(ships: seq<FS.Ship>): (r: seq<nat>)
    ensures |r| == |ships|
    ensures forall i :: 0 <= i < |ships| ==> r[i] == FS.Hp(ships[i])
  {
    seq(|ships|, i requires 0 <= i < |ships| => FS.Hp(ships[i]))
  }

  /** Writing back the HP a fleet already has gives the same fleet. */
  lemma WithOwnSnapshots(ships: seq<FS.Ship>)
    ensures WithSnapshots(ships, HpsOfShips(ships)) == ships
  {
    var r := WithSnapshots(ships, HpsOfShips(ships));
    forall i | 0 <= i < |ships| ensures r[i] == ships[i] {
      assert r[i].status == ships[i].status;
    }
  }

  class Fleet {
    var ships: seq<FS.Ship>
    var formation: Option<Formation>

    constructor (ships: seq<FS.Ship>, formation: Option<Formation>)
      ensures this.ships == ships && this.formation == formation
    {
      this.ships := ships;
      this.formation := formation;
    }

    predicate IsEmpty()
      reads this
    {
      ships == []
    }

    method SetShips(ships: seq<FS.Ship>)
      modifies this
      ensures this.ships == ships && formation == old(formation)
    {
      this.ships := ships;
    }

    method SetFormationDefault()
      modifies this
      ensures formation == Some(LineAhead) && ships == old(ships)
    {
      formation := Some(LineAhead);
    }

    method Validate() returns (ok: bool)
      modifies this
      ensures (ok, formation) == ValidateOutcome(old(ships), old(formation))
      ensures ships == old(ships)
    {
      if IsEmpty() {
        return false;
      }
      if formation.None? {
        SetFormationDefault();
      }
      return true;
    }

    /** A new fleet whose ships carry the snapshots' HP; this fleet is left as it was. */
    method ApplySnapshot(snapshots: seq<LogSnapshots.ShipSnapshot>) returns (f: Fleet)
      ensures fresh(f)
      ensures f.ships == WithSnapshots(ships, LogSnapshots.HpsOf(snapshots))
      ensures f.formation == formation
    {
      var newShips := WithSnapshots(ships, LogSnapshots.HpsOf(snapshots));
      f := new Fleet(ships, formation);
      f.SetShips(newShips);
    }
  }

  class EnemyFleet {
    var area: nat
    var mapId: nat
    var node: string
    var probability: real
    var ships: seq<FS.Ship>
    var formation: Option<Formation>

    constructor (area: nat, mapId: nat, node: string, probability: real,
                 ships: seq<FS.Ship>, formation: Option<Formation>)
      ensures this.area == area && this.mapId == mapId && this.node == node
      ensures this.probability == probability
      ensures this.ships == ships && this.formation == formation
    {
      this.area := area;
      this.mapId := mapId;
      this.node := node;
      this.probability := probability;
      this.ships := ships;
      this.formation := formation;
    }

    predicate IsEmpty()
      reads this
    {
      ships == []
    }

    method SetShips(ships: seq<FS.Ship>)
      modifies this
      ensures this.ships == ships && formation == old(formation)
      ensures area == old(area) && mapId == old(mapId) && node == old(node) && probability == old(probability)
    {
      this.ships := ships;
    }

    method SetFormationDefault()
      modifies this
      ensures formation == Some(LineAhead) && ships == old(ships)
      ensures area == old(area) && mapId == old(mapId) && node == old(node) && probability == old(probability)
    {
      formation := Some(LineAhead);
    }

    method Validate() returns (ok: bool)
      modifies this
      ensures (ok, formation) == ValidateOutcome(old(ships), old(formation))
      ensures ships == old(ships)
      ensures area == old(area) && mapId == old(mapId) && node == old(node) && probability == old(probability)
    {
      if IsEmpty() {
        return false;
      }
      if formation.None? {
        SetFormationDefault();
      }
      return true;
    }

    method ApplySnapshot(snapshots: seq<LogSnapshots.ShipSnapshot>) returns (f: EnemyFleet)
      ensures fresh(f)
      ensures f.ships == WithSnapshots(ships, LogSnapshots.HpsOf(snapshots))
      ensures f.formation == formation
      ensures f.area == area && f.mapId == mapId && f.node == node && f.probability == probability
    {
      var newShips := WithSnapshots(ships, LogSnapshots.HpsOf(snapshots));
      f := new EnemyFleet(area, mapId, node, probability, ships, formation);
      f.SetShips(newShips);
    }
  }
}
