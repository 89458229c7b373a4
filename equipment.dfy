/** Equipment pieces and their status getters (src/fleet/equipment.rs). */
module FleetEquipment {
  import opened Wrappers
  import opened FleetStatus

  datatype EquipmentStatus = EquipmentStatus(
    firepower: nat, armor: nat, torpedo: nat,
    antiAircraft: Option<nat>, antiSubmarineWarfare: Option<nat>,
    evasion: nat, aiming: nat, range: Range, scouting: nat, speed: nat,
    bombing: nat, aircraftRange: nat, aircraftCost: nat)

  datatype Equipment = Equipment(
    id: nat, name: Option<string>, equipTypeId: Option<seq<nat>>, status: Option<EquipmentStatus>)

  function Firepower(e: Equipment): nat { if e.status.Some? then e.status.value.firepower else 0 }
  function Armor(e: Equipment): nat { if e.status.Some? then e.status.value.armor else 0 }
  function Torpedo(e: Equipment): nat { if e.status.Some? then e.status.value.torpedo else 0 }
  function Evasion(e: Equipment): nat { if e.status.Some? then e.status.value.evasion else 0 }
  function Aiming(e: Equipment): nat { if e.status.Some? then e.status.value.aiming else 0 }
  function Scouting(e: Equipment): nat { if e.status.Some? then e.status.value.scouting else 0 }
  function Bombing(e: Equipment): nat { if e.status.Some? then e.status.value.bombing else 0 }
  function AircraftRange(e: Equipment): nat { if e.status.Some? then e.status.value.aircraftRange else 0 }
  function AircraftCost(e: Equipment): nat { if e.status.Some? then e.status.value.aircraftCost else 0 }

  /** Two-level optional: 0 when the status or the inner value is missing. */
  function AntiAircraft(e: Equipment): nat {
    if e.status.Some? && e.status.value.antiAircraft.Some? then e.status.value.antiAircraft.value else 0
  }
  function AntiSubmarineWarfare(e: Equipment): nat {
    if e.status.Some? && e.status.value.antiSubmarineWarfare.Some? then e.status.value.antiSubmarineWarfare.value else 0
  }

  function RangeOf(e: Equipment): Range {
    if e.status.Some? then e.status.value.range else Default()
  }

  /** Equipment without a status reads as all zeros and the least range. */
  lemma MissingStatusReadsAsDefaults(e: Equipment)
    requires e.status.None?
    ensures Firepower(e) == Armor(e) == Torpedo(e) == Evasion(e) == Aiming(e) == 0
    ensures Scouting(e) == Bombing(e) == AircraftRange(e) == AircraftCost(e) == 0
    ensures AntiAircraft(e) == AntiSubmarineWarfare(e) == 0
    ensures RangeOf(e) == Range.None
  {
  }

  /** Equipment with a status reads back exactly the stored fields. */
  lemma PresentStatusReadsFields(e: Equipment)
    requires e.status.Some?
    ensures Firepower(e) == e.status.value.firepower && Armor(e) == e.status.value.armor
    ensures Torpedo(e) == e.status.value.torpedo && Bombing(e) == e.status.value.bombing
    ensures Evasion(e) == e.status.value.evasion && Aiming(e) == e.status.value.aiming
    ensures Scouting(e) == e.status.value.scouting
    ensures AircraftRange(e) == e.status.value.aircraftRange && AircraftCost(e) == e.status.value.aircraftCost
    ensures RangeOf(e) == e.status.value.range
    ensures e.status.value.antiAircraft.None? ==> AntiAircraft(e) == 0
    ensures e.status.value.antiAircraft.Some? ==> AntiAircraft(e) == e.status.value.antiAircraft.value
    ensures e.status.value.antiSubmarineWarfare.None? ==> AntiSubmarineWarfare(e) == 0
    ensures e.status.value.antiSubmarineWarfare.Some? ==>
      AntiSubmarineWarfare(e) == e.status.value.antiSubmarineWarfare.value
  {
  }

  /**
   * `id[2]` is indexed unchecked: asking a piece whose type-id list is shorter
   * than three elements panics, so the question is only asked of pieces that
   * satisfy this.
   */
  predicate WellFormed(e: Equipment) {
    e.equipTypeId.Some? ==> |e.equipTypeId.value| >= 3
  }

  /** An attack aircraft is one whose third type id is 7 or 8. */
  predicate IsAttackAircraft(e: Equipment)
    requires WellFormed(e)
  {
    match e.equipTypeId
    case None => false
    case Some(ids) => ids[2] == 7 || ids[2] == 8
  }

  lemma AttackAircraftNeedsTypeIds(e: Equipment)
    requires WellFormed(e)
    ensures IsAttackAircraft(e) <==> e.equipTypeId.Some? && e.equipTypeId.value[2] in {7, 8}
  {
  }
}
