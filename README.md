# Naval battle simulator core, modelled in Dafny

This project models the battle-resolution core of a turn-based naval-battle
simulator. Two fleets of ships exchange gunfire in fire orders built from the
ships' range or firepower. Each hit subtracts damage from one ship's HP, and a
grading tree turns the HP left on each side into a battle result. The
repository keeps several generations of the engine side by side, and each is
its own module here:

- `LegacyEngine` models `src/battle_legacy/mod.rs`. Its first pass interleaves
  each side's alive ships, longest range first. The leading list is always
  tagged as friend, so an enemy-led order can index past the friendly fleet and
  panic. A second pass in fleet-index order follows when a battleship-class ship
  is present.
- `Engine` models `src/battle/mod.rs`. Both fleets are merged into one stably
  sorted range order. The second pass is gated on battleship class. An order
  index is read as a rank among the ships still afloat.
- `EarlyEngine` models `src/lib.rs` and `src/battle.rs`. It has one pass in
  raw-firepower order and no sink stopper. It also models `battle_once`, the
  cumulative-probability pick of an enemy fleet.

The engines share these modules:

- the ship, equipment, range and fleet records and their derived stats
  (`FleetShip`, `FleetEquipment`, `FleetStatus`, `FleetLike`);
- the damage tiers and firepower stages (`DamagedLevels`, `FpCalculation`,
  `FightingShips`);
- the battle direction (`BattleDirections`);
- the per-shot formulas (`Gunnery`, `Salvos`);
- the alive-ship views (`Alive`);
- the order builders (`FireOrders`, `StableSort`, `MergedOrders`);
- the HP snapshots and the log (`Snapshots`, `LogSnapshots`, `BattleLogs`);
- the battle setup (`BattleSetups`);
- the seven-grade result (`BattleResults`).

The repository's `src/interface.rs` holds an earlier copy of the fleet, ship,
equipment and snapshot code. Where a member exists in both copies it behaves the
same, so those members model both copies. The copies differ in shape only:
- the earlier `FleetLike` has no `set_ships` or `apply_snapshot`;
- its ship getters map over the equipment inline;
- its `has_attack_aircraft` takes no snapshot argument.

Two rows below cite `src/interface.rs`: its `validate` and its snapshot unit test.

Every random draw of the source is a parameter:

- a real `r` with `0 <= r < 1` for `rand::random::<f64>()`;
- a natural number reduced modulo the count for `random_range(0..count)`, so every
  index below the count is reachable.

Each `f64` is an exact `real`, and `floor` is `.Floor`. `floor(sqrt(x))` is the
integer square root of `floor(x)`. `x as u16` is floored and clamped to
`[0, 65535]`.

The engines' fire loops are methods of classes that hold the HP of each side.
Each loop is proved equal to a pure fold (`Run`) over the fire order. The
properties are proved about that fold and its single step (`Step`).

## Model

| member | source | states |
|---|---|---|
| `FleetStatus.LeTotalOrder` | src/fleet/status.rs:4-14 | Ranges are totally ordered by declaration order: reflexive, total, antisymmetric and transitive. |
| `FleetStatus.Default` | src/fleet/status.rs:7-8 | The default range is None, at or below every range. |
| `FleetStatus.LabelsDistinct` | src/fleet/status.rs:16-27 | Different ranges have different display labels ("Very Long", "Very Very Long", bare names otherwise). |
| `FleetEquipment.MissingStatusReadsAsDefaults` | src/fleet/equipment.rs:17-71 | Equipment without a status reads 0 for every numeric stat, 0 for both two-level optionals, and range None. |
| `FleetEquipment.PresentStatusReadsFields` | src/fleet/equipment.rs:17-71 | Equipment with a status reads back every stored field through its getter. The two nested optional stats read their inner value when present and 0 when absent. |
| `FleetEquipment.AttackAircraftNeedsTypeIds` | src/fleet/equipment.rs:74-78 | Attack aircraft exactly when type ids are present and the third one is 7 or 8. |
| `FleetShip.SumBombing` | src/fleet/ship.rs:55-57 | The bombing total is at least every piece's bombing, and 0 when no piece has a status. |
| `FleetShip.SumBombingAppend` | src/fleet/ship.rs:55-57 | The bombing sum is additive over concatenated equipment lists. |
| `FleetShip.MaxEquipRange` | src/fleet/ship.rs:62-67 | The equipment maximum is at least every piece's range, is one of them, and is None for no equipment. |
| `FleetShip.RangeOf` | src/fleet/ship.rs:60-69 | The ship's range is at least the hull range and every equipment range, and equals one of them. |
| `FleetShip.BattleshipClassIds` | src/fleet/ship.rs:77-85 | Battleship class exactly when the type id is set and in {8, 9, 10, 12}; an unset id reads 0 and is not. |
| `FleetShip.AnyAttackAircraft` | src/fleet/ship.rs:90-92 | On any list whose scan up to the first attack aircraft cannot panic, the answer is true exactly when some readable piece is an attack aircraft. |
| `FleetShip.ScanStopsAtFirstHit` | src/fleet/ship.rs:90-92 | A leading attack aircraft makes the scan safe and true whatever follows, including pieces with too few type ids. |
| `FleetShip.DamagedLevelOf` | src/fleet/ship.rs:94-109 | The tier is Sunk iff HP is 0. Otherwise it is Heavy, Moderate or Minor at or under 25%, 50% or 75% of max HP (bounds inclusive), else NoDamage. |
| `FleetShip.ApplySnapshot` | src/fleet/ship.rs:112-114 | Only the current HP changes, to the snapshot's. |
| `FleetLike.ValidateOutcome` | src/interface.rs:29-39 | Validation succeeds iff the fleet has ships. A successful validation leaves a formation set, and one that was set or a failed validation keeps it. |
| `FleetLike.ValidateIdempotent` | src/fleet/fleet_like.rs:32-42 | Validating twice gives the same verdict and changes nothing more. |
| `FleetLike.Fleet.Validate` | src/fleet/fleet_like.rs:32-42 | The method returns the verdict and formation of `ValidateOutcome` and never touches the ships. |
| `FleetLike.EnemyFleet.Validate` | src/fleet/fleet_like.rs:89-91 | The same for an enemy fleet, which also keeps area, map, node and probability. |
| `FleetLike.Fleet.SetShips` | src/fleet/fleet_like.rs:69-71 | The ship list is replaced and the formation kept. |
| `FleetLike.EnemyFleet.SetShips` | src/fleet/fleet_like.rs:83-85 | The ship list is replaced; formation and enemy metadata are kept. |
| `FleetLike.WithSnapshots` | src/fleet/fleet_like.rs:44-62 | Zip of ships and snapshot HPs: length is the shorter one, ship i gets HP i, and nothing else changes. |
| `FleetLike.Fleet.ApplySnapshot` | src/fleet/fleet_like.rs:44-62 | A fresh fleet with the zipped ships and the same formation. |
| `FleetLike.WithOwnSnapshots` | src/fleet/fleet_like.rs:44-62 | Writing back a fleet's own HPs gives the same ships. |
| `DamagedLevels.FpFactorNonIncreasing` | src/battle/damaged_level.rs:11-19 | The firepower factor never grows along NoDamage < Minor < Moderate < Heavy < Sunk. |
| `DamagedLevels.FpFactorBounds` | src/battle/damaged_level.rs:11-19 | The factor is in [0, 1] and is 0 only for Sunk. |
| `DamagedLevels.ClassifyThresholds` | src/battle/fighting_ship.rs:74-89 | The tiers by exact integer thresholds: Sunk iff 0 HP, then 4·hp ≤ max, 2·hp ≤ max, 4·hp ≤ 3·max, all inclusive. |
| `DamagedLevels.ClassifyMonotone` | src/battle/fighting_ship.rs:74-89 | Losing HP never improves the tier. |
| `BattleDirections.FpFactorPositive` | src/battle_legacy/battle_direction.rs:10-17 | Every factor is in [0.6, 1.2] and above 1 only for the T advantage. |
| `BattleDirections.LabelsDistinct` | src/battle_legacy/battle_direction.rs:19-28 | The four directions have four different labels. |
| `BattleDirections.FromDraw` | src/battle_legacy/mod.rs:34-43 | The direction is Same for r < 0.45, Against up to 0.75, T advantage up to 0.9, else T disadvantage. |
| `BattleDirections.EveryDirectionReachable` | src/battle_legacy/mod.rs:34-43 | Every direction is produced by some draw in [0, 1). |
| `FpCalculation.FpPrecapCorrection` | src/battle/fp_calculation.rs:1-3 | A factor of 1 keeps the firepower, and a factor in [0, 1] never raises it. |
| `FpCalculation.CappingBelowCap` | src/battle/fp_calculation.rs:5-7 | Capping leaves firepower at or below the cap unchanged. |
| `FpCalculation.CappingAboveCap` | src/battle/fp_calculation.rs:5-7 | At least 1 above the cap, the result is cap + floor(sqrt(excess)), strictly above the cap. |
| `FpCalculation.CappingAtMost` | src/battle/fp_calculation.rs:5-7 | Capping never adds firepower. |
| `FpCalculation.CappingMonotone` | src/battle/fp_calculation.rs:5-7 | Capping is non-decreasing in the firepower. |
| `FpCalculation.FpPostcapCorrection` | src/battle/fp_calculation.rs:9-12 | The post-cap stage is the identity. |
| `FpCalculation.CappingTestValues` | src/battle/fp_calculation.rs:18-22 | The unit test: (200, 220) gives 200, and (230, 220) gives 223, above 220. |
| `FightingShips.BasicFp` | src/battle/fighting_ship.rs:111-122 | Base firepower is at least 5, and at least 55 with attack aircraft. |
| `FightingShips.BasicFpWhole` | src/battle/fighting_ship.rs:111-122 | It is exactly (3·(fp + torpedo + bombing))/2 + 55 with attack aircraft, else fp + 5. |
| `FightingShips.PrecapFp` | src/battle/fighting_ship.rs:124-126 | Pre-cap firepower lies in [0, 1.2 × base] and is 0 for a sunk ship. |
| `FightingShips.FirepowerBounds` | src/battle/fighting_ship.rs:100-109 | The final firepower never exceeds the pre-cap value, equals it up to the cap, and is 0 for a sunk ship. |
| `FightingShips.StopperDamage` | src/battle/fighting_ship.rs:158-163 | The flagship's replacement damage is below its HP. |
| `FightingShips.AfterDamage` | src/battle/fighting_ship.rs:156-172 | A hit never raises HP, and a friendly ship with HP keeps some. |
| `FightingShips.EscortLeftAtOne` | src/battle/fighting_ship.rs:164-165 | A lethal hit on a friendly non-flagship leaves exactly 1 HP. |
| `FightingShips.FlagshipStopper` | src/battle/fighting_ship.rs:158-163 | A lethal hit on the friendly flagship removes the stopper damage and leaves at least 1 HP. |
| `FightingShips.PlainSubtraction` | src/battle/fighting_ship.rs:166-170 | Enemies, and friends hit for less than their HP, get a saturating subtraction. |
| `FightingShips.OnlyEnemiesSink` | src/battle/fighting_ship.rs:156-172 | A ship afloat drops to 0 exactly when it is an enemy hit for at least its HP. |
| `FightingShips.FightingShip.ApplyDamage` | src/battle/fighting_ship.rs:156-172 | The method leaves the HP `AfterDamage` computes; a living friend stays alive. |
| `Snapshots.ShipSnapshot.From` | src/battle_legacy/ship_snapshot.rs:14-16 | A snapshot starts at the ship's HP. |
| `Snapshots.ShipSnapshot.ApplyDamage` | src/battle_legacy/ship_snapshot.rs:19-21 | HP becomes max(hp − amount, 0), never rises, and is unchanged by 0. |
| `Snapshots.DamageComposes` | src/battle_legacy/ship_snapshot.rs:19-21 | Damage a then b equals one damage of a + b. |
| `Snapshots.SnapshotTestSequence` | src/interface.rs:541-557 | The unit test: a 12-HP snapshot hit for 5, then 10, reads 12, 7, 0. |
| `LogSnapshots.ShipSnapshot.From` | src/battle/battle_log.rs:84-88 | The log snapshot starts at the ship's HP. |
| `LogSnapshots.ShipSnapshot.ApplyDamage` | src/battle/battle_log.rs:75-81 | HP becomes 0 when damage reaches it, else hp − damage; never a gain, and 0 damage is a no-op. |
| `LogSnapshots.SnapshotsOf` | src/battle/battle_log.rs:10-18 | One fresh, distinct snapshot per ship, at that ship's HP. |
| `BattleLogs.BattleLog.constructor` | src/battle/battle_log.rs:10-18 | The new log has no actions and one snapshot per friendly and enemy ship at its HP. |
| `BattleLogs.BattleLog.Push` | src/battle/battle_log.rs:20-22 | Exactly one entry is appended at the end; earlier entries and snapshots are unchanged. |
| `BattleSetups.New` | src/battle/battle_setup.rs:10-16 | The setup stores both fleets' fields unchanged. |
| `BattleSetups.IncludesBattleshipClassIff` | src/battle/battle_setup.rs:17-27 | True exactly when some friendly or enemy ship is battleship class; false for two empty fleets. |
| `BattleSetups.GateReadsOnlyTypeIds` | src/battle/battle_setup.rs:17-27 | The gate depends only on the ships' type ids. |
| `BattleResults.TotalDamage` | src/battle/battle_result.rs:52-68 | The total of initial − snapshot HP never exceeds the initial HP total. |
| `BattleResults.NoDamageIff` | src/battle/battle_result.rs:52-68 | The total damage is 0 exactly when every snapshot still holds its initial HP. |
| `BattleResults.FriendLossCapsAtB` | src/battle/battle_result.rs:89-98 | Any friendly loss gives B, C, D or E. |
| `BattleResults.FriendLossB` | src/battle/battle_result.rs:90-91 | With a loss, gauge ratio ≥ 2.5, or the enemy flagship sunk with more enemy than friendly losses, gives B. |
| `BattleResults.DefeatIff` | src/battle/battle_result.rs:89-98 | E exactly when friends were lost, the enemy flagship floats, the ratio is below 1 and at least half the friends are sunk. |
| `BattleResults.NoLossNeverE` | src/battle/battle_result.rs:99-113 | Without friendly losses the result is never E. |
| `BattleResults.PerfectVictoryIff` | src/battle/battle_result.rs:99-104 | SS exactly when no friend is sunk, every enemy is, and no friend lost HP; with no loss and the enemy wiped out, SS or S. |
| `BattleResults.TwoThirdsGivesA` | src/battle/battle_result.rs:105-106 | No loss, an enemy afloat, and at least two thirds of the enemy sunk gives A. |
| `Alive.AliveIndicesAscend` | src/battle/mod.rs:156-168 | The alive indices strictly ascend. |
| `Alive.AliveCountZero` | src/battle/mod.rs:171-180 | No ship is alive exactly when every HP is 0. |
| `Alive.NthAlive` | src/battle/mod.rs:156-168 | `filter(is_alive).nth(k)` is None iff fewer than k + 1 are alive; otherwise an alive ship with exactly k alive before it. |
| `Alive.RandomAlive` | src/battle/mod.rs:171-193 | The target is None iff nobody is alive, and otherwise an alive ship. |
| `Alive.EveryAliveShipReachable` | src/battle_legacy/mod.rs:253-260 | Every alive ship is picked by some draw. |
| `Alive.AllAliveIff` | src/battle/mod.rs:156-168 | All ships are alive iff all are counted, and then the alive indices are 0..n−1. |
| `Gunnery.EffectiveArmor` | src/battle_legacy/mod.rs:70-74 | The rolled armor lies in [0.7·armor, 1.3·armor), and is 0 for armor 0. |
| `Gunnery.GlancingDamage` | src/battle/mod.rs:248-258 | Glancing damage is non-negative, 0 on an empty target, and below the HP of a target afloat. |
| `Gunnery.HitDamageCases` | src/battle/mod.rs:248-263 | A penetrating hit deals floor(fp − armor), clamped to 65535; a glancing hit never sinks a ship afloat. |
| `Salvos.Fire` | src/battle/mod.rs:72-84 | No shot iff nobody is alive; otherwise only the drawn alive target is hit. It loses the damage, or sinks only if it is an enemy; no HP rises. |
| `FireOrders.InterleaveSides` | src/battle_legacy/mod.rs:166-178 | The interleaving's friend-tagged entries are the first list and its enemy-tagged ones the second. |
| `FireOrders.InterleaveAlternates` | src/battle_legacy/mod.rs:166-178 | Positions alternate (true, first[i]), (false, second[i]) while both lists last. |
| `FireOrders.InterleaveRemainder` | src/battle_legacy/mod.rs:172-178 | After the shorter list runs out, the rest of the longer list follows in order. |
| `FireOrders.RoundsAreInterleave` | src/battle_legacy/mod.rs:182-209 | The per-position rounds of `ordered_by_index` are the interleaving. |
| `FireOrders.InterleaveLoop` | src/battle_legacy/mod.rs:166-178 | The while loop with counters i and j builds exactly the interleaving. |
| `StableSort.StableSortDesc` | src/battle_legacy/mod.rs:138-151 | The sort is a permutation with non-increasing keys. |
| `StableSort.TiesKeepInputOrder` | src/battle_legacy/mod.rs:138-151 | Entries with equal keys keep their input order. |
| `LegacyEngine.GetActor` | src/battle_legacy/mod.rs:212-238 | Err for a sunk ship, Err for an attack-aircraft carrier at half HP or less, otherwise Ok with the same index. |
| `LegacyEngine.Step` | src/battle_legacy/mod.rs:278-334 | A turn panics iff its index is outside the tagged fleet. Otherwise no HP rises, no living friend sinks, and the log grows by one. |
| `LegacyEngine.RunKeepsInvariants` | src/battle_legacy/mod.rs:278-334 | Over a pass, no HP rises, no living friend sinks, and the log gains one entry per turn. |
| `LegacyEngine.RunPanicsIff` | src/battle_legacy/mod.rs:278-334 | A pass panics exactly when some entry's index is outside its tagged fleet. |
| `LegacyEngine.SortedAliveFacts` | src/battle_legacy/mod.rs:138-151 | Each side's sorted list holds exactly its alive indices, longest range first. |
| `LegacyEngine.FriendLeadsIff` | src/battle_legacy/mod.rs:153-164 | Friends lead exactly when an alive friend outranges every alive enemy; ties go to the enemy. |
| `LegacyEngine.RangeOrderShape` | src/battle_legacy/mod.rs:137-178 | The order has one entry per alive ship; the leading side's list is always tagged `true`. |
| `LegacyEngine.FriendLeadInRange` | src/battle_legacy/mod.rs:153-178 | When friends lead, every entry names a ship of its tagged fleet. |
| `LegacyEngine.EnemyLeadPanics` | src/battle_legacy/mod.rs:171 | One friend and two equal-range enemies give (true,0),(false,0),(true,1), and the pass panics. |
| `LegacyEngine.IndexOrderNeverPanics` | src/battle_legacy/mod.rs:182-209 | A pass over the index order never panics. |
| `LegacyEngine.PassesFacts` | src/battle_legacy/mod.rs:268-276 | The two passes panic iff the range pass does; otherwise no HP rises and no living friend sinks. |
| `LegacyEngine.PhaseOutcomeFacts` | src/battle_legacy/mod.rs:137-154 | `fire_phase` panics iff a side has nobody alive or the range pass panics, and never when friends lead. Otherwise no HP rises and no living friend sinks. |
| `LegacyEngine.FriendLeadNeverPanics` | src/battle_legacy/mod.rs:153-164 | When friends lead, the range pass does not panic. |
| `LegacyEngine.InRangeNeverPanics` | src/battle_legacy/mod.rs:212-238 | A pass over in-range entries does not panic. |
| `LegacyEngine.LegacyBattle.constructor` | src/battle_legacy/mod.rs:23-63 | The constructor takes the direction from the draw, starts each side at its ships' HP, and logs two opening lines. |
| `LegacyEngine.LegacyBattle.OrderedByRange` | src/battle_legacy/mod.rs:137-181 | The method returns exactly `RangeOrder`. |
| `LegacyEngine.LegacyBattle.OrderedByIndex` | src/battle_legacy/mod.rs:182-211 | The method returns exactly the interleaving of alive friends and alive enemies. |
| `LegacyEngine.LegacyBattle.IncludesBattleshipClass` | src/battle_legacy/mod.rs:262-267 | True exactly when some ship of either fleet is battleship class. |
| `LegacyEngine.LegacyBattle.FirePhaseHelper` | src/battle_legacy/mod.rs:278-334 | The loop panics iff the pure pass does, and otherwise leaves the pass's state. |
| `LegacyEngine.LegacyBattle.RunPasses` | src/battle_legacy/mod.rs:270-275 | Running the range pass then, when a battleship-class ship takes part and nothing panicked, the index pass panics iff `Passes` does and otherwise leaves its state. |
| `LegacyEngine.LegacyBattle.FirePhase` | src/battle_legacy/mod.rs:268-276 | The method panics iff `PhaseOutcome` does, and otherwise leaves its state. |
| `LegacyEngine.LegacyBattle.CalculateResult` | src/battle_legacy/mod.rs:335-403 | Always a grade. A friendly loss caps it at B; SS iff no friend sunk, all enemies sunk, no friendly HP lost. |
| `MergedOrders.MergedOrderPermutes` | src/battle/mod.rs:133-153 | The merged order lists every ship of both fleets exactly once. |
| `MergedOrders.MergedOrderSorted` | src/battle/mod.rs:133-153 | No entry precedes one with a larger key. |
| `MergedOrders.MergedOrderTies` | src/battle/mod.rs:133-153 | Among equal keys, the friends in fleet order come first, then the enemies in fleet order. |
| `Engine.ActorIsOwnShipIff` | src/battle/mod.rs:156-168 | An entry names its own ship iff that ship and every earlier one are afloat. |
| `Engine.SunkLeaderShiftsTurns` | src/battle/mod.rs:156-168 | With the first of three ships sunk, turns 0 and 1 go to ships 1 and 2, and turn 2 finds no actor. |
| `Engine.Step` | src/battle/mod.rs:210-268 | One turn: the actor's side is unchanged, no HP rises, no living friend sinks, and the log grows by one. Without an actor, only the skip is logged. |
| `Engine.RunKeepsInvariants` | src/battle/mod.rs:210-268 | Over a pass, no HP rises, no living friend sinks, and the log gains one entry per turn. |
| `Engine.RangeOrderFacts` | src/battle/mod.rs:133-153 | The range order is a permutation of all ships, longest range first, with friends before enemies on ties. |
| `Engine.IndexOrderFacts` | src/battle/mod.rs:298-306 | The second order names every friendly and every enemy ship once, each side in fleet order, alive or not. It runs friend i then enemy i while both fleets have a ship i. |
| `Engine.Phase1Facts` | src/battle/mod.rs:271-290 | Phase 1 logs its start line, then one line per ship. No HP rises and no living friend sinks. |
| `Engine.Phase2Facts` | src/battle/mod.rs:291-320 | Without a battleship-class ship, phase 2 only logs the skip. With one, it logs its start and one line per ship, no HP rises and no living friend sinks. |
| `Engine.Battle.constructor` | src/battle/mod.rs:21-66 | The constructor takes the direction from the draw, starts each side at its ships' HP, and logs two opening lines. |
| `Engine.Battle.IncludesBattleshipClass` | src/battle/mod.rs:195-207 | The loops return true exactly when some ship of either fleet is battleship class. |
| `Engine.Battle.SecondOrder` | src/battle/mod.rs:298-306 | The for loop builds exactly the index order. |
| `Engine.Battle.FirePhase` | src/battle/mod.rs:210-268 | The loop leaves the state of the pure pass. |
| `Engine.Battle.FirePhase1` | src/battle/mod.rs:271-290 | The method leaves the state of `Phase1`. |
| `Engine.Battle.FirePhase2` | src/battle/mod.rs:291-320 | The method leaves the state of `Phase2`. |
| `Engine.Battle.CalculateResult` | src/battle/mod.rs:322-388 | Always a grade. A friendly loss caps it at B; SS iff no friend sunk, all enemies sunk, no friendly HP lost. |
| `EarlyEngine.Firepower` | src/lib.rs:235-246 | The actor's firepower never exceeds raw firepower × direction factor, and equals it up to the 220 cap. |
| `EarlyEngine.Strike` | src/lib.rs:211-233 | No hit iff the other side has nobody alive; otherwise the drawn alive ship alone loses the damage, saturating at 0, friend or not. |
| `EarlyEngine.Step` | src/lib.rs:256-321 | One turn: the actor's side is unchanged, no HP rises, and nothing happens without an actor or a target. |
| `EarlyEngine.RunNoHpGained` | src/lib.rs:256-321 | Over a pass no HP rises. |
| `EarlyEngine.RunAfterWipeOut` | src/lib.rs:211-233 | Once a side has nobody alive, the rest of the pass changes nothing. |
| `EarlyEngine.FireOrderFacts` | src/lib.rs:171-191 | The fire order is a permutation of all ships, highest raw firepower first, with friends before enemies on ties. |
| `EarlyEngine.Phase1Facts` | src/lib.rs:249-253 | The pass leaves an empty-fleet or one-sided battle untouched and never raises HP. |
| `EarlyEngine.EarlyBattle.constructor` | src/lib.rs:140-169 | The constructor takes the direction from the draw and starts each side at its ships' HP. |
| `EarlyEngine.EarlyBattle.FirePhase` | src/battle.rs:205-266 | The loop leaves the state of the pure pass. |
| `EarlyEngine.EarlyBattle.FirePhase1` | src/battle.rs:195-267 | The method leaves the state of `Phase1`. |
| `EarlyEngine.EarlyBattle.ToResult` | src/lib.rs:324-339 | No grade, the enemy index, and each ship's current HP in order, none above its start. |
| `EarlyEngine.EarlyBattle.CalculateResult` | src/battle.rs:269-271 | This engine never grades: always None. |
| `EarlyEngine.SelectedIsFirst` | src/lib.rs:402-408 | The pick is the first index whose running probability total reaches r, or 0 when none does. |
| `EarlyEngine.SelectionReachesDraw` | src/lib.rs:398-409 | If the probabilities sum to 1, every r in [0, 1) picks an index whose running total reaches r. |
| `EarlyEngine.SelectEnemy` | src/lib.rs:399-408 | The loop with break computes exactly that pick. |
| `EarlyEngine.BattleOnce` | src/lib.rs:398-422 | `battle_once` reports the first pass run on the picked enemy fleet, with that fleet's index and no grade. |

## Left out

- FleetEquipment.WellFormed, FleetShip.AnyAttackAircraft, Salvos.WellFormedLineup:
  the model requires every ship's attack-aircraft scan to be panic-free. That
  means every piece up to the first attack aircraft has no type-id list or one
  of at least three entries. The source panics at `id[2]` only when it scans a
  ship that acts. So the model leaves that panic out, and it excludes lineups
  where a ship that never acts has a short type-id list.
- EarlyEngine.BattleOnce: requires a non-empty enemy list. On an empty list
  `enemy[selected]` panics (src/lib.rs:409), and the model leaves that panic out.
- FightingShips.AfterDamage: requires that a friendly escort hit lethally has HP
  left. At 0 HP `hp_now() - 1` underflows (src/battle/fighting_ship.rs:164), and
  the model leaves that out. The engines only target alive ships, so they never
  reach this case.
- Random sources are not modelled. Every draw is a parameter, so the stated
  percentage distributions and the RNG state are not.
- `random_range(0..n)` is modelled as a natural number taken modulo n. Every
  index is reachable, but uniformity is not stated.
- IEEE-754 behaviour is not modelled: arithmetic is exact on reals, and the
  1e-10 guard is the rational 1/10^10. NaN and infinite values are excluded by
  preconditions: zero total initial HP, and empty fleets in the grading ratios.
- Integer widths are not modelled: the u16 HP, the sums that could overflow
  u16, and the f64 rounding of the running probability total. The model uses
  unbounded naturals. Only the `as u16` cast of damage is modelled, by
  flooring and clamping.
- The WebAssembly entry points are host I/O and one-shot initialisation:
  `simulate`, `initialize`, logger setup and the panic hook in src/lib.rs.
- Serde (de)serialisation and the JSON tests in src/interface.rs are left out.
  The `#[serde(default)]` fields appear only as optional record fields.
- Log text formatting and `debug!` output are left out: `push_fire_log`,
  `flush_logs_debug`, and the name listings of the fire order. Logs are
  modelled as sequences of events that only grow.
- The debug line of src/battle.rs that adds the damage back to the HP is left
  out. It could overflow u16 when debug logging is on.
- Variants with no behaviour are left out: Torpedo, AirStrike, AirCombat,
  `is_critical`, `is_miss`, the formations other than line ahead, and
  src/battle_legacy/battle_result.rs, which is only a declaration.
- `BattleDirection::random` of `battle::battle_direction` is not part of this
  model. `BattleSetups.New` takes the direction as a parameter.
- The legacy engine imports a `fighting_ship` module that is not part of this
  model. The legacy engine reuses the model of src/battle/fighting_ship.rs,
  the closest code available.
- `interface::ShipResult` is not part of this model. `EarlyEngine` assumes its
  `damage` is the same saturating subtraction that src/lib.rs writes inline.
- The library stable sort `sort_by_key` is specified, not re-implemented:
  `StableSort.StableSortDesc` is a selection of the largest key block, proved
  stable.
- In src/battle/mod.rs the first order is built by that sort, not by a loop,
  so `Engine.RangeOrder` is a function.
- `random_range(0..n)` panics for n = 0. The source never calls it then, and
  the model returns None without a draw.
- The records of src/lib.rs (`Ship` with HP, firepower and armor only; `Fleet`;
  `EnemyFleet`) are represented by the shared `FleetShip.Ship`. Only the fields
  src/lib.rs reads are used.

Where the code and its documentation disagree, the model follows the code:

- In the legacy range order, equal best ranges let the enemy list lead,
  because the comparison is strictly greater.
- The glancing damage `hp * 0.06` is not floored before the floored random
  term is added.
