/**
 * The oldest engine, in src/lib.rs and again in src/battle.rs.
 *
 * One pass only. Every ship of both fleets, friends chained first, is sorted
 * stably by raw firepower, largest first. As in src/battle/mod.rs, an entry's
 * index is a rank among the side's ships afloat at that moment. Firepower is
 * the raw value times the direction factor, soft-capped at 220; there is no
 * damage tier and no carrier formula. A hit is a plain saturating subtraction:
 * there is no sink stopper, so friendly ships sink like enemy ships. The pass
 * does nothing when either fleet is empty, and the report carries no grade.
 *
 * src/lib.rs also holds `battle_once`, which picks the enemy fleet by
 * cumulative probability before running a battle.
 */
module EarlyEngine {
  import opened Wrappers
  import opened Numeric
  import opened Alive
  import opened FireOrders
  import opened StableSort
  import opened MergedOrders
  import Salvos
  import FS = FleetShip
  import BD = BattleDirections
  import FC = FpCalculation
  import G = Gunnery
  import FL = FleetLike

  type Lineup = Salvos.Lineup

  /** The draws one turn consumes: the `random_range` target pick, the armor roll, the glancing roll. */
  datatype HitDraws = HitDraws(target: nat, armor: real, glance: real)

  predicate ValidDraw(d: HitDraws) {
    0.0 <= d.armor < 1.0 && 0.0 <= d.glance < 1.0
  }

  predicate ValidDraws(ds: seq<HitDraws>) {
    forall i :: 0 <= i < |ds| ==> ValidDraw(ds[i])
  }

  /**
   * The firepower of an actor: raw firepower times the direction factor, then
   * the soft cap, then the identity post-cap stage. Never above the uncapped
   * value, and equal to it up to the cap.
   */
  function Firepower(s: FS.Ship, d: BD.BattleDirection): (fp: real)
    ensures fp <= FS.Firepower(s) as real * BD.FpFactor(d)
    ensures FS.Firepower(s) as real * BD.FpFactor(d) <= FC.Cap ==> fp == FS.Firepower(s) as real * BD.FpFactor(d)
  {
    var precap := FC.FpPrecapCorrection(FS.Firepower(s) as real, BD.FpFactor(d));
    FC.CappingAtMost(precap, FC.Cap);
    assert precap <= FC.Cap ==> FC.FpCapping(precap, FC.Cap) == precap by {
      if precap <= FC.Cap {
        FC.CappingBelowCap(precap, FC.Cap);
      }
    }
    FC.FpPostcapCorrection(FC.FpCapping(precap, FC.Cap))
  }

  /**
   * `get_target_mut` and the hit: no shot exactly when nobody on the target side
   * is alive; otherwise one alive ship, the one the draw picks, loses the
   * damage, saturating at 0, whichever side it is on, and no other ship changes.
   */
  function Strike(direction: BD.BattleDirection, actor: FS.Ship, targets: seq<FS.Ship>, targetHp: seq<nat>,
                  d: HitDraws): (r: Option<Salvos.Shot>)
    requires |targetHp| == |targets| && ValidDraw(d)
    ensures r.None? <==> AliveCount(targetHp) == 0
    ensures r.Some? ==> RandomAlive(targetHp, d.target) == Some(r.value.target)
    ensures r.Some? ==> var s := r.value;
      s.target < |targets| && targetHp[s.target] > 0 &&
      s.damage == G.HitDamage(Firepower(actor, direction), G.EffectiveArmor(FS.Armor(targets[s.target]), d.armor),
        targetHp[s.target], d.glance) &&
      |s.hp| == |targetHp| &&
      (forall i :: 0 <= i < |targetHp| && i != s.target ==> s.hp[i] == targetHp[i]) &&
      (s.damage < targetHp[s.target] ==> s.hp[s.target] == targetHp[s.target] - s.damage) &&
      (s.damage >= targetHp[s.target] ==> s.hp[s.target] == 0)
    ensures r.Some? ==> NoHpGained(targetHp, r.value.hp)
  {
    match RandomAlive(targetHp, d.target)
    case None => None
    case Some(t) =>
      var armor := G.EffectiveArmor(FS.Armor(targets[t]), d.armor);
      var damage := G.HitDamage(Firepower(actor, direction), armor, targetHp[t], d.glance);
      Some(Salvos.Shot(t, damage, targetHp[t := SaturatingSub(targetHp[t], damage)]))
  }

  /** Both sides' HP; this engine keeps no log beyond debug output. */
  datatype State = State(friendHp: seq<nat>, enemyHp: seq<nat>)

  predicate Fits(l: Lineup, p: State) {
    |p.friendHp| == |l.friend| && |p.enemyHp| == |l.enemy|
  }

  function Hps(p: State, friend: bool): seq<nat> {
    if friend then p.friendHp else p.enemyHp
  }

  /**
   * One iteration of the `fire_phase1` loop: the entry's index is a rank among
   * the side's alive ships; without an actor or a target nothing changes;
   * otherwise one strike on the opposite side. The actor's side never changes
   * and no HP rises.
   */
  function Step(l: Lineup, p: State, t: Turn, d: HitDraws): (q: State)
    requires Fits(l, p) && ValidDraw(d)
    ensures Fits(l, q)
    ensures Hps(q, t.friend) == Hps(p, t.friend)
    ensures NoHpGained(p.friendHp, q.friendHp) && NoHpGained(p.enemyHp, q.enemyHp)
    ensures AliveCount(Hps(p, t.friend)) <= t.index || AliveCount(Hps(p, !t.friend)) == 0 ==> q == p
  {
    var hp := Hps(p, t.friend);
    match NthAlive(hp, t.index)
    case None => p
    case Some(a) =>
      match Strike(l.direction, Salvos.Ships(l, t.friend)[a], Salvos.Ships(l, !t.friend), Hps(p, !t.friend), d)
      case None => p
      case Some(s) => if t.friend then State(p.friendHp, s.hp) else State(s.hp, p.enemyHp)
  }

  /** The `fire_phase1` loop over an order, the i-th entry using the i-th draws. */
  function Run(l: Lineup, p: State, order: seq<Turn>, draws: seq<HitDraws>): (q: State)
    requires Fits(l, p) && |draws| == |order| && ValidDraws(draws)
    ensures Fits(l, q)
    decreases |order|
  {
    if order == [] then p
    else
      var n := |order| - 1;
      Step(l, Run(l, p, order[..n], draws[..n]), order[n], draws[n])
  }

  /** Over a whole pass no HP rises. */
  lemma {:induction false} RunNoHpGained(l: Lineup, p: State, order: seq<Turn>, draws: seq<HitDraws>)
    requires Fits(l, p) && |draws| == |order| && ValidDraws(draws)
    ensures var q := Run(l, p, order, draws);
      NoHpGained(p.friendHp, q.friendHp) && NoHpGained(p.enemyHp, q.enemyHp)
    decreases |order|
  {
    if order != [] {
      var n := |order| - 1;
      RunNoHpGained(l, p, order[..n], draws[..n]);
    }
  }

  /** Once a side has nobody alive, the rest of the pass changes nothing. */
  lemma {:induction false} RunAfterWipeOut(l: Lineup, p: State, order: seq<Turn>, draws: seq<HitDraws>)
    requires Fits(l, p) && |draws| == |order| && ValidDraws(draws)
    requires AliveCount(p.friendHp) == 0 || AliveCount(p.enemyHp) == 0
    ensures Run(l, p, order, draws) == p
    decreases |order|
  {
    if order != [] {
      var n := |order| - 1;
      RunAfterWipeOut(l, p, order[..n], draws[..n]);
      var t := order[n];
      if AliveCount(p.friendHp) == 0 {
        if t.friend {
          assert AliveCount(Hps(p, t.friend)) <= t.index;
        } else {
          assert AliveCount(Hps(p, !t.friend)) == 0;
        }
      } else {
        if t.friend {
          assert AliveCount(Hps(p, !t.friend)) == 0;
        } else {
          assert AliveCount(Hps(p, t.friend)) <= t.index;
        }
      }
    }
  }

  lemma RunSnoc(l: Lineup, p: State, order: seq<Turn>, draws: seq<HitDraws>, k: nat)
    requires Fits(l, p) && |draws| == |order| && ValidDraws(draws)
    requires k < |order|
    ensures Run(l, p, order[..k + 1], draws[..k + 1]) ==
      Step(l, Run(l, p, order[..k], draws[..k]), order[k], draws[k])
  {
    assert order[..k + 1][..k] == order[..k];
    assert draws[..k + 1][..k] == draws[..k];
  }

  /** A ship's raw firepower, the sort key of `fire_order`. */
  function RawFirepower(s: FS.Ship): nat {
    FS.Firepower(s)
  }

  /** `fire_order`: every ship of both fleets, friends chained first, stably sorted by raw firepower, largest first. */
  function FireOrder(l: Lineup): (order: seq<Turn>)
    ensures |order| == |l.friend| + |l.enemy|
  {
    MergedOrder(l, RawFirepower)
  }

  /**
   * The fire order lists every ship of both fleets once, never puts a ship
   * before one with more raw firepower, and among ships of equal firepower c
   * puts the friendly ones (in fleet order) before the enemy ones (in fleet order).
   */
  lemma FireOrderFacts(l: Lineup, c: nat)
    ensures multiset(FireOrder(l)) == multiset(AllTurns(l))
    ensures var order := FireOrder(l);
      forall k, m :: 0 <= k < m < |order| ==>
        TurnKey(l, order[k], RawFirepower) >= TurnKey(l, order[m], RawFirepower)
    ensures OfKey(l, FireOrder(l), RawFirepower, c) ==
      Tagged(true, WithKeyIndices(l.friend, RawFirepower, c)) + Tagged(false, WithKeyIndices(l.enemy, RawFirepower, c))
  {
    MergedOrderPermutes(l, RawFirepower);
    MergedOrderSorted(l, RawFirepower);
    MergedOrderTies(l, RawFirepower, c);
  }

  /** `fire_phase1`: nothing when either fleet is empty, else the pass over the fire order. */
  function Phase1(l: Lineup, p: State, draws: seq<HitDraws>): (q: State)
    requires Fits(l, p)
    requires |draws| >= |l.friend| + |l.enemy| && ValidDraws(draws)
    ensures Fits(l, q)
  {
    if |l.friend| == 0 || |l.enemy| == 0 then p
    else
      var order := FireOrder(l);
      Run(l, p, order, draws[..|order|])
  }

  /**
   * The pass never raises HP and leaves an empty-fleet battle untouched; a battle
   * in which one side starts with nobody alive is untouched too.
   */
  lemma Phase1Facts(l: Lineup, p: State, draws: seq<HitDraws>)
    requires Fits(l, p)
    requires |draws| >= |l.friend| + |l.enemy| && ValidDraws(draws)
    ensures var q := Phase1(l, p, draws);
      NoHpGained(p.friendHp, q.friendHp) && NoHpGained(p.enemyHp, q.enemyHp)
    ensures |l.friend| == 0 || |l.enemy| == 0 ==> Phase1(l, p, draws) == p
    ensures AliveCount(p.friendHp) == 0 || AliveCount(p.enemyHp) == 0 ==> Phase1(l, p, draws) == p
  {
    if |l.friend| > 0 && |l.enemy| > 0 {
      var order := FireOrder(l);
      RunNoHpGained(l, p, order, draws[..|order|]);
      if AliveCount(p.friendHp) == 0 || AliveCount(p.enemyHp) == 0 {
        RunAfterWipeOut(l, p, order, draws[..|order|]);
      }
    }
  }

  /** What `to_result` reports: no grade, each ship's HP in fleet order, and the enemy fleet's index. */
  datatype Report = Report(result: Option<nat>, friendHp: seq<nat>, enemyIndex: nat, enemyHp: seq<nat>)

  /** The engine's state: the fixed lineup and the HP of each side. */
  class EarlyBattle {
    const direction: BD.BattleDirection
    const friendShips: seq<FS.Ship>
    const enemyIndex: nat
    const enemyShips: seq<FS.Ship>
    var friendHp: seq<nat>
    var enemyHp: seq<nat>

    function Fleets(): Lineup {
      Salvos.Lineup(direction, friendShips, enemyShips)
    }

    function Now(): State
      reads this
    {
      State(friendHp, enemyHp)
    }

    /** One HP per ship, none above its ship's starting HP. */
    predicate Valid()
      reads this
    {
      NoHpGained(FL.HpsOfShips(friendShips), friendHp) &&
      NoHpGained(FL.HpsOfShips(enemyShips), enemyHp)
    }

    /** `Battle::new`: the direction from the draw r and each ship's HP copied from its status. */
    constructor (friend: seq<FS.Ship>, enemyIndex: nat, enemy: seq<FS.Ship>, r: real)
      requires 0.0 <= r < 1.0
      ensures direction == BD.FromDraw(r)
      ensures friendShips == friend && enemyShips == enemy && this.enemyIndex == enemyIndex
      ensures friendHp == FL.HpsOfShips(friend) && enemyHp == FL.HpsOfShips(enemy)
      ensures Valid()
    {
      direction := BD.FromDraw(r);
      friendShips := friend;
      this.enemyIndex := enemyIndex;
      enemyShips := enemy;
      friendHp := FL.HpsOfShips(friend);
      enemyHp := FL.HpsOfShips(enemy);
    }

    /** One iteration of the `fire_phase1` loop. */
    method TakeTurn(t: Turn, d: HitDraws)
      requires Valid() && ValidDraw(d)
      modifies this
      ensures Now() == Step(Fleets(), old(Now()), t, d) && Valid()
    {
      var hp := if t.friend then friendHp else enemyHp;
      var actor := NthAlive(hp, t.index);
      if actor.None? {
        return;
      }
      var ships := if t.friend then friendShips else enemyShips;
      var targets := if t.friend then enemyShips else friendShips;
      var targetHp := if t.friend then enemyHp else friendHp;
      var shot := Strike(direction, ships[actor.value], targets, targetHp, d);
      if shot.None? {
        return;
      }
      if t.friend {
        enemyHp := shot.value.hp;
      } else {
        friendHp := shot.value.hp;
      }
    }

    /** The loop of `fire_phase1` over an order, entry by entry. */
    method FirePhase(order: seq<Turn>, draws: seq<HitDraws>)
      requires Valid() && |draws| == |order| && ValidDraws(draws)
      modifies this
      ensures Now() == Run(Fleets(), old(Now()), order, draws) && Valid()
    {
      ghost var start := Now();
      for k := 0 to |order|
        invariant Valid()
        invariant Now() == Run(Fleets(), start, order[..k], draws[..k])
      {
        RunSnoc(Fleets(), start, order, draws, k);
        TakeTurn(order[k], draws[k]);
      }
      assert order[..|order|] == order;
      assert draws[..|draws|] == draws;
    }

    /** `fire_phase1`: return at once if a fleet is empty, else the loop over `fire_order`. */
    method FirePhase1(draws: seq<HitDraws>)
      requires Valid()
      requires |draws| >= |friendShips| + |enemyShips| && ValidDraws(draws)
      modifies this
      ensures Now() == Phase1(Fleets(), old(Now()), draws) && Valid()
    {
      if |friendShips| == 0 || |enemyShips| == 0 {
        return;
      }
      var order := FireOrder(Fleets());
      FirePhase(order, draws[..|order|]);
    }

    /** `to_result`: no grade, and each ship's current HP in fleet order, none above its starting HP. */
    function ToResult(): (r: Report)
      reads this
      requires Valid()
      ensures r.result.None? && r.enemyIndex == enemyIndex
      ensures r.friendHp == friendHp && r.enemyHp == enemyHp
      ensures NoHpGained(FL.HpsOfShips(friendShips), r.friendHp)
      ensures NoHpGained(FL.HpsOfShips(enemyShips), r.enemyHp)
    {
      Report(None, friendHp, enemyIndex, enemyHp)
    }

    /** `calculate_result` of src/battle.rs: this engine never grades a battle. */
    function CalculateResult(): (r: Option<nat>)
      ensures r.None?
    {
      None
    }
  }

  /** An entry of the enemy list `battle_once` receives (src/lib.rs keeps its own record): where it appears, how likely it is, its ships. */
  datatype EnemyFleet = EnemyFleet(area: nat, mapId: nat, node: string, probability: real, ships: seq<FS.Ship>)

  /** The sum of the first n probabilities. */
  function Cumulative(enemies: seq<EnemyFleet>, n: nat): real
    requires n <= |enemies|
  {
    if n == 0 then 0.0 else Cumulative(enemies, n - 1) + enemies[n - 1].probability
  }

  /** The index the loop of `battle_once` stops at, searching from index i on; 0 when it never stops. */
  function SelectFrom(enemies: seq<EnemyFleet>, r: real, i: nat): (k: nat)
    requires i <= |enemies|
    ensures k == 0 || i <= k < |enemies|
    decreases |enemies| - i
  {
    if i == |enemies| then 0
    else if r <= Cumulative(enemies, i + 1) then i
    else SelectFrom(enemies, r, i + 1)
  }

  /** The enemy fleet `battle_once` selects for the draw r. */
  function Selected(enemies: seq<EnemyFleet>, r: real): nat {
    SelectFrom(enemies, r, 0)
  }

  /** The running total up to and including fleet j reaches r. */
  predicate Reaches(enemies: seq<EnemyFleet>, r: real, j: nat) {
    j < |enemies| && r <= Cumulative(enemies, j + 1)
  }

  /**
   * The selection is the first index from i on whose running total reaches r;
   * when no running total does, it is index 0.
   */
  lemma {:induction false} SelectedIsFirst(enemies: seq<EnemyFleet>, r: real, i: nat)
    requires i <= |enemies|
    ensures var k := SelectFrom(enemies, r, i);
      (exists j :: i <= j && Reaches(enemies, r, j)) ==>
        i <= k && Reaches(enemies, r, k) && forall j :: i <= j < k ==> !Reaches(enemies, r, j)
    ensures (forall j :: i <= j ==> !Reaches(enemies, r, j)) ==> SelectFrom(enemies, r, i) == 0
    decreases |enemies| - i
  {
    if i < |enemies| && !Reaches(enemies, r, i) {
      SelectedIsFirst(enemies, r, i + 1);
      if exists j :: i <= j && Reaches(enemies, r, j) {
        var j :| i <= j && Reaches(enemies, r, j);
        assert j != i;
      }
    }
  }

  /** When the probabilities add up to 1, every r in [0, 1) selects a fleet whose total reaches it. */
  lemma SelectionReachesDraw(enemies: seq<EnemyFleet>, r: real)
    requires |enemies| > 0 && 0.0 <= r < 1.0
    requires Cumulative(enemies, |enemies|) == 1.0
    ensures Selected(enemies, r) < |enemies|
    ensures Reaches(enemies, r, Selected(enemies, r))
  {
    SelectedIsFirst(enemies, r, 0);
    assert Reaches(enemies, r, |enemies| - 1);
  }

  /** The for loop with break in `battle_once` that accumulates the probabilities. */
  method SelectEnemy(enemies: seq<EnemyFleet>, r: real) returns (selected: nat)
    ensures selected == Selected(enemies, r)
  {
    var cumulative := 0.0;
    selected := 0;
    for index := 0 to |enemies|
      invariant cumulative == Cumulative(enemies, index)
      invariant SelectFrom(enemies, r, index) == Selected(enemies, r)
    {
      cumulative := cumulative + enemies[index].probability;
      if r <= cumulative {
        selected := index;
        return;
      }
    }
  }

  /**
   * `battle_once`: select the enemy fleet with the draw r (`enemy[selected]`
   * panics on an empty list), set up the battle with the direction draw,
   * run the first fire phase, report.
   */
  method BattleOnce(friend: seq<FS.Ship>, enemies: seq<EnemyFleet>, r: real, directionDraw: real,
                    draws: seq<HitDraws>) returns (report: Report)
    requires |enemies| > 0 && 0.0 <= directionDraw < 1.0
    requires forall i :: 0 <= i < |enemies| ==> |draws| >= |friend| + |enemies[i].ships|
    requires ValidDraws(draws)
    ensures var k := Selected(enemies, r);
      var l := Salvos.Lineup(BD.FromDraw(directionDraw), friend, enemies[k].ships);
      var q := Phase1(l, State(FL.HpsOfShips(friend), FL.HpsOfShips(enemies[k].ships)), draws);
      k < |enemies| && report == Report(None, q.friendHp, k, q.enemyHp)
  {
    var selected := SelectEnemy(enemies, r);
    var enemy := enemies[selected];
    var battle := new EarlyBattle(friend, selected, enemy.ships, directionDraw);
    battle.FirePhase1(draws);
    report := battle.ToResult();
  }
}
