/**
 * The engine of src/battle/mod.rs, built on `FightingShip`.
 *
 * The first pass lists every ship of both fleets, friends first, and sorts the
 * list stably by range, longest first. The second pass runs only when some ship
 * is of a battleship class; it alternates friend i and enemy i. Every entry's
 * index is read by `get_actor` as a rank among the side's ships that are
 * afloat at that moment: once a ship of a side is sunk, that side's later
 * entries go to the next ship afloat, and the last entries find no actor and
 * are skipped. Nothing in this engine panics.
 *
 * Each ship's snapshot HP is an entry of `friendHp`/`enemyHp`; the log is a
 * list of events. Random draws are parameters (see Salvos.TurnDraws).
 */
module Engine {
  import opened Wrappers
  import opened Alive
  import opened FireOrders
  import opened StableSort
  import opened Salvos
  import opened MergedOrders
  import FS = FleetShip
  import FSt = FleetStatus
  import BD = BattleDirections
  import FL = FleetLike
  import BR = BattleResults

  datatype Event =
    | BattleStart
    | DirectionChosen(direction: BD.BattleDirection)
    | PhaseStarted(phase: nat)
    | SecondPhaseSkipped
    | ActorMissing(friend: bool, index: nat)
    | NoTarget(friend: bool, index: nat)
    | Fired(friend: bool, actor: nat, target: nat, damage: nat)

  /** Both sides' snapshot HP and the log. */
  datatype State = State(friendHp: seq<nat>, enemyHp: seq<nat>, logs: seq<Event>)

  /** One HP entry per ship on each side. */
  predicate Fits(l: Lineup, p: State) {
    |p.friendHp| == |l.friend| && |p.enemyHp| == |l.enemy|
  }

  function Hps(p: State, friend: bool): seq<nat> {
    if friend then p.friendHp else p.enemyHp
  }

  /**
   * `get_actor` is `filter(is_alive).nth(index)`, so an entry names its own ship
   * exactly when that ship and every ship before it in the fleet are afloat.
   */
  lemma ActorIsOwnShipIff(hp: seq<nat>, i: nat)
    ensures NthAlive(hp, i) == Some(i) <==> i < |hp| && forall j :: 0 <= j <= i ==> hp[j] > 0
  {
    if i < |hp| && forall j :: 0 <= j <= i ==> hp[j] > 0 {
      var pre := hp[..i + 1];
      assert forall j :: 0 <= j < |pre| ==> pre[j] > 0;
      AllAliveIff(pre);
      AliveIndicesPrefix(hp, i + 1);
      assert AliveIndices(pre)[i] == i;
    }
    if NthAlive(hp, i) == Some(i) {
      var pre := hp[..i];
      AllAliveIff(pre);
      assert forall j :: 0 <= j < i ==> pre[j] == hp[j];
    }
  }

  /**
   * With the first of three ships sunk, the entry for ship 0 is taken by ship 1,
   * the entry for ship 1 by ship 2, and the entry for ship 2 finds no actor.
   */
  lemma SunkLeaderShiftsTurns()
    ensures NthAlive([0, 5, 7], 0) == Some(1)
    ensures NthAlive([0, 5, 7], 1) == Some(2)
    ensures NthAlive([0, 5, 7], 2) == None
  {
    var hp: seq<nat> := [0, 5, 7];
    assert hp[..2][..1] == [0];
    assert hp[..2] == [0, 5];
    assert AliveIndices(hp) == [1, 2];
  }

  /**
   * One iteration of `fire_phase`. An entry with no actor, or an actor with no
   * target, adds a log entry; otherwise one shot hits the side opposite the
   * actor. The actor's own side never changes, no HP rises, no friendly ship
   * that has HP loses it all, and the log grows by exactly one entry.
   */
  function Step(l: Lineup, p: State, t: Turn, d: TurnDraws): (q: State)
    requires WellFormedLineup(l) && Fits(l, p) && ValidDraw(d)
    ensures Fits(l, q)
    ensures Hps(q, t.friend) == Hps(p, t.friend)
    ensures NoHpGained(p.friendHp, q.friendHp) && NoHpGained(p.enemyHp, q.enemyHp)
    ensures NoneSunk(p.friendHp, q.friendHp)
    ensures |q.logs| == |p.logs| + 1 && q.logs[..|p.logs|] == p.logs
    ensures AliveCount(Hps(p, t.friend)) <= t.index ==> q == p.(logs := p.logs + [ActorMissing(t.friend, t.index)])
  {
    var hp := Hps(p, t.friend);
    match NthAlive(hp, t.index)
    case None => p.(logs := p.logs + [ActorMissing(t.friend, t.index)])
    case Some(a) =>
      match Fire(l.direction, Ships(l, t.friend)[a], hp[a], Ships(l, !t.friend), Hps(p, !t.friend), !t.friend, d)
      case None => p.(logs := p.logs + [NoTarget(t.friend, t.index)])
      case Some(s) =>
        var logs := p.logs + [Fired(t.friend, t.index, s.target, s.damage)];
        if t.friend then State(p.friendHp, s.hp, logs) else State(s.hp, p.enemyHp, logs)
  }

  /** The whole loop of `fire_phase` over an order, the i-th entry using the i-th draws. */
  function Run(l: Lineup, p: State, order: seq<Turn>, draws: seq<TurnDraws>): (q: State)
    requires WellFormedLineup(l) && Fits(l, p) && |draws| == |order| && ValidDraws(draws)
    ensures Fits(l, q)
    decreases |order|
  {
    if order == [] then p
    else
      var n := |order| - 1;
      Step(l, Run(l, p, order[..n], draws[..n]), order[n], draws[n])
  }

  /**
   * Over a whole pass: no HP rises, every friendly ship that had HP still has
   * some, and the log gains one entry per order entry, after the old ones.
   */
  lemma {:induction false} RunKeepsInvariants(l: Lineup, p: State, order: seq<Turn>, draws: seq<TurnDraws>)
    requires WellFormedLineup(l) && Fits(l, p) && |draws| == |order| && ValidDraws(draws)
    ensures var q := Run(l, p, order, draws);
      NoHpGained(p.friendHp, q.friendHp) && NoHpGained(p.enemyHp, q.enemyHp) &&
      NoneSunk(p.friendHp, q.friendHp) &&
      |q.logs| == |p.logs| + |order| && q.logs[..|p.logs|] == p.logs
    decreases |order|
  {
    if order != [] {
      var n := |order| - 1;
      var m := Run(l, p, order[..n], draws[..n]);
      RunKeepsInvariants(l, p, order[..n], draws[..n]);
      var q := Run(l, p, order, draws);
      assert q.logs[..|m.logs|] == m.logs;
      assert q.logs[..|p.logs|] == m.logs[..|p.logs|];
    }
  }

  /** Running one more entry of an order is one more step. */
  lemma RunSnoc(l: Lineup, p: State, order: seq<Turn>, draws: seq<TurnDraws>, k: nat)
    requires WellFormedLineup(l) && Fits(l, p) && |draws| == |order| && ValidDraws(draws)
    requires k < |order|
    ensures Run(l, p, order[..k + 1], draws[..k + 1]) ==
      Step(l, Run(l, p, order[..k], draws[..k]), order[k], draws[k])
  {
    assert order[..k + 1][..k] == order[..k];
    assert draws[..k + 1][..k] == draws[..k];
  }

  /** A step keeps every HP at or below a ceiling the state was already under. */
  lemma StepKeepsCeiling(l: Lineup, p: State, t: Turn, d: TurnDraws, fi: seq<nat>, ei: seq<nat>)
    requires WellFormedLineup(l) && Fits(l, p) && ValidDraw(d)
    requires NoHpGained(fi, p.friendHp) && NoHpGained(ei, p.enemyHp)
    ensures var q := Step(l, p, t, d);
      NoHpGained(fi, q.friendHp) && NoHpGained(ei, q.enemyHp)
  {
  }

  /** A ship's range class as the derived order compares it. */
  function RangeClass(s: FS.Ship): nat {
    FSt.Rank(FS.RangeOf(s))
  }

  /** `ordered_by_range`: every ship of both fleets, friends chained first, stably sorted longest range first. */
  function RangeOrder(l: Lineup): (order: seq<Turn>)
    ensures |order| == |l.friend| + |l.enemy|
  {
    MergedOrder(l, RangeClass)
  }

  /**
   * The range order lists every ship of both fleets once, never puts a ship
   * before one with a longer range, and within range class c puts the friendly
   * ships (in fleet order) before the enemy ships (in fleet order).
   */
  lemma RangeOrderFacts(l: Lineup, c: nat)
    ensures multiset(RangeOrder(l)) == multiset(AllTurns(l))
    ensures var order := RangeOrder(l);
      forall k, m :: 0 <= k < m < |order| ==>
        TurnKey(l, order[k], RangeClass) >= TurnKey(l, order[m], RangeClass)
    ensures OfKey(l, RangeOrder(l), RangeClass, c) ==
      Tagged(true, WithKeyIndices(l.friend, RangeClass, c)) + Tagged(false, WithKeyIndices(l.enemy, RangeClass, c))
  {
    MergedOrderPermutes(l, RangeClass);
    MergedOrderSorted(l, RangeClass);
    MergedOrderTies(l, RangeClass, c);
  }

  /** The second pass's order: friend i then enemy i, for i up to the longer fleet. */
  function IndexOrder(l: Lineup): (order: seq<Turn>)
    ensures |order| == |l.friend| + |l.enemy|
  {
    Interleave(Indices(|l.friend|), Indices(|l.enemy|))
  }

  /**
   * The second pass names each friendly and each enemy ship once, each side in
   * fleet order, and while both fleets have a ship i, friend i is followed by enemy i.
   */
  lemma IndexOrderFacts(l: Lineup)
    ensures Side(IndexOrder(l), true) == Indices(|l.friend|)
    ensures Side(IndexOrder(l), false) == Indices(|l.enemy|)
    ensures forall i :: 0 <= i < |l.friend| && i < |l.enemy| ==>
      IndexOrder(l)[2 * i] == Turn(true, i) && IndexOrder(l)[2 * i + 1] == Turn(false, i)
  {
    var a, b := Indices(|l.friend|), Indices(|l.enemy|);
    InterleaveSides(a, b);
    forall i | 0 <= i < |l.friend| && i < |l.enemy|
      ensures IndexOrder(l)[2 * i] == Turn(true, i) && IndexOrder(l)[2 * i + 1] == Turn(false, i)
    {
      InterleaveAlternates(a, b, i);
    }
  }

  /** `fire_phase1`: the start line, then the range pass with the first draws. */
  function Phase1(l: Lineup, p: State, draws: seq<TurnDraws>): (q: State)
    requires WellFormedLineup(l) && Fits(l, p)
    requires |draws| >= |l.friend| + |l.enemy| && ValidDraws(draws)
    ensures Fits(l, q)
  {
    var order := RangeOrder(l);
    Run(l, p.(logs := p.logs + [PhaseStarted(1)]), order, draws[..|order|])
  }

  /** `fire_phase2`: a skip line when no ship is of a battleship class, else the start line and the index pass. */
  function Phase2(l: Lineup, p: State, draws: seq<TurnDraws>): (q: State)
    requires WellFormedLineup(l) && Fits(l, p)
    requires |draws| >= |l.friend| + |l.enemy| && ValidDraws(draws)
    ensures Fits(l, q)
  {
    if !Gate(l) then p.(logs := p.logs + [SecondPhaseSkipped])
    else
      var order := IndexOrder(l);
      Run(l, p.(logs := p.logs + [PhaseStarted(2)]), order, draws[..|order|])
  }

  /**
   * The first pass gives every ship one entry: no HP rises, no friendly ship that
   * had HP is sunk, and the log gains the start line and one line per ship.
   */
  lemma Phase1Facts(l: Lineup, p: State, draws: seq<TurnDraws>)
    requires WellFormedLineup(l) && Fits(l, p)
    requires |draws| >= |l.friend| + |l.enemy| && ValidDraws(draws)
    ensures var q := Phase1(l, p, draws);
      NoHpGained(p.friendHp, q.friendHp) && NoHpGained(p.enemyHp, q.enemyHp) &&
      NoneSunk(p.friendHp, q.friendHp) &&
      |q.logs| == |p.logs| + 1 + |l.friend| + |l.enemy| &&
      q.logs[..|p.logs| + 1] == p.logs + [PhaseStarted(1)]
  {
    var order := RangeOrder(l);
    RunKeepsInvariants(l, p.(logs := p.logs + [PhaseStarted(1)]), order, draws[..|order|]);
  }

  /**
   * Without a battleship-class ship the second pass only logs that it is skipped;
   * with one it gives every ship an entry, under the same invariants as the first.
   */
  lemma Phase2Facts(l: Lineup, p: State, draws: seq<TurnDraws>)
    requires WellFormedLineup(l) && Fits(l, p)
    requires |draws| >= |l.friend| + |l.enemy| && ValidDraws(draws)
    ensures var q := Phase2(l, p, draws);
      (!Gate(l) ==> q.friendHp == p.friendHp && q.enemyHp == p.enemyHp && q.logs == p.logs + [SecondPhaseSkipped]) &&
      (Gate(l) ==>
        NoHpGained(p.friendHp, q.friendHp) && NoHpGained(p.enemyHp, q.enemyHp) &&
        NoneSunk(p.friendHp, q.friendHp) &&
        |q.logs| == |p.logs| + 1 + |l.friend| + |l.enemy| &&
        q.logs[..|p.logs| + 1] == p.logs + [PhaseStarted(2)])
  {
    if Gate(l) {
      var order := IndexOrder(l);
      RunKeepsInvariants(l, p.(logs := p.logs + [PhaseStarted(2)]), order, draws[..|order|]);
    }
  }

  /** The engine's state: the fixed lineup, the snapshot HP of each side and the log. */
  class Battle {
    const direction: BD.BattleDirection
    const friendShips: seq<FS.Ship>
    const enemyIndex: nat
    const enemyShips: seq<FS.Ship>
    var friendHp: seq<nat>
    var enemyHp: seq<nat>
    var logs: seq<Event>

    function Fleets(): Lineup {
      Lineup(direction, friendShips, enemyShips)
    }

    function Now(): State
      reads this
    {
      State(friendHp, enemyHp, logs)
    }

    /** Well-formed ships, one snapshot per ship, and no snapshot above its ship's starting HP. */
    predicate Valid()
      reads this
    {
      WellFormedLineup(Fleets()) &&
      NoHpGained(FL.HpsOfShips(friendShips), friendHp) &&
      NoHpGained(FL.HpsOfShips(enemyShips), enemyHp)
    }

    /** `Battle::new`: the direction from the draw r, fresh snapshots, the two opening log lines. */
    constructor (friend: seq<FS.Ship>, enemyIndex: nat, enemy: seq<FS.Ship>, r: real)
      requires 0.0 <= r < 1.0
      requires AllWellFormed(friend) && AllWellFormed(enemy)
      ensures direction == BD.FromDraw(r)
      ensures friendShips == friend && enemyShips == enemy && this.enemyIndex == enemyIndex
      ensures friendHp == FL.HpsOfShips(friend) && enemyHp == FL.HpsOfShips(enemy)
      ensures logs == [BattleStart, DirectionChosen(direction)]
      ensures Valid()
    {
      var d := BD.FromDraw(r);
      direction := d;
      friendShips := friend;
      this.enemyIndex := enemyIndex;
      enemyShips := enemy;
      friendHp := FL.HpsOfShips(friend);
      enemyHp := FL.HpsOfShips(enemy);
      logs := [BattleStart, DirectionChosen(d)];
    }

    /** `includes_battleship_class`: a loop over each fleet, returning at the first battleship-class ship. */
    method IncludesBattleshipClass() returns (found: bool)
      ensures found <==>
        (exists i :: 0 <= i < |friendShips| && FS.IsBattleshipClass(friendShips[i])) ||
        (exists i :: 0 <= i < |enemyShips| && FS.IsBattleshipClass(enemyShips[i]))
    {
      for i := 0 to |friendShips|
        invariant forall j :: 0 <= j < i ==> !FS.IsBattleshipClass(friendShips[j])
      {
        if FS.IsBattleshipClass(friendShips[i]) {
          return true;
        }
      }
      for i := 0 to |enemyShips|
        invariant forall j :: 0 <= j < i ==> !FS.IsBattleshipClass(enemyShips[j])
      {
        if FS.IsBattleshipClass(enemyShips[i]) {
          return true;
        }
      }
      return false;
    }

    /** The for loop of `fire_phase2` that pushes `(true, i)` and `(false, i)` while each fleet has a ship i. */
    method SecondOrder() returns (order: seq<Turn>)
      ensures order == IndexOrder(Fleets())
    {
      var friend, enemy := Indices(|friendShips|), Indices(|enemyShips|);
      order := [];
      var length := Max(|friendShips|, |enemyShips|);
      for i := 0 to length
        invariant order == Rounds(friend, enemy, i)
      {
        ghost var before := order;
        if i < |friendShips| {
          order := order + [Turn(true, i)];
        }
        if i < |enemyShips| {
          order := order + [Turn(false, i)];
        }
        assert order == before + Round(friend, enemy, i);
      }
      RoundsAreInterleave(friend, enemy, length);
    }

    /** One iteration of `fire_phase`. */
    method TakeTurn(t: Turn, d: TurnDraws)
      requires Valid() && ValidDraw(d)
      modifies this
      ensures Now() == Step(Fleets(), old(Now()), t, d) && Valid()
    {
      StepKeepsCeiling(Fleets(), Now(), t, d, FL.HpsOfShips(friendShips), FL.HpsOfShips(enemyShips));
      var ships := if t.friend then friendShips else enemyShips;
      var hp := if t.friend then friendHp else enemyHp;
      var actor := NthAlive(hp, t.index);
      if actor.None? {
        logs := logs + [ActorMissing(t.friend, t.index)];
        return;
      }
      var targets := if t.friend then enemyShips else friendShips;
      var targetHp := if t.friend then enemyHp else friendHp;
      var shot := Fire(direction, ships[actor.value], hp[actor.value], targets, targetHp, !t.friend, d);
      if shot.None? {
        logs := logs + [NoTarget(t.friend, t.index)];
        return;
      }
      var s := shot.value;
      if t.friend {
        enemyHp := s.hp;
      } else {
        friendHp := s.hp;
      }
      logs := logs + [Fired(t.friend, t.index, s.target, s.damage)];
    }

    /** `fire_phase`: the loop over an order, the k-th entry using draws[k]. */
    method FirePhase(order: seq<Turn>, draws: seq<TurnDraws>)
      requires Valid() && |draws| == |order| && ValidDraws(draws)
      modifies this
      ensures Now() == Run(Fleets(), old(Now()), order, draws) && Valid()
    {
      ghost var start := Now();
      for k := 0 to |order|
        invariant Valid()
        invariant Now() == Run(Fleets(), start, order[..k], draws[..k])
      {
        RunSnoc(Fleets(), start, order, draws, k);
        TakeTurn(order[k], draws[k]);
      }
      assert order[..|order|] == order;
      assert draws[..|draws|] == draws;
    }

    /** `fire_phase1`: log the start, build the range order, run it. */
    method FirePhase1(draws: seq<TurnDraws>)
      requires Valid()
      requires |draws| >= |friendShips| + |enemyShips| && ValidDraws(draws)
      modifies this
      ensures Now() == Phase1(Fleets(), old(Now()), draws) && Valid()
    {
      logs := logs + [PhaseStarted(1)];
      var order := RangeOrder(Fleets());
      FirePhase(order, draws[..|order|]);
    }

    /** `fire_phase2`: skip without a battleship-class ship; otherwise log the start, build the index order, run it. */
    method FirePhase2(draws: seq<TurnDraws>)
      requires Valid()
      requires |draws| >= |friendShips| + |enemyShips| && ValidDraws(draws)
      modifies this
      ensures Now() == Phase2(Fleets(), old(Now()), draws) && Valid()
    {
      var gate := IncludesBattleshipClass();
      if !gate {
        logs := logs + [SecondPhaseSkipped];
        return;
      }
      logs := logs + [PhaseStarted(2)];
      var order := SecondOrder();
      FirePhase(order, draws[..|order|]);
    }

    /**
     * `calculate_result`: always a grade. A friendly loss caps it at B, and it is SS
     * exactly when no friend is sunk, every enemy is, and no friend lost any HP.
     */
    function CalculateResult(): (r: Option<BR.Grade>)
      reads this
      requires Valid()
      requires |friendShips| > 0 && |enemyShips| > 0
      requires BR.Sum(FL.HpsOfShips(friendShips)) > 0 && BR.Sum(FL.HpsOfShips(enemyShips)) > 0
      ensures r.Some?
      ensures BR.SunkCount(friendHp) > 0 ==> r.value in {BR.B, BR.C, BR.D, BR.E}
      ensures r.value == BR.SS <==>
        BR.SunkCount(friendHp) == 0 && AliveCount(enemyHp) == 0 && friendHp == FL.HpsOfShips(friendShips)
    {
      var fi := FL.HpsOfShips(friendShips);
      var ei := FL.HpsOfShips(enemyShips);
      BR.PerfectVictoryIff(fi, friendHp, ei, enemyHp);
      BR.FriendLossCapsAtB(fi, friendHp, ei, enemyHp);
      Some(BR.Calculate(fi, friendHp, ei, enemyHp))
    }
  }
}
