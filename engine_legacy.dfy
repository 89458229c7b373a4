/**
 * The range-ordered engine of src/battle_legacy/mod.rs.
 *
 * The first pass interleaves each side's alive ships, longest range first; the
 * side whose best range is strictly longer leads, and the leading list is
 * always tagged `true` (friend) even when it holds enemy indices. `get_actor`
 * then indexes the fleet named by the tag directly, so an enemy index beyond
 * the friendly fleet's length panics; the model reports that as `Panicked`.
 * A second pass in fleet-index order follows when some ship is of a
 * battleship class.
 *
 * Each ship's snapshot HP is an entry of `friendHp`/`enemyHp`; the log is a
 * list of events. Random draws are parameters (see Salvos.TurnDraws).
 */
module LegacyEngine {
  import opened Wrappers
  import opened Alive
  import opened FireOrders
  import opened StableSort
  import opened Salvos
  import FS = FleetShip
  import FSt = FleetStatus
  import DL = DamagedLevels
  import BD = BattleDirections
  import FL = FleetLike
  import BR = BattleResults

  /** Why `get_actor` refused a turn. */
  datatype SkipReason = NotAlive | TooDamaged

  datatype Event =
    | BattleStart
    | DirectionChosen(direction: BD.BattleDirection)
    | ActorSkipped(friend: bool, index: nat, reason: SkipReason)
    | NoTarget(friend: bool, index: nat)
    | Fired(friend: bool, actor: nat, target: nat, damage: nat)

  /** Both sides' snapshot HP and the log, or the process having panicked. */
  datatype Progress = Going(friendHp: seq<nat>, enemyHp: seq<nat>, logs: seq<Event>) | Panicked

  /** One HP entry per ship on each side. */
  predicate Fits(l: Lineup, p: Progress) {
    p.Going? ==> |p.friendHp| == |l.friend| && |p.enemyHp| == |l.enemy|
  }

  function Hps(p: Progress, friend: bool): seq<nat>
    requires p.Going?
  {
    if friend then p.friendHp else p.enemyHp
  }

  /**
   * `get_actor` for an index within its fleet: Err for a sunk ship, Err for a
   * ship carrying attack aircraft at damage tier Moderate or worse (HP at most
   * half its maximum), Ok otherwise.
   */
  function GetActor(ships: seq<FS.Ship>, hp: seq<nat>, index: nat): (r: Result<nat, SkipReason>)
    requires |hp| == |ships| && index < |ships| && FS.WellFormed(ships[index])
    ensures r == Err(NotAlive) <==> hp[index] == 0
    ensures r == Err(TooDamaged) <==>
      hp[index] > 0 && FS.HasAttackAircraft(ships[index]) && 2 * hp[index] <= FS.MaxHp(ships[index])
    ensures r.Ok? ==> r.value == index
  {
    if hp[index] == 0 then Err(NotAlive)
    else if FS.HasAttackAircraft(ships[index]) &&
            DL.AtLeast(FS.DamagedLevelOf(ships[index], hp[index]), DL.Moderate) then Err(TooDamaged)
    else Ok(index)
  }

  /** A fire-order entry whose index does not exist in the fleet its tag names. */
  predicate OutOfRange(l: Lineup, t: Turn) {
    t.index >= |Ships(l, t.friend)|
  }

  /**
   * One iteration of `fire_phase_helper`. Only an out-of-range index panics; a
   * refused actor or a missing target adds a log entry; a shot hits one ship of
   * the side opposite the tag. HP never rises and no friendly ship that has HP
   * loses it all; the log grows by exactly one entry.
   */
  function Step(l: Lineup, p: Progress, t: Turn, d: TurnDraws): (q: Progress)
    requires WellFormedLineup(l) && Fits(l, p) && ValidDraw(d)
    ensures Fits(l, q)
    ensures q.Panicked? <==> p.Panicked? || OutOfRange(l, t)
    ensures q.Going? ==> NoHpGained(p.friendHp, q.friendHp) && NoHpGained(p.enemyHp, q.enemyHp)
    ensures q.Going? ==> NoneSunk(p.friendHp, q.friendHp)
    ensures q.Going? ==> |q.logs| == |p.logs| + 1 && q.logs[..|p.logs|] == p.logs
  {
    if p.Panicked? || OutOfRange(l, t) then Panicked
    else
      var ships := Ships(l, t.friend);
      var hp := Hps(p, t.friend);
      match GetActor(ships, hp, t.index)
      case Err(reason) => p.(logs := p.logs + [ActorSkipped(t.friend, t.index, reason)])
      case Ok(a) =>
        match Fire(l.direction, ships[a], hp[a], Ships(l, !t.friend), Hps(p, !t.friend), !t.friend, d)
        case None => p.(logs := p.logs + [NoTarget(t.friend, t.index)])
        case Some(s) =>
          var logs := p.logs + [Fired(t.friend, t.index, s.target, s.damage)];
          if t.friend then Going(p.friendHp, s.hp, logs) else Going(s.hp, p.enemyHp, logs)
  }

  /** The whole loop of `fire_phase_helper` over an order, the i-th entry using the i-th draws. */
  function Run(l: Lineup, p: Progress, order: seq<Turn>, draws: seq<TurnDraws>): (q: Progress)
    requires WellFormedLineup(l) && Fits(l, p) && |draws| == |order| && ValidDraws(draws)
    ensures Fits(l, q)
    decreases |order|
  {
    if order == [] then p
    else
      var n := |order| - 1;
      Step(l, Run(l, p, order[..n], draws[..n]), order[n], draws[n])
  }

  /**
   * Over a whole pass: no HP rises, every friendly ship that had HP still has
   * some, and the log gains one entry per order entry, after the old ones.
   */
  lemma {:induction false} RunKeepsInvariants(l: Lineup, p: Progress, order: seq<Turn>, draws: seq<TurnDraws>)
    requires WellFormedLineup(l) && Fits(l, p) && |draws| == |order| && ValidDraws(draws)
    requires p.Going?
    ensures var q := Run(l, p, order, draws);
      q.Going? ==>
        NoHpGained(p.friendHp, q.friendHp) && NoHpGained(p.enemyHp, q.enemyHp) &&
        NoneSunk(p.friendHp, q.friendHp) &&
        |q.logs| == |p.logs| + |order| && q.logs[..|p.logs|] == p.logs
    decreases |order|
  {
    if order != [] {
      var n := |order| - 1;
      var m := Run(l, p, order[..n], draws[..n]);
      RunKeepsInvariants(l, p, order[..n], draws[..n]);
      var q := Run(l, p, order, draws);
      if q.Going? {
        assert m.Going?;
        assert q.logs[..|m.logs|] == m.logs;
        assert q.logs[..|p.logs|] == m.logs[..|p.logs|];
      }
    }
  }

  /** A pass panics exactly when some entry's index is out of range for the fleet its tag names. */
  lemma {:induction false} RunPanicsIff(l: Lineup, p: Progress, order: seq<Turn>, draws: seq<TurnDraws>)
    requires WellFormedLineup(l) && Fits(l, p) && |draws| == |order| && ValidDraws(draws)
    requires p.Going?
    ensures Run(l, p, order, draws).Panicked? <==> exists k :: 0 <= k < |order| && OutOfRange(l, order[k])
    decreases |order|
  {
    if order != [] {
      var n := |order| - 1;
      var front, ds := order[..n], draws[..n];
      RunPanicsIff(l, p, front, ds);
      RunLastPanics(l, p, order, draws);
      SomeOutOfRangeSnoc(l, order);
    }
  }

  /** Some entry of an order is out of range iff one before the last is, or the last is. */
  lemma SomeOutOfRangeSnoc(l: Lineup, order: seq<Turn>)
    requires order != []
    ensures var n := |order| - 1;
      (exists k :: 0 <= k < |order| && OutOfRange(l, order[k])) <==>
      (exists k :: 0 <= k < n && OutOfRange(l, order[..n][k])) || OutOfRange(l, order[n])
  {
    var n := |order| - 1;
    if exists k :: 0 <= k < |order| && OutOfRange(l, order[k]) {
      var k :| 0 <= k < |order| && OutOfRange(l, order[k]);
      if k < n {
        assert OutOfRange(l, order[..n][k]);
      }
    }
    if exists k :: 0 <= k < n && OutOfRange(l, order[..n][k]) {
      var k :| 0 <= k < n && OutOfRange(l, order[..n][k]);
      assert OutOfRange(l, order[k]);
    }
  }

  /** A pass panics when the pass without its last entry did, or that entry is out of range. */
  lemma RunLastPanics(l: Lineup, p: Progress, order: seq<Turn>, draws: seq<TurnDraws>)
    requires WellFormedLineup(l) && Fits(l, p) && |draws| == |order| && ValidDraws(draws)
    requires order != []
    ensures var n := |order| - 1;
      Run(l, p, order, draws).Panicked? <==> Run(l, p, order[..n], draws[..n]).Panicked? || OutOfRange(l, order[n])
  {
  }

  /** Running one more entry of an order is one more step. */
  lemma RunSnoc(l: Lineup, p: Progress, order: seq<Turn>, draws: seq<TurnDraws>, k: nat)
    requires WellFormedLineup(l) && Fits(l, p) && |draws| == |order| && ValidDraws(draws)
    requires k < |order|
    ensures Run(l, p, order[..k + 1], draws[..k + 1]) ==
      Step(l, Run(l, p, order[..k], draws[..k]), order[k], draws[k])
  {
    assert order[..k + 1][..k] == order[..k];
    assert draws[..k + 1][..k] == draws[..k];
  }

  /** A step keeps every HP at or below a ceiling the progress was already under. */
  lemma StepKeepsCeiling(l: Lineup, p: Progress, t: Turn, d: TurnDraws, fi: seq<nat>, ei: seq<nat>)
    requires WellFormedLineup(l) && Fits(l, p) && ValidDraw(d) && p.Going?
    requires NoHpGained(fi, p.friendHp) && NoHpGained(ei, p.enemyHp)
    ensures var q := Step(l, p, t, d);
      q.Going? ==> NoHpGained(fi, q.friendHp) && NoHpGained(ei, q.enemyHp)
  {
  }

  /** A ship's range class as the derived order compares it. */
  function RangeRank(ships: seq<FS.Ship>, i: nat): nat {
    if i < |ships| then FSt.Rank(FS.RangeOf(ships[i])) else 0
  }

  /** Fleet indices paired with their ships' range classes. */
  function RangeKeyed(ships: seq<FS.Ship>, ix: seq<nat>): (r: seq<Keyed<nat>>)
    ensures |r| == |ix|
    ensures forall k :: 0 <= k < |ix| ==> r[k] == Keyed(ix[k], RangeRank(ships, ix[k]))
  {
    seq(|ix|, k requires 0 <= k < |ix| => Keyed(ix[k], RangeRank(ships, ix[k])))
  }

  /** `filter(is_alive)` then `sort_by_key(Reverse(range))`: the alive indices, longest range first. */
  function SortedAlive(ships: seq<FS.Ship>, hp: seq<nat>): (s: seq<nat>)
    requires |hp| == |ships|
    ensures |s| == AliveCount(hp)
  {
    Items(StableSortDesc(RangeKeyed(ships, AliveIndices(hp))))
  }

  /** An entry of the sorted list is an alive index, sorted under its own range class. */
  lemma SortedAliveEntry(ships: seq<FS.Ship>, hp: seq<nat>, k: nat)
    requires |hp| == |ships| && k < AliveCount(hp)
    ensures var s := SortedAlive(ships, hp);
      s[k] < |hp| && hp[s[k]] > 0 &&
      StableSortDesc(RangeKeyed(ships, AliveIndices(hp)))[k].key == RangeRank(ships, s[k])
  {
    var ix := AliveIndices(hp);
    var keyed := RangeKeyed(ships, ix);
    var r := StableSortDesc(keyed);
    SortedSameEntries(keyed);
    assert r[k] in keyed;
    var m :| 0 <= m < |keyed| && keyed[m] == r[k];
    assert r[k] == Keyed(ix[m], RangeRank(ships, ix[m]));
  }

  /** Every alive index appears in the sorted list. */
  lemma SortedAliveHasAll(ships: seq<FS.Ship>, hp: seq<nat>, j: nat)
    requires |hp| == |ships| && j < |hp| && hp[j] > 0
    ensures j in SortedAlive(ships, hp)
  {
    var ix := AliveIndices(hp);
    var keyed := RangeKeyed(ships, ix);
    var r := StableSortDesc(keyed);
    AliveIncluded(hp, j);
    var m :| 0 <= m < |ix| && ix[m] == j;
    SortedSameEntries(keyed);
    assert keyed[m] in r;
    var k :| 0 <= k < |r| && r[k] == keyed[m];
    assert SortedAlive(ships, hp)[k] == j;
  }

  /** The sorted list holds every alive index and nothing else, in non-increasing range order. */
  lemma SortedAliveFacts(ships: seq<FS.Ship>, hp: seq<nat>)
    requires |hp| == |ships|
    ensures var s := SortedAlive(ships, hp);
      (forall k :: 0 <= k < |s| ==> s[k] < |hp| && hp[s[k]] > 0) &&
      (forall j :: 0 <= j < |hp| && hp[j] > 0 ==> j in s) &&
      (forall k, m :: 0 <= k < m < |s| ==> RangeRank(ships, s[k]) >= RangeRank(ships, s[m]))
  {
    var s := SortedAlive(ships, hp);
    var r := StableSortDesc(RangeKeyed(ships, AliveIndices(hp)));
    forall k | 0 <= k < |s| ensures s[k] < |hp| && hp[s[k]] > 0 && r[k].key == RangeRank(ships, s[k]) {
      SortedAliveEntry(ships, hp, k);
    }
    forall j | 0 <= j < |hp| && hp[j] > 0 ensures j in s {
      SortedAliveHasAll(ships, hp, j);
    }
    forall k, m | 0 <= k < m < |s| ensures RangeRank(ships, s[k]) >= RangeRank(ships, s[m]) {
      assert r[k].key >= r[m].key;
    }
  }

  /** `fleet1.first().range() > fleet2.first().range()`: the friendly best range is strictly longer. */
  predicate FriendLeads(l: Lineup, f: seq<nat>, e: seq<nat>)
    requires |f| == |l.friend| && |e| == |l.enemy|
    requires AliveCount(f) > 0 && AliveCount(e) > 0
  {
    RangeRank(l.friend, SortedAlive(l.friend, f)[0]) > RangeRank(l.enemy, SortedAlive(l.enemy, e)[0])
  }

  /**
   * The friendly list leads exactly when some alive friendly ship outranges every
   * alive enemy; on equal best ranges the enemy list leads.
   */
  lemma FriendLeadsIff(l: Lineup, f: seq<nat>, e: seq<nat>)
    requires |f| == |l.friend| && |e| == |l.enemy|
    requires AliveCount(f) > 0 && AliveCount(e) > 0
    ensures FriendLeads(l, f, e) <==>
      exists i :: 0 <= i < |f| && f[i] > 0 &&
        forall j :: 0 <= j < |e| && e[j] > 0 ==> RangeRank(l.friend, i) > RangeRank(l.enemy, j)
  {
    var fs := SortedAlive(l.friend, f);
    var es := SortedAlive(l.enemy, e);
    SortedAliveFacts(l.friend, f);
    SortedAliveFacts(l.enemy, e);
    if FriendLeads(l, f, e) {
      forall j | 0 <= j < |e| && e[j] > 0 ensures RangeRank(l.friend, fs[0]) > RangeRank(l.enemy, j) {
        var m :| 0 <= m < |es| && es[m] == j;
        if m > 0 {
          assert RangeRank(l.enemy, es[0]) >= RangeRank(l.enemy, es[m]);
        }
      }
    } else {
      forall i | 0 <= i < |f| && f[i] > 0
        ensures exists j :: 0 <= j < |e| && e[j] > 0 && RangeRank(l.friend, i) <= RangeRank(l.enemy, j)
      {
        var m :| 0 <= m < |fs| && fs[m] == i;
        if m > 0 {
          assert RangeRank(l.friend, fs[0]) >= RangeRank(l.friend, fs[m]);
        }
        assert e[es[0]] > 0;
      }
    }
  }

  /**
   * `ordered_by_range` as a function: the leading list, tagged `true`, interleaved
   * with the other list, tagged `false`.
   */
  function RangeOrder(l: Lineup, f: seq<nat>, e: seq<nat>): (order: seq<Turn>)
    requires |f| == |l.friend| && |e| == |l.enemy|
    requires AliveCount(f) > 0 && AliveCount(e) > 0
    ensures |order| == AliveCount(f) + AliveCount(e)
  {
    var fs := SortedAlive(l.friend, f);
    var es := SortedAlive(l.enemy, e);
    if FriendLeads(l, f, e) then Interleave(fs, es) else Interleave(es, fs)
  }

  /**
   * The order has one entry per alive ship. When the friendly list leads, the
   * `true` entries are the sorted alive friends and the `false` entries the
   * sorted alive enemies; otherwise it is the other way round, so enemy
   * indices carry the friend tag.
   */
  lemma RangeOrderShape(l: Lineup, f: seq<nat>, e: seq<nat>)
    requires |f| == |l.friend| && |e| == |l.enemy|
    requires AliveCount(f) > 0 && AliveCount(e) > 0
    ensures var order := RangeOrder(l, f, e);
      |order| == AliveCount(f) + AliveCount(e) &&
      (FriendLeads(l, f, e) ==>
        Side(order, true) == SortedAlive(l.friend, f) && Side(order, false) == SortedAlive(l.enemy, e)) &&
      (!FriendLeads(l, f, e) ==>
        Side(order, true) == SortedAlive(l.enemy, e) && Side(order, false) == SortedAlive(l.friend, f))
  {
    InterleaveSides(SortedAlive(l.friend, f), SortedAlive(l.enemy, e));
    InterleaveSides(SortedAlive(l.enemy, e), SortedAlive(l.friend, f));
  }

  /** When the friendly list leads, every entry names a ship of the fleet its tag names. */
  lemma FriendLeadInRange(l: Lineup, f: seq<nat>, e: seq<nat>)
    requires |f| == |l.friend| && |e| == |l.enemy|
    requires AliveCount(f) > 0 && AliveCount(e) > 0
    requires FriendLeads(l, f, e)
    ensures forall k :: 0 <= k < |RangeOrder(l, f, e)| ==> !OutOfRange(l, RangeOrder(l, f, e)[k])
  {
    var fs := SortedAlive(l.friend, f);
    var es := SortedAlive(l.enemy, e);
    SortedAliveFacts(l.friend, f);
    SortedAliveFacts(l.enemy, e);
    InterleaveEntries(fs, es);
    var order := RangeOrder(l, f, e);
    assert order == Interleave(fs, es);
    forall k | 0 <= k < |order| ensures !OutOfRange(l, order[k]) {
      var t := order[k];
      if t.friend {
        var m :| 0 <= m < |fs| && fs[m] == t.index;
      } else {
        var m :| 0 <= m < |es| && es[m] == t.index;
      }
    }
  }

  /**
   * The tagging quirk in its smallest form: one friendly ship and two enemies, all
   * alive and of equal range. The enemy list leads, so the order is
   * (true, 0), (false, 0), (true, 1), and the third turn indexes friendly ship 1,
   * which does not exist: the pass panics whatever the draws.
   */
  lemma EnemyLeadPanics(l: Lineup, f: seq<nat>, e: seq<nat>, logs: seq<Event>, draws: seq<TurnDraws>)
    requires WellFormedLineup(l)
    requires |l.friend| == 1 && |l.enemy| == 2 && |f| == 1 && |e| == 2
    requires f[0] > 0 && e[0] > 0 && e[1] > 0
    requires RangeRank(l.friend, 0) == RangeRank(l.enemy, 0) == RangeRank(l.enemy, 1)
    requires |draws| == 3 && ValidDraws(draws)
    ensures AliveCount(f) > 0 && AliveCount(e) > 0
    ensures RangeOrder(l, f, e) == [Turn(true, 0), Turn(false, 0), Turn(true, 1)]
    ensures Run(l, Going(f, e, logs), RangeOrder(l, f, e), draws).Panicked?
  {
    TiedSortedAlive(l, f, e);
    var order := RangeOrder(l, f, e);
    assert order == Interleave([0, 1], [0]);
    InterleaveOneTwo();
    RunPanicsIff(l, Going(f, e, logs), order, draws);
    assert OutOfRange(l, order[2]);
  }

  /** The three ships of EnemyLeadPanics come out of the range sort in index order, the enemy list leading. */
  lemma TiedSortedAlive(l: Lineup, f: seq<nat>, e: seq<nat>)
    requires |l.friend| == 1 && |l.enemy| == 2 && |f| == 1 && |e| == 2
    requires f[0] > 0 && e[0] > 0 && e[1] > 0
    requires RangeRank(l.friend, 0) == RangeRank(l.enemy, 0) == RangeRank(l.enemy, 1)
    ensures AliveCount(f) > 0 && AliveCount(e) > 0
    ensures SortedAlive(l.friend, f) == [0] && SortedAlive(l.enemy, e) == [0, 1]
    ensures !FriendLeads(l, f, e)
  {
    SingleSortedAlive(l.friend, f);
    PairSortedAlive(l.enemy, e);
  }

  lemma SingleSortedAlive(ships: seq<FS.Ship>, hp: seq<nat>)
    requires |ships| == 1 && |hp| == 1 && hp[0] > 0
    ensures SortedAlive(ships, hp) == [0]
  {
    AliveOne(hp);
    TiedStaysSorted(ships, [0], RangeRank(ships, 0));
  }

  lemma PairSortedAlive(ships: seq<FS.Ship>, hp: seq<nat>)
    requires |ships| == 2 && |hp| == 2 && hp[0] > 0 && hp[1] > 0
    requires RangeRank(ships, 0) == RangeRank(ships, 1)
    ensures SortedAlive(ships, hp) == [0, 1]
  {
    AliveTwo(hp);
    TiedStaysSorted(ships, [0, 1], RangeRank(ships, 0));
  }

  /** Alive indices whose ships share one range class keep their order through the sort. */
  lemma TiedStaysSorted(ships: seq<FS.Ship>, ix: seq<nat>, k: nat)
    requires forall i :: 0 <= i < |ix| ==> RangeRank(ships, ix[i]) == k
    ensures Items(StableSortDesc(RangeKeyed(ships, ix))) == ix
  {
    AllTiedStay(RangeKeyed(ships, ix), k);
  }

  lemma AliveOne(f: seq<nat>)
    requires |f| == 1 && f[0] > 0
    ensures AliveIndices(f) == [0]
  {
    assert f[..0] == [];
  }

  lemma AliveTwo(e: seq<nat>)
    requires |e| == 2 && e[0] > 0 && e[1] > 0
    ensures AliveIndices(e) == [0, 1]
  {
    assert e[..1][..0] == [];
    assert e[..1] == [e[0]];
  }

  lemma InterleaveOneTwo()
    ensures Interleave([0, 1], [0]) == [Turn(true, 0), Turn(false, 0), Turn(true, 1)]
  {
    assert [0, 1][1..] == [1];
    assert [0][1..] == [];
    assert Interleave([1], []) == [Turn(true, 1)];
  }

  /** `ordered_by_index` as a function: alive friends and alive enemies interleaved by position. */
  function IndexOrder(f: seq<nat>, e: seq<nat>): (order: seq<Turn>)
    ensures |order| == AliveCount(f) + AliveCount(e)
  {
    Interleave(AliveIndices(f), AliveIndices(e))
  }

  /** The index order tags every entry with its own fleet, so a pass over it never panics. */
  lemma IndexOrderNeverPanics(l: Lineup, p: Progress, draws: seq<TurnDraws>)
    requires WellFormedLineup(l) && Fits(l, p) && p.Going?
    requires |draws| == |IndexOrder(p.friendHp, p.enemyHp)| && ValidDraws(draws)
    ensures Run(l, p, IndexOrder(p.friendHp, p.enemyHp), draws).Going?
  {
    var order := IndexOrder(p.friendHp, p.enemyHp);
    InterleaveEntries(AliveIndices(p.friendHp), AliveIndices(p.enemyHp));
    forall k | 0 <= k < |order| ensures !OutOfRange(l, order[k]) {
    }
    RunPanicsIff(l, p, order, draws);
  }

  /**
   * The two passes of `fire_phase` over a given first order: that pass, then,
   * when the gate holds and nothing panicked, the index pass on the HP the first
   * pass left. Each pass uses a prefix of its draws as long as its order.
   */
  function Passes(l: Lineup, p: Progress, order: seq<Turn>, draws1: seq<TurnDraws>, draws2: seq<TurnDraws>): (q: Progress)
    requires WellFormedLineup(l) && Fits(l, p) && p.Going?
    requires |draws1| >= |order| && |draws2| >= |l.friend| + |l.enemy|
    requires ValidDraws(draws1) && ValidDraws(draws2)
    ensures Fits(l, q)
  {
    var q := Run(l, p, order, draws1[..|order|]);
    if q.Panicked? || !Gate(l) then q
    else
      var order2 := IndexOrder(q.friendHp, q.enemyHp);
      Run(l, q, order2, draws2[..|order2|])
  }

  /**
   * The passes panic exactly when the first one does, since the index pass never
   * panics; otherwise no HP rises and no friendly ship that had HP is sunk.
   */
  lemma PassesFacts(l: Lineup, p: Progress, order: seq<Turn>, draws1: seq<TurnDraws>, draws2: seq<TurnDraws>)
    requires WellFormedLineup(l) && Fits(l, p) && p.Going?
    requires |draws1| >= |order| && |draws2| >= |l.friend| + |l.enemy|
    requires ValidDraws(draws1) && ValidDraws(draws2)
    ensures var q := Passes(l, p, order, draws1, draws2);
      (q.Panicked? <==> Run(l, p, order, draws1[..|order|]).Panicked?) &&
      (q.Going? ==> NoHpGained(p.friendHp, q.friendHp) && NoHpGained(p.enemyHp, q.enemyHp) &&
                    NoneSunk(p.friendHp, q.friendHp))
  {
    var ds := draws1[..|order|];
    var q := Run(l, p, order, ds);
    RunKeepsInvariants(l, p, order, ds);
    if q.Going? && Gate(l) {
      var order2 := IndexOrder(q.friendHp, q.enemyHp);
      IndexOrderNeverPanics(l, q, draws2[..|order2|]);
      RunKeepsInvariants(l, q, order2, draws2[..|order2|]);
    }
  }

  /**
   * `fire_phase` as a function: panic when a side has nobody alive (the unwrap
   * in `ordered_by_range`), otherwise the passes over the range order.
   */
  function PhaseOutcome(l: Lineup, p: Progress, draws1: seq<TurnDraws>, draws2: seq<TurnDraws>): (q: Progress)
    requires WellFormedLineup(l) && Fits(l, p) && p.Going?
    requires |draws1| >= |l.friend| + |l.enemy| && |draws2| >= |l.friend| + |l.enemy|
    requires ValidDraws(draws1) && ValidDraws(draws2)
    ensures Fits(l, q)
  {
    if AliveCount(p.friendHp) == 0 || AliveCount(p.enemyHp) == 0 then Panicked
    else Passes(l, p, RangeOrder(l, p.friendHp, p.enemyHp), draws1, draws2)
  }

  /**
   * Over the whole fire phase: it panics exactly when a side has nobody alive or
   * the range pass panics (never when the friendly list leads); otherwise no HP
   * rises and no friendly ship that had HP is sunk.
   */
  lemma PhaseOutcomeFacts(l: Lineup, p: Progress, draws1: seq<TurnDraws>, draws2: seq<TurnDraws>)
    requires WellFormedLineup(l) && Fits(l, p) && p.Going?
    requires |draws1| >= |l.friend| + |l.enemy| && |draws2| >= |l.friend| + |l.enemy|
    requires ValidDraws(draws1) && ValidDraws(draws2)
    ensures var q := PhaseOutcome(l, p, draws1, draws2);
      (q.Panicked? <==>
        AliveCount(p.friendHp) == 0 || AliveCount(p.enemyHp) == 0 ||
        (var order := RangeOrder(l, p.friendHp, p.enemyHp); Run(l, p, order, draws1[..|order|]).Panicked?)) &&
      (AliveCount(p.friendHp) > 0 && AliveCount(p.enemyHp) > 0 && FriendLeads(l, p.friendHp, p.enemyHp) ==> q.Going?) &&
      (q.Going? ==> NoHpGained(p.friendHp, q.friendHp) && NoHpGained(p.enemyHp, q.enemyHp) &&
                    NoneSunk(p.friendHp, q.friendHp))
  {
    if AliveCount(p.friendHp) > 0 && AliveCount(p.enemyHp) > 0 {
      var order := RangeOrder(l, p.friendHp, p.enemyHp);
      PassesFacts(l, p, order, draws1, draws2);
      if FriendLeads(l, p.friendHp, p.enemyHp) {
        FriendLeadNeverPanics(l, p, draws1);
      }
    }
  }

  /** When the friendly list leads, the range pass does not panic. */
  lemma FriendLeadNeverPanics(l: Lineup, p: Progress, draws: seq<TurnDraws>)
    requires WellFormedLineup(l) && Fits(l, p) && p.Going?
    requires AliveCount(p.friendHp) > 0 && AliveCount(p.enemyHp) > 0
    requires FriendLeads(l, p.friendHp, p.enemyHp)
    requires |draws| >= AliveCount(p.friendHp) + AliveCount(p.enemyHp) && ValidDraws(draws)
    ensures var order := RangeOrder(l, p.friendHp, p.enemyHp);
      Run(l, p, order, draws[..|order|]).Going?
  {
    var order := RangeOrder(l, p.friendHp, p.enemyHp);
    FriendLeadInRange(l, p.friendHp, p.enemyHp);
    InRangeNeverPanics(l, p, order, draws[..|order|]);
  }

  /** A pass over an order whose every entry is in range does not panic. */
  lemma InRangeNeverPanics(l: Lineup, p: Progress, order: seq<Turn>, draws: seq<TurnDraws>)
    requires WellFormedLineup(l) && Fits(l, p) && |draws| == |order| && ValidDraws(draws)
    requires p.Going?
    requires forall k :: 0 <= k < |order| ==> !OutOfRange(l, order[k])
    ensures Run(l, p, order, draws).Going?
  {
    RunPanicsIff(l, p, order, draws);
  }

  /** The engine's state: the fixed lineup, the snapshot HP of each side and the log. */
  class LegacyBattle {
    const direction: BD.BattleDirection
    const friendShips: seq<FS.Ship>
    const enemyIndex: nat
    const enemyShips: seq<FS.Ship>
    var friendHp: seq<nat>
    var enemyHp: seq<nat>
    var logs: seq<Event>

    function Fleets(): Lineup {
      Lineup(direction, friendShips, enemyShips)
    }

    function Now(): Progress
      reads this
    {
      Going(friendHp, enemyHp, logs)
    }

    /** Well-formed ships, one snapshot per ship, and no snapshot above its ship's starting HP. */
    predicate Valid()
      reads this
    {
      WellFormedLineup(Fleets()) &&
      NoHpGained(FL.HpsOfShips(friendShips), friendHp) &&
      NoHpGained(FL.HpsOfShips(enemyShips), enemyHp)
    }

    /** `Battle::new`: the direction from the draw r, fresh snapshots, the two opening log lines. */
    constructor (friend: seq<FS.Ship>, enemyIndex: nat, enemy: seq<FS.Ship>, r: real)
      requires 0.0 <= r < 1.0
      requires AllWellFormed(friend) && AllWellFormed(enemy)
      ensures direction == BD.FromDraw(r)
      ensures friendShips == friend && enemyShips == enemy && this.enemyIndex == enemyIndex
      ensures friendHp == FL.HpsOfShips(friend) && enemyHp == FL.HpsOfShips(enemy)
      ensures logs == [BattleStart, DirectionChosen(direction)]
      ensures Valid()
    {
      var d := BD.FromDraw(r);
      direction := d;
      friendShips := friend;
      this.enemyIndex := enemyIndex;
      enemyShips := enemy;
      friendHp := FL.HpsOfShips(friend);
      enemyHp := FL.HpsOfShips(enemy);
      logs := [BattleStart, DirectionChosen(d)];
    }

    /**
     * `ordered_by_range`: both fleets' alive indices sorted by range, the leading
     * list chosen by the strict comparison, then the while loop that interleaves them.
     */
    method OrderedByRange() returns (order: seq<Turn>)
      requires |friendHp| == |friendShips| && |enemyHp| == |enemyShips|
      requires AliveCount(friendHp) > 0 && AliveCount(enemyHp) > 0
      ensures order == RangeOrder(Fleets(), friendHp, enemyHp)
    {
      var fleet1 := SortedAlive(friendShips, friendHp);
      var fleet2 := SortedAlive(enemyShips, enemyHp);
      if RangeRank(friendShips, fleet1[0]) > RangeRank(enemyShips, fleet2[0]) {
        order := InterleaveLoop(fleet1, fleet2);
      } else {
        order := InterleaveLoop(fleet2, fleet1);
      }
    }

    /** `ordered_by_index`, with its for loop up to the longer alive list. */
    method OrderedByIndex() returns (order: seq<Turn>)
      ensures order == IndexOrder(friendHp, enemyHp)
    {
      var friend := AliveIndices(friendHp);
      var enemy := AliveIndices(enemyHp);
      order := [];
      var length := Max(|friend|, |enemy|);
      for i := 0 to length
        invariant order == Rounds(friend, enemy, i)
      {
        ghost var before := order;
        if i < |friend| {
          order := order + [Turn(true, friend[i])];
        }
        if i < |enemy| {
          order := order + [Turn(false, enemy[i])];
        }
        assert order == before + Round(friend, enemy, i);
      }
      RoundsAreInterleave(friend, enemy, length);
    }

    /** `includes_battleship_class`: some friendly or some enemy ship is of a battleship class. */
    predicate IncludesBattleshipClass()
      ensures IncludesBattleshipClass() <==>
        (exists i :: 0 <= i < |friendShips| && FS.IsBattleshipClass(friendShips[i])) ||
        (exists i :: 0 <= i < |enemyShips| && FS.IsBattleshipClass(enemyShips[i]))
    {
      Gate(Fleets())
    }

    /** One iteration of `fire_phase_helper` for an entry whose index exists in its fleet. */
    method TakeTurn(t: Turn, d: TurnDraws)
      requires Valid() && ValidDraw(d) && !OutOfRange(Fleets(), t)
      modifies this
      ensures Now() == Step(Fleets(), old(Now()), t, d) && Valid()
    {
      ghost var next := Step(Fleets(), Now(), t, d);
      StepKeepsCeiling(Fleets(), Now(), t, d, FL.HpsOfShips(friendShips), FL.HpsOfShips(enemyShips));
      var ships := if t.friend then friendShips else enemyShips;
      var hp := if t.friend then friendHp else enemyHp;
      var actor := GetActor(ships, hp, t.index);
      if actor.Err? {
        logs := logs + [ActorSkipped(t.friend, t.index, actor.error)];
        return;
      }
      var targets := if t.friend then enemyShips else friendShips;
      var targetHp := if t.friend then enemyHp else friendHp;
      var shot := Fire(direction, ships[actor.value], hp[actor.value], targets, targetHp, !t.friend, d);
      if shot.None? {
        logs := logs + [NoTarget(t.friend, t.index)];
        return;
      }
      var s := shot.value;
      if t.friend {
        enemyHp := s.hp;
      } else {
        friendHp := s.hp;
      }
      logs := logs + [Fired(t.friend, t.index, s.target, s.damage)];
    }

    /**
     * `fire_phase_helper`: the loop over an order, the k-th turn using draws[k].
     * It reports a panic exactly when the pure pass does, and otherwise leaves
     * the state the pure pass computes.
     */
    method FirePhaseHelper(order: seq<Turn>, draws: seq<TurnDraws>) returns (panicked: bool)
      requires Valid() && |draws| == |order| && ValidDraws(draws)
      modifies this
      ensures panicked <==> Run(Fleets(), old(Now()), order, draws).Panicked?
      ensures !panicked ==> Now() == Run(Fleets(), old(Now()), order, draws) && Valid()
    {
      ghost var start := Now();
      RunPanicsIff(Fleets(), start, order, draws);
      for k := 0 to |order|
        invariant Valid()
        invariant Now() == Run(Fleets(), start, order[..k], draws[..k])
      {
        RunSnoc(Fleets(), start, order, draws, k);
        var t := order[k];
        if t.index >= |Ships(Fleets(), t.friend)| {
          return true;
        }
        TakeTurn(t, draws[k]);
      }
      assert order[..|order|] == order;
      assert draws[..|draws|] == draws;
      return false;
    }

    /** The range pass over an order, then the index pass when a battleship-class ship takes part and nothing panicked. */
    method RunPasses(order: seq<Turn>, draws1: seq<TurnDraws>, draws2: seq<TurnDraws>) returns (panicked: bool)
      requires Valid()
      requires |draws1| >= |order| && |draws2| >= |friendShips| + |enemyShips|
      requires ValidDraws(draws1) && ValidDraws(draws2)
      modifies this
      ensures panicked <==> Passes(Fleets(), old(Now()), order, draws1, draws2).Panicked?
      ensures !panicked ==> Now() == Passes(Fleets(), old(Now()), order, draws1, draws2) && Valid()
    {
      panicked := FirePhaseHelper(order, draws1[..|order|]);
      if panicked {
        return;
      }
      if IncludesBattleshipClass() {
        var order2 := OrderedByIndex();
        assert |order2| <= |friendShips| + |enemyShips| by {
          assert AliveCount(friendHp) <= |friendHp|;
          assert AliveCount(enemyHp) <= |enemyHp|;
        }
        panicked := FirePhaseHelper(order2, draws2[..|order2|]);
      }
    }

    /** `fire_phase`: the range pass, then the index pass when a battleship-class ship takes part. */
    method FirePhase(draws1: seq<TurnDraws>, draws2: seq<TurnDraws>) returns (panicked: bool)
      requires Valid()
      requires |draws1| >= |friendShips| + |enemyShips| && |draws2| >= |friendShips| + |enemyShips|
      requires ValidDraws(draws1) && ValidDraws(draws2)
      modifies this
      ensures panicked <==> PhaseOutcome(Fleets(), old(Now()), draws1, draws2).Panicked?
      ensures !panicked ==> Now() == PhaseOutcome(Fleets(), old(Now()), draws1, draws2) && Valid()
    {
      if AliveCount(friendHp) == 0 || AliveCount(enemyHp) == 0 {
        return true;
      }
      var order := OrderedByRange();
      assert |order| <= |friendShips| + |enemyShips| by {
        assert AliveCount(friendHp) <= |friendHp|;
        assert AliveCount(enemyHp) <= |enemyHp|;
      }
      panicked := RunPasses(order, draws1, draws2);
    }

    /**
     * `calculate_result`: always a grade. A friendly loss caps it at B, and it is SS
     * exactly when no friend is sunk, every enemy is, and no friend lost any HP.
     */
    function CalculateResult(): (r: Option<BR.Grade>)
      reads this
      requires Valid()
      requires |friendShips| > 0 && |enemyShips| > 0
      requires BR.Sum(FL.HpsOfShips(friendShips)) > 0 && BR.Sum(FL.HpsOfShips(enemyShips)) > 0
      ensures r.Some?
      ensures BR.SunkCount(friendHp) > 0 ==> r.value in {BR.B, BR.C, BR.D, BR.E}
      ensures r.value == BR.SS <==>
        BR.SunkCount(friendHp) == 0 && AliveCount(enemyHp) == 0 && friendHp == FL.HpsOfShips(friendShips)
    {
      var fi := FL.HpsOfShips(friendShips);
      var ei := FL.HpsOfShips(enemyShips);
      BR.PerfectVictoryIff(fi, friendHp, ei, enemyHp);
      BR.FriendLossCapsAtB(fi, friendHp, ei, enemyHp);
      Some(BR.Calculate(fi, friendHp, ei, enemyHp))
    }
  }
}
