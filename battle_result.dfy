/**
 * The seven-grade battle result (src/battle/battle_result.rs). The same decision
 * tree also closes both engines (`calculate_result` in src/battle/mod.rs and
 * src/battle_legacy/mod.rs).
 *
 * Each side is given as its ships' HP on entering the battle (`initial`) and
 * its snapshots' HP now (`now`). f64 arithmetic is exact real arithmetic here
 * and the 1e-10 guard is the exact rational 1/10^10.
 */
module BattleResults {
  import opened Alive
  import opened Numeric

  datatype Grade = SS | S | A | B | C | D | E

  function Sum(s: seq<nat>): (total: nat)
    ensures forall i :: 0 <= i < |s| ==> s[i] <= total
  {
    if s == [] then 0 else Sum(s[..|s| - 1]) + s[|s| - 1]
  }

  /** Each snapshot exists and holds no more HP than its ship started with. */
  predicate Damaged(initial: seq<nat>, now: seq<nat>) {
    |initial| <= |now| && forall i :: 0 <= i < |initial| ==> now[i] <= initial[i]
  }

  /** The sum over the ships of `initial hp - snapshot hp`. */
  function TotalDamage(initial: seq<nat>, now: seq<nat>): (total: nat)
    requires Damaged(initial, now)
    ensures total <= Sum(initial)
  {
    if initial == [] then 0
    else TotalDamage(initial[..|initial| - 1], now) + (initial[|initial| - 1] - now[|initial| - 1])
  }

  /** No damage was taken exactly when every ship's snapshot still holds its initial HP. */
  lemma {:induction false} NoDamageIff(initial: seq<nat>, now: seq<nat>)
    requires Damaged(initial, now)
    ensures TotalDamage(initial, now) == 0 <==> forall i :: 0 <= i < |initial| ==> now[i] == initial[i]
    decreases |initial|
  {
    if initial != [] {
      NoDamageIff(initial[..|initial| - 1], now);
    }
  }

  function SunkCount(hp: seq<nat>): (n: nat)
    ensures n <= |hp|
  {
    |hp| - AliveCount(hp)
  }

  /** What the source demands for the f64 figures to be finite numbers. */
  predicate Computable(friendInitial: seq<nat>, friendNow: seq<nat>, enemyInitial: seq<nat>, enemyNow: seq<nat>) {
    |friendNow| > 0 && |enemyNow| > 0 &&
    Damaged(friendInitial, friendNow) && Damaged(enemyInitial, enemyNow) &&
    Sum(friendInitial) > 0 && Sum(enemyInitial) > 0
  }

  const Epsilon: real := 1.0 / 10000000000.0

  /** Damage dealt to the enemy as a percentage of its total initial HP. */
  function FriendGauge(enemyInitial: seq<nat>, enemyNow: seq<nat>): real
    requires Damaged(enemyInitial, enemyNow) && Sum(enemyInitial) > 0
  {
    TotalDamage(enemyInitial, enemyNow) as real / Sum(enemyInitial) as real * 100.0
  }

  function GaugeRatio(friendInitial: seq<nat>, friendNow: seq<nat>, enemyInitial: seq<nat>, enemyNow: seq<nat>): real
    requires Computable(friendInitial, friendNow, enemyInitial, enemyNow)
  {
    var enemyGauge := TotalDamage(friendInitial, friendNow) as real / Sum(friendInitial) as real * 100.0;
    FriendGauge(enemyInitial, enemyNow) / (enemyGauge + Epsilon)
  }

  predicate EnemyFlagshipSunk(enemyNow: seq<nat>) {
    |enemyNow| > 0 && enemyNow[0] == 0
  }

  /** `BattleResult::calculate`. */
  function Calculate(friendInitial: seq<nat>, friendNow: seq<nat>, enemyInitial: seq<nat>, enemyNow: seq<nat>): Grade
    requires Computable(friendInitial, friendNow, enemyInitial, enemyNow)
  {
    var sunkFriend := SunkCount(friendNow);
    var sunkEnemy := SunkCount(enemyNow);
    var friendSunkRatio := sunkFriend as real / |friendNow| as real;
    var enemySunkRatio := sunkEnemy as real / |enemyNow| as real;
    var flagshipSunk := EnemyFlagshipSunk(enemyNow);
    var ratio := GaugeRatio(friendInitial, friendNow, enemyInitial, enemyNow);
    if sunkFriend > 0 then
      if ratio >= 2.5 || (flagshipSunk && sunkEnemy > sunkFriend) then B
      else if flagshipSunk || ratio >= 1.0 then C
      else if friendSunkRatio >= 0.5 then E
      else D
    else if AliveCount(enemyNow) == 0 then
      if TotalDamage(friendInitial, friendNow) == 0 then SS else S
    else if enemySunkRatio >= 2.0 / 3.0 then A
    else if flagshipSunk || ratio >= 2.5 then B
    else if ratio >= 1.0 || FriendGauge(enemyInitial, enemyNow) >= 50.0 then C
    else D
  }

  /** Any friendly loss caps the result at B. */
  lemma FriendLossCapsAtB(fi: seq<nat>, fn: seq<nat>, ei: seq<nat>, en: seq<nat>)
    requires Computable(fi, fn, ei, en)
    ensures SunkCount(fn) > 0 ==> Calculate(fi, fn, ei, en) in {B, C, D, E}
  {
  }

  /** With a friendly loss, a gauge ratio of 2.5, or the enemy flagship sunk with more enemy than friendly losses, gives B. */
  lemma FriendLossB(fi: seq<nat>, fn: seq<nat>, ei: seq<nat>, en: seq<nat>)
    requires Computable(fi, fn, ei, en)
    requires SunkCount(fn) > 0
    requires GaugeRatio(fi, fn, ei, en) >= 2.5 || (EnemyFlagshipSunk(en) && SunkCount(en) > SunkCount(fn))
    ensures Calculate(fi, fn, ei, en) == B
  {
  }

  /**
   * E happens exactly when friends were lost, the enemy flagship floats, the gauge
   * ratio is below 1, and at least half of the friendly ships are sunk.
   */
  lemma DefeatIff(fi: seq<nat>, fn: seq<nat>, ei: seq<nat>, en: seq<nat>)
    requires Computable(fi, fn, ei, en)
    ensures Calculate(fi, fn, ei, en) == E <==>
      SunkCount(fn) > 0 && !EnemyFlagshipSunk(en) && GaugeRatio(fi, fn, ei, en) < 1.0 &&
      2 * SunkCount(fn) >= |fn|
  {
    RatioAtMost(1, 2, SunkCount(fn), |fn|);
    assert 0.5 == 1 as real / 2 as real;
  }

  /** Without friendly losses the result is never E. */
  lemma NoLossNeverE(fi: seq<nat>, fn: seq<nat>, ei: seq<nat>, en: seq<nat>)
    requires Computable(fi, fn, ei, en)
    requires SunkCount(fn) == 0
    ensures Calculate(fi, fn, ei, en) != E
  {
  }

  /**
   * SS happens exactly when no friend is sunk, every enemy is, and every friendly
   * ship's HP is untouched; with the enemy wiped out and no loss the result is SS or S.
   */
  lemma PerfectVictoryIff(fi: seq<nat>, fn: seq<nat>, ei: seq<nat>, en: seq<nat>)
    requires Computable(fi, fn, ei, en)
    ensures Calculate(fi, fn, ei, en) == SS <==>
      SunkCount(fn) == 0 && AliveCount(en) == 0 && forall i :: 0 <= i < |fi| ==> fn[i] == fi[i]
    ensures SunkCount(fn) == 0 && AliveCount(en) == 0 ==> Calculate(fi, fn, ei, en) in {SS, S}
  {
    NoDamageIff(fi, fn);
  }

  /** Without losses, with an enemy afloat, sinking at least two thirds of the enemy gives A. */
  lemma TwoThirdsGivesA(fi: seq<nat>, fn: seq<nat>, ei: seq<nat>, en: seq<nat>)
    requires Computable(fi, fn, ei, en)
    requires SunkCount(fn) == 0 && AliveCount(en) > 0
    requires 3 * SunkCount(en) >= 2 * |en|
    ensures Calculate(fi, fn, ei, en) == A
  {
    RatioAtMost(2, 3, SunkCount(en), |en|);
  }
}
