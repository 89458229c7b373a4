/** Engagement geometry (src/battle_legacy/battle_direction.rs) and the per-battle draw that picks it. */
module BattleDirections {

  datatype BattleDirection = Same | Against | TAdvantage | TDisadvantage

  function FpFactor(d: BattleDirection): real {
    match d
    case Same => 1.0
    case Against => 0.8
    case TAdvantage => 1.2
    case TDisadvantage => 0.6
  }

  /** The Display text of each direction. */
  function Label(d: BattleDirection): string {
    match d
    case Same => "同航戦"
    case Against => "反航戦"
    case TAdvantage => "Ｔ字有利"
    case TDisadvantage => "Ｔ字不利"
  }

  /** Every factor is positive, and only the T advantage raises firepower. */
  lemma FpFactorPositive(d: BattleDirection)
    ensures 0.6 <= FpFactor(d) <= 1.2
    ensures FpFactor(d) > 1.0 <==> d == TAdvantage
  {
  }

  lemma LabelsDistinct(a: BattleDirection, b: BattleDirection)
    ensures a != b ==> Label(a) != Label(b)
  {
  }

  /**
   * `Battle::new`: one uniform draw r in [0, 1) picks the direction by the cut points
   * 0.45, 0.75 and 0.9 (shares 45%, 30%, 15%, 10%).
   */
  function FromDraw(r: real): (d: BattleDirection)
    requires 0.0 <= r < 1.0
    ensures d == Same <==> r < 0.45
    ensures d == Against <==> 0.45 <= r < 0.75
    ensures d == TAdvantage <==> 0.75 <= r < 0.9
    ensures d == TDisadvantage <==> 0.9 <= r
  {
    if r < 0.45 then Same
    else if r < 0.75 then Against
    else if r < 0.9 then TAdvantage
    else TDisadvantage
  }

  /** Every direction is drawn by some r. */
  lemma EveryDirectionReachable(d: BattleDirection)
    ensures exists r: real :: 0.0 <= r < 1.0 && FromDraw(r) == d
  {
    var r := match d
      case Same => 0.0
      case Against => 0.5
      case TAdvantage => 0.8
      case TDisadvantage => 0.95;
    assert FromDraw(r) == d;
  }
}
