/**
 * The "currently alive" views every engine builds with
 * `iter().filter(|s| s.is_alive())`: the alive fleet indices, their count,
 * and the n-th of them.
 */
module Alive {
  import opened Wrappers

  predicate IsAlive(hp: nat) {
    hp > 0
  }

  /** The indices with HP left, ascending. */
  function AliveIndices(hp: seq<nat>): (ix: seq<nat>)
    ensures forall k :: 0 <= k < |ix| ==> ix[k] < |hp| && hp[ix[k]] > 0
    ensures |ix| <= |hp|
  {
    if hp == [] then []
    else
      var front := AliveIndices(hp[..|hp| - 1]);
      if hp[|hp| - 1] > 0 then front + [|hp| - 1] else front
  }

  /** The alive indices ascend strictly. */
  lemma {:induction false} AliveIndicesAscend(hp: seq<nat>)
    ensures forall k, l :: 0 <= k < l < |AliveIndices(hp)| ==> AliveIndices(hp)[k] < AliveIndices(hp)[l]
    decreases |hp|
  {
    if hp != [] {
      var n := |hp| - 1;
      AliveIndicesAscend(hp[..n]);
      var front := AliveIndices(hp[..n]);
      var ix := AliveIndices(hp);
      assert forall k, l :: 0 <= k < l < |front| ==> front[k] < front[l];
      if hp[n] > 0 {
        assert ix == front + [n];
        forall k, l | 0 <= k < l < |ix| ensures ix[k] < ix[l] {
          if l < |front| {
            assert ix[k] == front[k] && ix[l] == front[l];
          } else {
            assert ix[k] == front[k] < n;
          }
        }
      } else {
        assert ix == front;
      }
    }
  }

  /** Every ship with HP left is among the alive indices. */
  lemma {:induction false} AliveIncluded(hp: seq<nat>, j: nat)
    requires j < |hp| && hp[j] > 0
    ensures j in AliveIndices(hp)
    decreases |hp|
  {
    var n := |hp| - 1;
    if j < n {
      AliveIncluded(hp[..n], j);
    }
  }

  function AliveCount(hp: seq<nat>): nat {
    |AliveIndices(hp)|
  }

  /** No ship is alive exactly when every HP is zero. */
  lemma AliveCountZero(hp: seq<nat>)
    ensures AliveCount(hp) == 0 <==> forall j :: 0 <= j < |hp| ==> hp[j] == 0
  {
    if AliveCount(hp) > 0 {
      assert hp[AliveIndices(hp)[0]] > 0;
    } else {
      forall j | 0 <= j < |hp| ensures hp[j] == 0 {
        if hp[j] > 0 {
          AliveIncluded(hp, j);
          assert false;
        }
      }
    }
  }

  /** The alive indices of a prefix are a prefix of the alive indices. */
  lemma {:induction false} AliveIndicesPrefix(hp: seq<nat>, j: nat)
    requires j <= |hp|
    ensures AliveIndices(hp[..j]) <= AliveIndices(hp)
    ensures forall k :: 0 <= k < |AliveIndices(hp)| && AliveIndices(hp)[k] < j ==> k < |AliveIndices(hp[..j])|
    decreases |hp| - j
  {
    if j == |hp| {
      assert hp[..j] == hp;
    } else {
      AliveIndicesPrefix(hp, j + 1);
      assert hp[..j + 1][..j] == hp[..j];
    }
  }

  /**
   * `filter(is_alive).nth(k)`: the fleet index of the k-th alive ship,
   * None when fewer than k + 1 are alive.
   */
  function NthAlive(hp: seq<nat>, k: nat): (r: Option<nat>)
    ensures r.None? <==> AliveCount(hp) <= k
    ensures r.Some? ==> r.value < |hp| && hp[r.value] > 0 && AliveCount(hp[..r.value]) == k
  {
    var ix := AliveIndices(hp);
    if k < |ix| then
      RankOfAliveIndex(hp, k);
      Some(ix[k])
    else None
  }

  /** The k-th alive index has exactly k alive indices before it. */
  lemma RankOfAliveIndex(hp: seq<nat>, k: nat)
    requires k < AliveCount(hp)
    ensures AliveCount(hp[..AliveIndices(hp)[k]]) == k
  {
    var ix := AliveIndices(hp);
    var j := ix[k];
    AliveIndicesPrefix(hp, j);
    var pre := AliveIndices(hp[..j]);
    AliveIndicesAscend(hp);
    if k > 0 {
      assert ix[k - 1] < j;
      assert k - 1 < |pre|;
    }
    assert |pre| <= k;
  }

  /**
   * `random_range(0..alive_count)` followed by `filter(is_alive).nth(..)`: the
   * draw is reduced modulo the alive count, so None exactly when nobody is alive
   * and otherwise an alive ship.
   */
  function RandomAlive(hp: seq<nat>, draw: nat): (r: Option<nat>)
    ensures r.None? <==> AliveCount(hp) == 0
    ensures r.Some? ==> r.value < |hp| && hp[r.value] > 0
  {
    var n := AliveCount(hp);
    if n == 0 then None else NthAlive(hp, draw % n)
  }

  /** Every alive ship is picked by some draw: the one equal to its rank among the alive. */
  lemma EveryAliveShipReachable(hp: seq<nat>, j: nat)
    requires j < |hp| && hp[j] > 0
    ensures RandomAlive(hp, AliveCount(hp[..j])) == Some(j)
  {
    var ix := AliveIndices(hp);
    AliveIncluded(hp, j);
    var k :| 0 <= k < |ix| && ix[k] == j;
    RankOfAliveIndex(hp, k);
    var n := AliveCount(hp);
    assert AliveCount(hp[..j]) == k;
    ModOfSmaller(k, n);
    assert NthAlive(hp, k) == Some(ix[k]);
  }

  /**
   * Every ship is alive exactly when all of them are counted, and then the
   * alive indices are 0, 1, ..., |hp| - 1.
   */
  lemma AllAliveIff(hp: seq<nat>)
    ensures (forall j :: 0 <= j < |hp| ==> hp[j] > 0) <==> AliveCount(hp) == |hp|
    ensures (forall j :: 0 <= j < |hp| ==> hp[j] > 0) ==> AliveIndices(hp) == seq(|hp|, k => k)
  {
    AllAliveCount(hp);
    if forall j :: 0 <= j < |hp| ==> hp[j] > 0 {
      AllAliveIndices(hp);
    }
  }

  lemma {:induction false} AllAliveCount(hp: seq<nat>)
    ensures (forall j :: 0 <= j < |hp| ==> hp[j] > 0) <==> AliveCount(hp) == |hp|
    decreases |hp|
  {
    if hp != [] {
      var n := |hp| - 1;
      AllAliveCount(hp[..n]);
      var front := AliveIndices(hp[..n]);
      assert forall j :: 0 <= j < n ==> hp[..n][j] == hp[j];
      if hp[n] > 0 {
        assert AliveIndices(hp) == front + [n];
      } else {
        assert AliveIndices(hp) == front;
      }
    }
  }

  lemma {:induction false} AllAliveIndices(hp: seq<nat>)
    requires forall j :: 0 <= j < |hp| ==> hp[j] > 0
    ensures AliveIndices(hp) == seq(|hp|, k => k)
    decreases |hp|
  {
    if hp != [] {
      var n := |hp| - 1;
      assert forall j :: 0 <= j < n ==> hp[..n][j] == hp[j];
      AllAliveIndices(hp[..n]);
      assert AliveIndices(hp) == AliveIndices(hp[..n]) + [n];
      assert seq(|hp|, k => k) == seq(n, k => k) + [n];
    }
  }

  /** No entry of an HP list went up, and the list kept its length. */
  predicate NoHpGained(before: seq<nat>, after: seq<nat>) {
    |after| == |before| && forall i :: 0 <= i < |before| ==> after[i] <= before[i]
  }

  /** Every entry that had HP still has some. */
  predicate NoneSunk(before: seq<nat>, after: seq<nat>) {
    |after| == |before| && forall i :: 0 <= i < |before| && before[i] > 0 ==> after[i] > 0
  }

  lemma ModOfSmaller(k: nat, n: nat)
    requires k < n
    ensures k % n == k
  {
  }

  /** Two HP lists with the same alive pattern have the same alive views. */
  lemma {:induction false} SameAlivePattern(a: seq<nat>, b: seq<nat>)
    requires |a| == |b|
    requires forall j :: 0 <= j < |a| ==> (a[j] > 0 <==> b[j] > 0)
    ensures AliveIndices(a) == AliveIndices(b)
    decreases |a|
  {
    if a != [] {
      SameAlivePattern(a[..|a| - 1], b[..|b| - 1]);
    }
  }
}
