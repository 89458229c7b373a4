/**
 * Fire orders: the `Vec<(bool, usize)>` lists of `(is_friend, index)` that the
 * engines walk, and the interleaving both engines build them with.
 */
module FireOrders {

  /** One entry of a fire order: the side tag and an index. */
  datatype Turn = Turn(friend: bool, index: nat)

  function Min(a: nat, b: nat): nat { if a <= b then a else b }
  function Max(a: nat, b: nat): nat { if a >= b then a else b }

  /** 0, 1, ..., n - 1. */
  function Indices(n: nat): (r: seq<nat>)
    ensures |r| == n
    ensures forall i :: 0 <= i < n ==> r[i] == i
  {
    seq(n, i => i)
  }

  /** Every index of a list, tagged with one side. */
  function Tagged(friend: bool, ix: seq<nat>): (r: seq<Turn>)
    ensures |r| == |ix|
    ensures forall i :: 0 <= i < |r| ==> r[i] == Turn(friend, ix[i])
  {
    seq(|ix|, i requires 0 <= i < |ix| => Turn(friend, ix[i]))
  }

  /**
   * The documented interleaving: `(true, a[0]), (false, b[0]), (true, a[1]), ...`
   * while both lists last, then the rest of the longer list with its own tag.
   */
  function Interleave(a: seq<nat>, b: seq<nat>): (r: seq<Turn>)
    ensures |r| == |a| + |b|
    decreases |a| + |b|
  {
    if a == [] then Tagged(false, b)
    else if b == [] then Tagged(true, a)
    else [Turn(true, a[0]), Turn(false, b[0])] + Interleave(a[1..], b[1..])
  }

  /** The indices of the entries carrying a given tag, in order. */
  function Side(order: seq<Turn>, friend: bool): (r: seq<nat>)
    ensures |r| <= |order|
  {
    if order == [] then []
    else (if order[0].friend == friend then [order[0].index] else []) + Side(order[1..], friend)
  }

  lemma {:induction false} SideAppend(x: seq<Turn>, y: seq<Turn>, friend: bool)
    ensures Side(x + y, friend) == Side(x, friend) + Side(y, friend)
    decreases |x|
  {
    if x == [] {
      assert x + y == y;
    } else {
      assert (x + y)[1..] == x[1..] + y;
      SideAppend(x[1..], y, friend);
    }
  }

  lemma {:induction false} SideOfTagged(friend: bool, ix: seq<nat>, side: bool)
    ensures Side(Tagged(friend, ix), side) == if friend == side then ix else []
    decreases |ix|
  {
    if ix != [] {
      assert Tagged(friend, ix)[1..] == Tagged(friend, ix[1..]);
      SideOfTagged(friend, ix[1..], side);
    }
  }

  /**
   * Nothing is lost, added or reordered: the entries tagged `true` are exactly a,
   * the entries tagged `false` exactly b.
   */
  lemma {:induction false} InterleaveSides(a: seq<nat>, b: seq<nat>)
    ensures Side(Interleave(a, b), true) == a
    ensures Side(Interleave(a, b), false) == b
    decreases |a| + |b|
  {
    if a == [] {
      SideOfTagged(false, b, true);
      SideOfTagged(false, b, false);
    } else if b == [] {
      SideOfTagged(true, a, true);
      SideOfTagged(true, a, false);
    } else {
      var head := [Turn(true, a[0]), Turn(false, b[0])];
      InterleaveSides(a[1..], b[1..]);
      SideAppend(head, Interleave(a[1..], b[1..]), true);
      SideAppend(head, Interleave(a[1..], b[1..]), false);
      assert Side(head, true) == [a[0]] by {
        assert head[1..][1..] == [];
      }
      assert Side(head, false) == [b[0]] by {
        assert head[1..][1..] == [];
      }
    }
  }

  /** Every `true` entry comes from a and every `false` entry from b. */
  lemma {:induction false} InterleaveEntries(a: seq<nat>, b: seq<nat>)
    ensures forall k :: 0 <= k < |Interleave(a, b)| ==>
      var t := Interleave(a, b)[k]; (t.friend ==> t.index in a) && (!t.friend ==> t.index in b)
    decreases |a| + |b|
  {
    if a != [] && b != [] {
      InterleaveEntries(a[1..], b[1..]);
      var r := Interleave(a, b);
      assert r[2..] == Interleave(a[1..], b[1..]);
      forall k | 2 <= k < |r| ensures (r[k].friend ==> r[k].index in a) && (!r[k].friend ==> r[k].index in b) {
        assert r[k] == r[2..][k - 2];
      }
    }
  }

  /** While both lists last, even positions hold a's entries and odd positions b's. */
  lemma {:induction false} InterleaveAlternates(a: seq<nat>, b: seq<nat>, k: nat)
    requires k < |a| && k < |b|
    ensures Interleave(a, b)[2 * k] == Turn(true, a[k])
    ensures Interleave(a, b)[2 * k + 1] == Turn(false, b[k])
    decreases k
  {
    if k > 0 {
      InterleaveAlternates(a[1..], b[1..], k - 1);
    }
  }

  /** After both lists have given min(|a|, |b|) entries each, the longer list's rest follows in order. */
  lemma {:induction false} InterleaveRemainder(a: seq<nat>, b: seq<nat>)
    ensures var m := Min(|a|, |b|);
      Interleave(a, b)[2 * m..] == if |a| > m then Tagged(true, a[m..]) else Tagged(false, b[m..])
    decreases |a| + |b|
  {
    var m := Min(|a|, |b|);
    if a == [] {
      assert b[m..] == b;
    } else if b == [] {
      assert a[m..] == a;
    } else {
      InterleaveRemainder(a[1..], b[1..]);
      var r := Interleave(a[1..], b[1..]);
      assert Interleave(a, b) == [Turn(true, a[0]), Turn(false, b[0])] + r;
      assert Interleave(a, b)[2 * m..] == r[2 * (m - 1)..];
      assert a[1..][m - 1..] == a[m..];
      assert b[1..][m - 1..] == b[m..];
    }
  }

  /** The entries a loop round i pushes: `(true, a[i])` if a has one, then `(false, b[i])` if b has one. */
  function Round(a: seq<nat>, b: seq<nat>, i: nat): seq<Turn> {
    (if i < |a| then [Turn(true, a[i])] else []) + (if i < |b| then [Turn(false, b[i])] else [])
  }

  /** What a loop over rounds 0 .. n - 1 has pushed. */
  function Rounds(a: seq<nat>, b: seq<nat>, n: nat): seq<Turn>
    decreases n
  {
    if n == 0 then [] else Rounds(a, b, n - 1) + Round(a, b, n - 1)
  }

  function Drop1(s: seq<nat>): seq<nat> {
    if s == [] then [] else s[1..]
  }

  lemma {:induction false} RoundsShift(a: seq<nat>, b: seq<nat>, n: nat)
    ensures Rounds(a, b, n + 1) == Round(a, b, 0) + Rounds(Drop1(a), Drop1(b), n)
    decreases n
  {
    if n > 0 {
      RoundsShift(a, b, n - 1);
      assert Round(a, b, n) == Round(Drop1(a), Drop1(b), n - 1);
    }
  }

  /** The interleaving starts with round 0 and goes on with the interleaving of the two tails. */
  lemma InterleaveHead(a: seq<nat>, b: seq<nat>)
    ensures Interleave(a, b) == Round(a, b, 0) + Interleave(Drop1(a), Drop1(b))
  {
    if a == [] && b != [] {
      assert Tagged(false, b) == [Turn(false, b[0])] + Tagged(false, b[1..]);
    } else if a != [] && b == [] {
      assert Tagged(true, a) == [Turn(true, a[0])] + Tagged(true, a[1..]);
    }
  }

  /** Running the rounds until both lists are used up builds exactly the interleaving. */
  lemma {:induction false} RoundsAreInterleave(a: seq<nat>, b: seq<nat>, n: nat)
    requires |a| <= n && |b| <= n
    ensures Rounds(a, b, n) == Interleave(a, b)
    decreases |a| + |b|, n
  {
    if n > 0 {
      RoundsShift(a, b, n - 1);
      RoundsAreInterleave(Drop1(a), Drop1(b), n - 1);
      InterleaveHead(a, b);
    }
  }

  /**
   * The while loop both legacy orderings share: one entry from each list per
   * round, the first list's entry tagged `true`, until both lists are used up.
   */
  method InterleaveLoop(first: seq<nat>, second: seq<nat>) returns (order: seq<Turn>)
    ensures order == Interleave(first, second)
  {
    order := [];
    var i, j := 0, 0;
    ghost var t := 0;
    while i < |first| || j < |second|
      invariant i == Min(t, |first|) && j == Min(t, |second|)
      invariant order == Rounds(first, second, t)
      decreases |first| + |second| - i - j
    {
      if i < |first| {
        order := order + [Turn(true, first[i])];
        i := i + 1;
      }
      if j < |second| {
        order := order + [Turn(false, second[j])];
        j := j + 1;
      }
      t := t + 1;
    }
    RoundsAreInterleave(first, second, t);
  }
}
