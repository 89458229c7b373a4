/**
 * The merged fire order of the engines that sort both fleets together
 * (src/battle/mod.rs by range, src/lib.rs and src/battle.rs by firepower):
 * `(true, i, key)` for every friendly ship chained with `(false, i, key)` for
 * every enemy ship, `sort_by_key(Reverse(key))`, keys dropped.
 */
module MergedOrders {
  import opened FireOrders
  import opened StableSort
  import opened Salvos
  import FS = FleetShip

  /** The key of ship i of a fleet; 0 outside the fleet. */
  function KeyOf(ships: seq<FS.Ship>, i: nat, key: FS.Ship -> nat): nat {
    if i < |ships| then key(ships[i]) else 0
  }

  /** The key of the ship an order entry names. */
  function TurnKey(l: Lineup, t: Turn, key: FS.Ship -> nat): nat {
    KeyOf(Ships(l, t.friend), t.index, key)
  }

  /** `enumerate().map(|(i, fs)| (is_friend, i, key(fs)))` over one fleet. */
  function Entries(ships: seq<FS.Ship>, friend: bool, key: FS.Ship -> nat): (r: seq<Keyed<Turn>>)
    ensures |r| == |ships|
    ensures forall i :: 0 <= i < |r| ==> r[i] == Keyed(Turn(friend, i), KeyOf(ships, i, key))
  {
    seq(|ships|, i requires 0 <= i < |ships| => Keyed(Turn(friend, i), KeyOf(ships, i, key)))
  }

  /** The chained list before sorting: every friendly ship, then every enemy ship. */
  function Chained(l: Lineup, key: FS.Ship -> nat): (s: seq<Keyed<Turn>>)
    ensures |s| == |l.friend| + |l.enemy|
  {
    Entries(l.friend, true, key) + Entries(l.enemy, false, key)
  }

  /** Every ship of both fleets once, friends first, each in fleet order. */
  function AllTurns(l: Lineup): seq<Turn> {
    Tagged(true, Indices(|l.friend|)) + Tagged(false, Indices(|l.enemy|))
  }

  /** The chained list stably sorted, largest key first, keys dropped. */
  function MergedOrder(l: Lineup, key: FS.Ship -> nat): (order: seq<Turn>)
    ensures |order| == |l.friend| + |l.enemy|
  {
    Items(StableSortDesc(Chained(l, key)))
  }

  /** The sorted entries are keyed by the key of the ship they name. */
  lemma SortedKeys(l: Lineup, key: FS.Ship -> nat)
    ensures var r := StableSortDesc(Chained(l, key));
      forall k :: 0 <= k < |r| ==> r[k].key == TurnKey(l, r[k].item, key)
  {
    var s := Chained(l, key);
    var r := StableSortDesc(s);
    assert forall i :: 0 <= i < |s| ==> s[i].key == TurnKey(l, s[i].item, key);
    SortedSameEntries(s);
    forall k | 0 <= k < |r| ensures r[k].key == TurnKey(l, r[k].item, key) {
      assert r[k] in s;
    }
  }

  /** The order lists every ship of both fleets exactly once. */
  lemma MergedOrderPermutes(l: Lineup, key: FS.Ship -> nat)
    ensures multiset(MergedOrder(l, key)) == multiset(AllTurns(l))
  {
    var s := Chained(l, key);
    ItemsOfPermutation(StableSortDesc(s), s);
    ItemsAppend(Entries(l.friend, true, key), Entries(l.enemy, false, key));
    assert Items(Entries(l.friend, true, key)) == Tagged(true, Indices(|l.friend|));
    assert Items(Entries(l.enemy, false, key)) == Tagged(false, Indices(|l.enemy|));
  }

  /** No entry comes before one whose ship has a larger key. */
  lemma MergedOrderSorted(l: Lineup, key: FS.Ship -> nat)
    ensures var order := MergedOrder(l, key);
      forall k, m :: 0 <= k < m < |order| ==> TurnKey(l, order[k], key) >= TurnKey(l, order[m], key)
  {
    var r := StableSortDesc(Chained(l, key));
    var order := MergedOrder(l, key);
    SortedKeys(l, key);
    forall k, m | 0 <= k < m < |order| ensures TurnKey(l, order[k], key) >= TurnKey(l, order[m], key) {
      assert order[k] == r[k].item && order[m] == r[m].item;
      assert r[k].key >= r[m].key;
    }
  }

  /** The fleet indices whose ships have key c, ascending. */
  function WithKeyIndices(ships: seq<FS.Ship>, key: FS.Ship -> nat, c: nat): (ix: seq<nat>)
    ensures forall k :: 0 <= k < |ix| ==> ix[k] < |ships|
  {
    if ships == [] then []
    else
      var n := |ships| - 1;
      WithKeyIndices(ships[..n], key, c) + (if key(ships[n]) == c then [n] else [])
  }

  /** The entries of an order whose ships have key c, in order. */
  function OfKey(l: Lineup, order: seq<Turn>, key: FS.Ship -> nat, c: nat): seq<Turn> {
    if order == [] then []
    else
      var n := |order| - 1;
      OfKey(l, order[..n], key, c) + (if TurnKey(l, order[n], key) == c then [order[n]] else [])
  }

  /** Filtering by key commutes with dropping keys, when the keys are the ships' keys. */
  lemma {:induction false} OfKeyItems(l: Lineup, r: seq<Keyed<Turn>>, key: FS.Ship -> nat, c: nat)
    requires forall k :: 0 <= k < |r| ==> r[k].key == TurnKey(l, r[k].item, key)
    ensures OfKey(l, Items(r), key, c) == Items(WithKey(r, c))
    decreases |r|
  {
    if r != [] {
      var n := |r| - 1;
      OfKeyItems(l, r[..n], key, c);
      assert Items(r)[..n] == Items(r[..n]);
      ItemsAppend(WithKey(r[..n], c), if r[n].key == c then [r[n]] else []);
    }
  }

  lemma TaggedAppend(friend: bool, a: seq<nat>, b: seq<nat>)
    ensures Tagged(friend, a + b) == Tagged(friend, a) + Tagged(friend, b)
  {
  }

  /** The key-c entries of one fleet, keys dropped, are its key-c ships in fleet order. */
  lemma {:induction false} EntriesWithKey(ships: seq<FS.Ship>, friend: bool, key: FS.Ship -> nat, c: nat)
    ensures Items(WithKey(Entries(ships, friend, key), c)) == Tagged(friend, WithKeyIndices(ships, key, c))
    decreases |ships|
  {
    if ships != [] {
      var n := |ships| - 1;
      var e := Entries(ships, friend, key);
      EntriesWithKey(ships[..n], friend, key, c);
      assert e[..n] == Entries(ships[..n], friend, key);
      var last: seq<Keyed<Turn>> := if e[n].key == c then [e[n]] else [];
      ItemsAppend(WithKey(e[..n], c), last);
      TaggedAppend(friend, WithKeyIndices(ships[..n], key, c), if key(ships[n]) == c then [n] else []);
    }
  }

  /**
   * Ties keep the chained order: the ships with one key come out as the
   * friendly ships with that key in fleet order, then the enemy ships with it
   * in fleet order.
   */
  lemma MergedOrderTies(l: Lineup, key: FS.Ship -> nat, c: nat)
    ensures OfKey(l, MergedOrder(l, key), key, c) ==
      Tagged(true, WithKeyIndices(l.friend, key, c)) + Tagged(false, WithKeyIndices(l.enemy, key, c))
  {
    var r := StableSortDesc(Chained(l, key));
    SortedKeys(l, key);
    OfKeyItems(l, r, key, c);
    TiesKeepInputOrder(Entries(l.friend, true, key), Entries(l.enemy, false, key), c);
    ItemsAppend(WithKey(Entries(l.friend, true, key), c), WithKey(Entries(l.enemy, false, key), c));
    EntriesWithKey(l.friend, true, key, c);
    EntriesWithKey(l.enemy, false, key, c);
  }
}
