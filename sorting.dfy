/**
 * Stable descending sort by a natural-number key: what
 * `v.sort_by_key(|x| std::cmp::Reverse(key(x)))` does to a vector.
 * The standard library's stable sort is specified here, not re-implemented:
 * the output is the blocks of equal key, largest key first, each block in
 * input order.
 */
module StableSort {

  datatype Keyed<T> = Keyed(item: T, key: nat)

  /** The entries whose key is k, in input order. */
  function WithKey<T>(s: seq<Keyed<T>>, k: nat): (r: seq<Keyed<T>>)
    ensures |r| <= |s|
    ensures forall i :: 0 <= i < |r| ==> r[i].key == k
  {
    if s == [] then []
    else WithKey(s[..|s| - 1], k) + (if s[|s| - 1].key == k then [s[|s| - 1]] else [])
  }

  /** The entries whose key is at most k, in input order. */
  function AtMost<T>(s: seq<Keyed<T>>, k: nat): (r: seq<Keyed<T>>)
    ensures forall i :: 0 <= i < |r| ==> r[i].key <= k
  {
    if s == [] then []
    else AtMost(s[..|s| - 1], k) + (if s[|s| - 1].key <= k then [s[|s| - 1]] else [])
  }

  /** The largest key, 0 for an empty sequence. */
  function MaxKey<T>(s: seq<Keyed<T>>): (m: nat)
    ensures forall i :: 0 <= i < |s| ==> s[i].key <= m
  {
    if s == [] then 0
    else
      var m := MaxKey(s[..|s| - 1]);
      if s[|s| - 1].key > m then s[|s| - 1].key else m
  }

  /** The blocks of keys k, k - 1, ..., 0, in that order. */
  function SortDesc<T>(s: seq<Keyed<T>>, k: nat): (r: seq<Keyed<T>>)
    ensures forall i :: 0 <= i < |r| ==> r[i].key <= k
    ensures forall i, j :: 0 <= i < j < |r| ==> r[i].key >= r[j].key
    decreases k
  {
    if k == 0 then WithKey(s, 0)
    else
      var head, rest := WithKey(s, k), SortDesc(s, k - 1);
      assert forall i :: |head| <= i < |head + rest| ==> (head + rest)[i] == rest[i - |head|];
      head + rest
  }

  /**
   * The stable descending sort: a permutation of the input, ordered by key from
   * largest to smallest, in which the entries of each key keep their input order.
   */
  function StableSortDesc<T>(s: seq<Keyed<T>>): (r: seq<Keyed<T>>)
    ensures multiset(r) == multiset(s)
    ensures |r| == |s|
    ensures forall i, j :: 0 <= i < j < |r| ==> r[i].key >= r[j].key
    ensures forall k :: WithKey(r, k) == WithKey(s, k)
  {
    var m := MaxKey(s);
    SortDescPermutes(s, m);
    AtMostAll(s, m);
    assert |multiset(SortDesc(s, m))| == |multiset(s)|;
    forall k: nat ensures WithKey(SortDesc(s, m), k) == WithKey(s, k) {
      if k <= m {
        SortDescBlocks(s, m, k);
      } else {
        WithKeyAbsent(s, k);
        WithKeyAbsent(SortDesc(s, m), k);
      }
    }
    SortDesc(s, m)
  }

  /** Filtering by key distributes over concatenation. */
  lemma {:induction false} WithKeyAppend<T>(a: seq<Keyed<T>>, b: seq<Keyed<T>>, k: nat)
    ensures WithKey(a + b, k) == WithKey(a, k) + WithKey(b, k)
    decreases |b|
  {
    if b == [] {
      assert a + b == a;
    } else {
      var b' := b[..|b| - 1];
      assert (a + b)[..|a + b| - 1] == a + b';
      WithKeyAppend(a, b', k);
    }
  }

  lemma {:induction false} AtMostAppend<T>(a: seq<Keyed<T>>, b: seq<Keyed<T>>, k: nat)
    ensures AtMost(a + b, k) == AtMost(a, k) + AtMost(b, k)
    decreases |b|
  {
    if b == [] {
      assert a + b == a;
    } else {
      var b' := b[..|b| - 1];
      assert (a + b)[..|a + b| - 1] == a + b';
      AtMostAppend(a, b', k);
    }
  }

  /** Filtering twice by the same key changes nothing; by two different keys leaves nothing. */
  lemma {:induction false} WithKeyTwice<T>(s: seq<Keyed<T>>, k: nat, k': nat)
    ensures WithKey(WithKey(s, k), k') == if k == k' then WithKey(s, k) else []
    decreases |s|
  {
    if s != [] {
      var front := s[..|s| - 1];
      var last := s[|s| - 1];
      WithKeyTwice(front, k, k');
      WithKeyAppend(WithKey(front, k), if last.key == k then [last] else [], k');
    }
  }

  /** No entry has a key above the maximum. */
  lemma {:induction false} WithKeyAbsent<T>(s: seq<Keyed<T>>, k: nat)
    requires forall i :: 0 <= i < |s| ==> s[i].key < k
    ensures WithKey(s, k) == []
    decreases |s|
  {
    if s != [] {
      WithKeyAbsent(s[..|s| - 1], k);
    }
  }

  /** Every entry has key at most the maximum, so nothing is filtered out. */
  lemma {:induction false} AtMostAll<T>(s: seq<Keyed<T>>, m: nat)
    requires forall i :: 0 <= i < |s| ==> s[i].key <= m
    ensures AtMost(s, m) == s
    decreases |s|
  {
    if s != [] {
      AtMostAll(s[..|s| - 1], m);
    }
  }

  /** Key 0 is the only key at most 0. */
  lemma {:induction false} AtMostZero<T>(s: seq<Keyed<T>>)
    ensures AtMost(s, 0) == WithKey(s, 0)
    decreases |s|
  {
    if s != [] {
      AtMostZero(s[..|s| - 1]);
    }
  }

  /** The entries with key at most k are those with key k and those with key at most k - 1. */
  lemma {:induction false} AtMostSplit<T>(s: seq<Keyed<T>>, k: nat)
    requires k > 0
    ensures multiset(AtMost(s, k)) == multiset(WithKey(s, k)) + multiset(AtMost(s, k - 1))
    decreases |s|
  {
    if s != [] {
      AtMostSplit(s[..|s| - 1], k);
    }
  }

  lemma {:induction false} SortDescPermutes<T>(s: seq<Keyed<T>>, k: nat)
    ensures multiset(SortDesc(s, k)) == multiset(AtMost(s, k))
    decreases k
  {
    if k == 0 {
      AtMostZero(s);
    } else {
      SortDescPermutes(s, k - 1);
      AtMostSplit(s, k);
    }
  }

  /** The blocks from key m down are block m followed by the blocks from m - 1 down. */
  lemma SortDescUnfold<T>(s: seq<Keyed<T>>, m: nat)
    requires m > 0
    ensures SortDesc(s, m) == WithKey(s, m) + SortDesc(s, m - 1)
  {
  }

  /** Filtering the blocks by a key recovers that key's entries in input order. */
  lemma {:induction false} SortDescBlocks<T>(s: seq<Keyed<T>>, m: nat, k: nat)
    requires k <= m
    ensures WithKey(SortDesc(s, m), k) == WithKey(s, k)
    decreases m
  {
    if m == 0 {
      WithKeyTwice(s, 0, 0);
    } else if m > k {
      SortDescBlocks(s, m - 1, k);
      SortDescBelowTop(s, m, k);
    } else {
      SortDescTop(s, m);
    }
  }

  /** Below the top key, the top block contributes nothing. */
  lemma SortDescBelowTop<T>(s: seq<Keyed<T>>, m: nat, k: nat)
    requires k < m
    ensures WithKey(SortDesc(s, m), k) == WithKey(SortDesc(s, m - 1), k)
  {
    var head, rest := WithKey(s, m), SortDesc(s, m - 1);
    SortDescUnfold(s, m);
    WithKeyAppend(head, rest, k);
    WithKeyTwice(s, m, k);
    assert WithKey(head, k) + WithKey(rest, k) == WithKey(rest, k);
  }

  /** At the top key, the top block is everything. */
  lemma SortDescTop<T>(s: seq<Keyed<T>>, m: nat)
    requires m > 0
    ensures WithKey(SortDesc(s, m), m) == WithKey(s, m)
  {
    var head, rest := WithKey(s, m), SortDesc(s, m - 1);
    SortDescUnfold(s, m);
    WithKeyAppend(head, rest, m);
    WithKeyTwice(s, m, m);
    WithKeyAbsent(rest, m);
    assert WithKey(head, m) + WithKey(rest, m) == head;
  }

  /**
   * Ties keep input order: when the input is a followed by b, the entries of
   * each key come out as a's entries of that key followed by b's.
   */
  lemma TiesKeepInputOrder<T>(a: seq<Keyed<T>>, b: seq<Keyed<T>>, k: nat)
    ensures WithKey(StableSortDesc(a + b), k) == WithKey(a, k) + WithKey(b, k)
  {
    WithKeyAppend(a, b, k);
  }

  /** The payloads of a keyed list, in order (the `map(|(.., i, _)| ..)` after the sort). */
  function Items<T>(s: seq<Keyed<T>>): (r: seq<T>)
    ensures |r| == |s|
    ensures forall i :: 0 <= i < |s| ==> r[i] == s[i].item
  {
    seq(|s|, i requires 0 <= i < |s| => s[i].item)
  }

  lemma ItemsAppend<T>(a: seq<Keyed<T>>, b: seq<Keyed<T>>)
    ensures Items(a + b) == Items(a) + Items(b)
  {
  }

  /** Stripping the keys of two rearrangements of one list gives two rearrangements of one list. */
  lemma {:induction false} ItemsOfPermutation<T>(r: seq<Keyed<T>>, s: seq<Keyed<T>>)
    requires multiset(r) == multiset(s)
    ensures multiset(Items(r)) == multiset(Items(s))
    decreases |r|
  {
    if r != [] {
      var x := r[0];
      assert x in multiset(s);
      var i :| 0 <= i < |s| && s[i] == x;
      var rest := s[..i] + s[i + 1..];
      assert s == s[..i] + [x] + s[i + 1..];
      assert r == [x] + r[1..];
      calc {
        multiset(r[1..]) + multiset{x};
        multiset(r);
        multiset(s);
        multiset(s[..i]) + multiset{x} + multiset(s[i + 1..]);
        multiset(rest) + multiset{x};
      }
      assert multiset(r[1..]) == multiset(r[1..]) + multiset{x} - multiset{x};
      assert multiset(rest) == multiset(rest) + multiset{x} - multiset{x};
      ItemsOfPermutation(r[1..], rest);
      ItemsAppend([x], r[1..]);
      ItemsAppend(s[..i] + [x], s[i + 1..]);
      ItemsAppend(s[..i], [x]);
      ItemsAppend(s[..i], s[i + 1..]);
    }
  }

  /** The sorted list holds exactly the input's entries. */
  lemma SortedSameEntries<T>(s: seq<Keyed<T>>)
    ensures forall i :: 0 <= i < |StableSortDesc(s)| ==> StableSortDesc(s)[i] in s
    ensures forall i :: 0 <= i < |s| ==> s[i] in StableSortDesc(s)
  {
    var r := StableSortDesc(s);
    forall i | 0 <= i < |r| ensures r[i] in s {
      assert r[i] in multiset(r);
    }
    forall i | 0 <= i < |s| ensures s[i] in r {
      assert s[i] in multiset(s);
    }
  }

  lemma {:induction false} WithKeyAll<T>(s: seq<Keyed<T>>, k: nat)
    requires forall i :: 0 <= i < |s| ==> s[i].key == k
    ensures WithKey(s, k) == s
    decreases |s|
  {
    if s != [] {
      WithKeyAll(s[..|s| - 1], k);
      assert s[..|s| - 1] + [s[|s| - 1]] == s;
    }
  }

  /** A list whose keys are all equal comes out of the stable sort unchanged. */
  lemma AllTiedStay<T>(s: seq<Keyed<T>>, k: nat)
    requires forall i :: 0 <= i < |s| ==> s[i].key == k
    ensures StableSortDesc(s) == s
  {
    var r := StableSortDesc(s);
    assert WithKey(r, k) == WithKey(s, k);
    WithKeyAll(s, k);
    KeysOfEntries(s, r, k);
    WithKeyAll(r, k);
  }

  lemma KeysOfEntries<T>(s: seq<Keyed<T>>, r: seq<Keyed<T>>, k: nat)
    requires forall i :: 0 <= i < |s| ==> s[i].key == k
    requires multiset(r) == multiset(s)
    ensures forall i :: 0 <= i < |r| ==> r[i].key == k
  {
    forall i | 0 <= i < |r| ensures r[i].key == k {
      assert r[i] in multiset(s);
      var j :| 0 <= j < |s| && s[j] == r[i];
    }
  }
}
