/** Stable sorting by index: determined by order plus the per-index subsequences. */
module StableSort {
  import opened Prelude

  /** Insert behind every element with a smaller or equal index. */
  function Insert<T>(s: seq<(nat, T)>, x: (nat, T)): (r: seq<(nat, T)>)
    ensures |r| == |s| + 1
  {
    if s != [] && s[|s| - 1].0 > x.0 then Insert(s[..|s| - 1], x) + [s[|s| - 1]] else s + [x]
  }

  function SortByIndex<T>(s: seq<(nat, T)>): (r: seq<(nat, T)>)
    ensures |r| == |s|
  {
    if s == [] then [] else Insert(SortByIndex(s[..|s| - 1]), s[|s| - 1])
  }

  predicate Sorted<T>(s: seq<(nat, T)>) {
    forall i, j :: 0 <= i < j < |s| ==> s[i].0 <= s[j].0
  }

  /** The elements filed under index `k`, in order. */
  function Keyed<T>(s: seq<(nat, T)>, k: nat): seq<T> {
    if s == [] then []
    else Keyed(s[..|s| - 1], k) + (if s[|s| - 1].0 == k then [s[|s| - 1].1] else [])
  }

  lemma {:induction false} KeyedSnoc<T>(s: seq<(nat, T)>, x: (nat, T), k: nat)
    ensures Keyed(s + [x], k) == Keyed(s, k) + (if x.0 == k then [x.1] else [])
  {
    assert (s + [x])[..|s|] == s;
  }

  lemma {:induction false} KeyedConcat<T>(a: seq<(nat, T)>, b: seq<(nat, T)>, k: nat)
    ensures Keyed(a + b, k) == Keyed(a, k) + Keyed(b, k)
    decreases |b|
  {
    hide Keyed;
    if b == [] {
      KeyedNone<T>(k);
      assert a + b == a && Keyed(a, k) + [] == Keyed(a, k);
    } else {
      var init, last := b[..|b| - 1], b[|b| - 1];
      var one := if last.0 == k then [last.1] else [];
      KeyedConcat(a, init, k);
      assert a + b == (a + init) + [last] && b == init + [last];
      KeyedSnoc(a + init, last, k);
      KeyedSnoc(init, last, k);
      ConcatAssoc(Keyed(a, k), Keyed(init, k), one);
    }
  }

  lemma {:induction false} KeyedNone<T>(k: nat)
    ensures Keyed<T>([], k) == []
  {
  }

  lemma {:induction false} InsertSorted<T>(s: seq<(nat, T)>, x: (nat, T))
    requires Sorted(s)
    ensures Sorted(Insert(s, x))
    ensures forall y :: y in Insert(s, x) ==> y in s || y == x
    decreases |s|
  {
    if s != [] && s[|s| - 1].0 > x.0 {
      var init, last := s[..|s| - 1], s[|s| - 1];
      InsertSorted(init, x);
      var r := Insert(init, x);
      forall i | 0 <= i < |r| ensures r[i].0 <= last.0 {
        assert r[i] in init || r[i] == x;
      }
    }
  }

  lemma {:induction false} InsertKeyed<T>(s: seq<(nat, T)>, x: (nat, T), k: nat)
    ensures Keyed(Insert(s, x), k) == Keyed(s, k) + (if x.0 == k then [x.1] else [])
    decreases |s|
  {
    if s != [] && s[|s| - 1].0 > x.0 {
      var init, last := s[..|s| - 1], s[|s| - 1];
      InsertKeyed(init, x, k);
      KeyedSnoc(Insert(init, x), last, k);
    } else {
      KeyedSnoc(s, x, k);
    }
  }

  /** Sorting orders by index and keeps each index's own order. */
  lemma {:induction false} SortKeeps<T>(s: seq<(nat, T)>, k: nat)
    ensures Sorted(SortByIndex(s)) && Keyed(SortByIndex(s), k) == Keyed(s, k)
    decreases |s|
  {
    if s != [] {
      var init, last := s[..|s| - 1], s[|s| - 1];
      SortKeeps(init, k);
      InsertSorted(SortByIndex(init), last);
      InsertKeyed(SortByIndex(init), last, k);
    }
  }

  lemma {:induction false} KeyedEmpty<T>(s: seq<(nat, T)>, k: nat)
    ensures Keyed(s, k) == [] <==> forall i :: 0 <= i < |s| ==> s[i].0 != k
    decreases |s|
  {
    if s != [] { KeyedEmpty(s[..|s| - 1], k); }
  }

  /** The same elements under every index, in the same order. */
  ghost predicate SameKeyed<T(!new)>(a: seq<(nat, T)>, b: seq<(nat, T)>) {
    forall k :: Keyed(a, k) == Keyed(b, k)
  }

  lemma {:induction false} SameIndex<T(!new)>(a: seq<(nat, T)>, x: (nat, T), b: seq<(nat, T)>, y: (nat, T))
    requires Sorted(a + [x]) && Sorted(b + [y]) && SameKeyed(a + [x], b + [y])
    ensures x.0 == y.0
  {
    hide Keyed;
    var s, t := a + [x], b + [y];
    KeyedEmpty(s, x.0);
    KeyedEmpty(t, x.0);
    KeyedEmpty(s, y.0);
    KeyedEmpty(t, y.0);
    assert s[|a|] == x && t[|b|] == y;
    assert Keyed(s, x.0) == Keyed(t, x.0) && Keyed(s, y.0) == Keyed(t, y.0);
  }

  /** Two sorted sequences with the same per-index subsequences end alike. */
  lemma {:induction false} SameLast<T(!new)>(a: seq<(nat, T)>, x: (nat, T), b: seq<(nat, T)>, y: (nat, T))
    requires Sorted(a + [x]) && Sorted(b + [y]) && SameKeyed(a + [x], b + [y])
    ensures x == y && SameKeyed(a, b)
  {
    hide Keyed, Sorted;
    SameIndex(a, x, b, y);
    forall k ensures Keyed(a, k) == Keyed(b, k) && x == y {
      KeyedSnoc(a, x, k);
      KeyedSnoc(b, y, k);
      KeyedSnoc(a, x, x.0);
      KeyedSnoc(b, y, x.0);
      assert Keyed(a + [x], k) == Keyed(b + [y], k) && Keyed(a + [x], x.0) == Keyed(b + [y], x.0);
      LastOut(Keyed(a, x.0), x.1, Keyed(b, x.0), y.1);
      assert Keyed(a, k) + [] == Keyed(a, k) && Keyed(b, k) + [] == Keyed(b, k);
    }
    assert Keyed(a, 0) == Keyed(b, 0);
  }

  lemma {:induction false} LastOut<T>(s: seq<T>, x: T, t: seq<T>, y: T)
    requires s + [x] == t + [y]
    ensures s == t && x == y
  {
    assert (s + [x])[|s|] == x && (t + [y])[|t|] == y;
    assert (s + [x])[..|s|] == s && (t + [y])[..|t|] == t;
  }

  lemma {:induction false} AllEmpty<T>(s: seq<(nat, T)>)
    requires forall k :: Keyed(s, k) == []
    ensures s == []
  {
    if s != [] { KeyedEmpty(s, s[0].0); }
  }

  /** A sorted sequence is determined by its per-index subsequences. */
  lemma {:induction false} SortedUnique<T(!new)>(a: seq<(nat, T)>, b: seq<(nat, T)>)
    requires Sorted(a) && Sorted(b) && SameKeyed(a, b)
    ensures a == b
    decreases |a|
  {
    if a == [] {
      AllEmpty(b);
    } else if b == [] {
      AllEmpty(a);
    } else {
      assert a == a[..|a| - 1] + [a[|a| - 1]] && b == b[..|b| - 1] + [b[|b| - 1]];
      SameLast(a[..|a| - 1], a[|a| - 1], b[..|b| - 1], b[|b| - 1]);
      SortedUnique(a[..|a| - 1], b[..|b| - 1]);
    }
  }

  /** Equal per-index subsequences sort to the same sequence. */
  lemma {:induction false} SortDetermined<T(!new)>(a: seq<(nat, T)>, b: seq<(nat, T)>)
    requires SameKeyed(a, b)
    ensures SortByIndex(a) == SortByIndex(b)
  {
    hide Keyed, SortByIndex, Sorted;
    forall k ensures Keyed(SortByIndex(a), k) == Keyed(SortByIndex(b), k) {
      SortKeeps(a, k);
      SortKeeps(b, k);
      assert Keyed(a, k) == Keyed(b, k);
    }
    SortKeeps(a, 0);
    SortKeeps(b, 0);
    SortedUnique(SortByIndex(a), SortByIndex(b));
  }

  lemma {:induction false} SortedSorts<T(!new)>(s: seq<(nat, T)>)
    requires Sorted(s)
    ensures SortByIndex(s) == s
  {
    forall k ensures Keyed(SortByIndex(s), k) == Keyed(s, k) { SortKeeps(s, k); }
    SortKeeps(s, 0);
    SortedUnique(SortByIndex(s), s);
  }

  /** The members of `keys` below `n`, ascending. */
  function Below(keys: set<nat>, n: nat): seq<nat> {
    if n == 0 then [] else Below(keys, n - 1) + (if n - 1 in keys then [n - 1] else [])
  }

  lemma {:induction false} BelowIs(keys: set<nat>, n: nat)
    ensures forall k :: k in Below(keys, n) <==> k in keys && k < n
    ensures forall i, j :: 0 <= i < j < |Below(keys, n)| ==> Below(keys, n)[i] < Below(keys, n)[j]
    decreases n
  {
    if n > 0 {
      BelowIs(keys, n - 1);
      var init := Below(keys, n - 1);
      forall i | 0 <= i < |init| ensures init[i] < n - 1 {
        assert init[i] in init;
      }
    }
  }

  /** Counting further than the largest key finds nothing more. */
  lemma {:induction false} BelowStable(keys: set<nat>, m: nat, n: nat)
    requires m <= n && forall k :: k in keys ==> k < m
    ensures Below(keys, n) == Below(keys, m)
    decreases n
  {
    if m < n { BelowStable(keys, m, n - 1); }
  }

  /** An index above every key. */
  ghost function Bound(keys: set<nat>): (n: nat)
    ensures forall k :: k in keys ==> k < n
  {
    if keys == {} then 0
    else
      var k :| k in keys;
      var rest := Bound(keys - {k});
      assert forall j :: j in keys ==> j == k || j in keys - {k};
      if k < rest then rest else k + 1
  }

  /** Ascending enumeration of a finite set of indices. */
  ghost function Ascending(keys: set<nat>): seq<nat> {
    Below(keys, Bound(keys))
  }

  lemma {:induction false} AscendingBelow(keys: set<nat>, n: nat)
    requires forall k :: k in keys ==> k < n
    ensures Below(keys, n) == Ascending(keys)
  {
    if n <= Bound(keys) { BelowStable(keys, n, Bound(keys)); } else { BelowStable(keys, Bound(keys), n); }
  }

  lemma {:induction false} AscendingIs(keys: set<nat>)
    ensures forall k :: k in Ascending(keys) <==> k in keys
    ensures forall i, j :: 0 <= i < j < |Ascending(keys)| ==> Ascending(keys)[i] < Ascending(keys)[j]
  {
    BelowIs(keys, Bound(keys));
  }
}
