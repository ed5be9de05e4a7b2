/**
 * Python's `list.sort(key=..., reverse=True)` on integer keys: the list ends
 * up in non-increasing key order, as a permutation of itself, and items with
 * equal keys keep their original relative order (the sort is stable, also
 * when reversed). Written as an insertion sort, which has exactly these
 * properties, together with the `[:n]` slice that follows it.
 */
module StableSort {

  /** Non-increasing by `key`. */
  predicate SortedDesc<T>(s: seq<T>, key: T -> int)
  {
    forall i, j :: 0 <= i < j < |s| ==> key(s[i]) >= key(s[j])
  }

  /** The items of `s` whose key is `k`, in their order in `s`. */
  function WithKey<T>(s: seq<T>, key: T -> int, k: int): seq<T>
  {
    if s == [] then [] else (if key(s[0]) == k then [s[0]] else []) + WithKey(s[1..], key, k)
  }

  /** Put `x` in front of the first item whose key is not larger. */
  function Insert<T>(x: T, s: seq<T>, key: T -> int): (r: seq<T>)
    ensures |r| == |s| + 1
    ensures multiset(r) == multiset{x} + multiset(s)
  {
    if s == [] || key(x) >= key(s[0]) then [x] + s
    else
      assert s == [s[0]] + s[1..];
      [s[0]] + Insert(x, s[1..], key)
  }

  lemma {:induction false} InsertKeepsSorted<T>(x: T, s: seq<T>, key: T -> int)
    requires SortedDesc(s, key)
    ensures SortedDesc(Insert(x, s, key), key)
    ensures Insert(x, s, key)[0] == x || (s != [] && Insert(x, s, key)[0] == s[0])
    decreases |s|
  {
    if s != [] && key(x) < key(s[0]) {
      var t := s[1..];
      assert SortedDesc(t, key);
      InsertKeepsSorted(x, t, key);
      var r := Insert(x, s, key);
      assert r == [s[0]] + Insert(x, t, key);
      forall i, j | 0 <= i < j < |r|
        ensures key(r[i]) >= key(r[j])
      {
        if i == 0 {
          assert r[j] in multiset{x} + multiset(t) by {
            assert r[j] == Insert(x, t, key)[j - 1];
          }
          if r[j] != x {
            assert r[j] in t;
          }
        }
      }
    }
  }

  /** The stable descending sort. */
  function SortDesc<T>(s: seq<T>, key: T -> int): (r: seq<T>)
    ensures |r| == |s|
    ensures multiset(r) == multiset(s)
    ensures SortedDesc(r, key)
    decreases |s|
  {
    if s == [] then []
    else
      var t := SortDesc(s[1..], key);
      InsertKeepsSorted(s[0], t, key);
      assert s == [s[0]] + s[1..];
      Insert(s[0], t, key)
  }

  /** `WithKey` on a list with a known first item. */
  lemma WithKeyCons<T>(y: T, u: seq<T>, key: T -> int, k: int)
    ensures WithKey([y] + u, key, k) == (if key(y) == k then [y] else []) + WithKey(u, key, k)
  {
    assert ([y] + u)[0] == y && ([y] + u)[1..] == u;
  }

  /** Inserting `x` into a sorted list adds it in front of the items that
      share its key. */
  lemma {:induction false} InsertWithKey<T>(x: T, s: seq<T>, key: T -> int, k: int)
    requires SortedDesc(s, key)
    ensures WithKey(Insert(x, s, key), key, k) == (if key(x) == k then [x] else []) + WithKey(s, key, k)
    decreases |s|
  {
    if s == [] || key(x) >= key(s[0]) {
      WithKeyCons(x, s, key, k);
    } else {
      var t := s[1..];
      assert SortedDesc(t, key) by {
        forall i, j | 0 <= i < j < |t|
          ensures key(t[i]) >= key(t[j])
        {
          assert t[i] == s[i + 1] && t[j] == s[j + 1];
        }
      }
      InsertWithKey(x, t, key, k);
      var head := if key(s[0]) == k then [s[0]] else [];
      var mine := if key(x) == k then [x] else [];
      assert head == [] || mine == [];
      WithKeyCons(s[0], Insert(x, t, key), key, k);
      WithKeyCons(s[0], t, key, k);
      assert s == [s[0]] + t;
      calc {
        WithKey(Insert(x, s, key), key, k);
        head + WithKey(Insert(x, t, key), key, k);
        head + (mine + WithKey(t, key, k));
        { if head == [] { assert head + mine == mine + head; } else { assert mine == []; } }
        mine + (head + WithKey(t, key, k));
        mine + WithKey(s, key, k);
      }
    }
  }

  /** Stability: for every key, the items with that key appear in the sorted
      list in the same order as in the input. */
  lemma {:induction false} SortIsStable<T>(s: seq<T>, key: T -> int, k: int)
    ensures WithKey(SortDesc(s, key), key, k) == WithKey(s, key, k)
    decreases |s|
  {
    if s != [] {
      SortIsStable(s[1..], key, k);
      InsertWithKey(s[0], SortDesc(s[1..], key), key, k);
    }
  }

  lemma {:induction false} SortIsStableForAllKeys<T>(s: seq<T>, key: T -> int)
    ensures forall k :: WithKey(SortDesc(s, key), key, k) == WithKey(s, key, k)
  {
    forall k
      ensures WithKey(SortDesc(s, key), key, k) == WithKey(s, key, k)
    {
      SortIsStable(s, key, k);
    }
  }

  /** `s[:n]`. */
  function Prefix<T>(s: seq<T>, n: nat): (r: seq<T>)
    ensures |r| == if |s| <= n then |s| else n
    ensures forall i :: 0 <= i < |r| ==> r[i] == s[i]
  {
    if |s| <= n then s else s[..n]
  }

  /** A prefix of a sorted list is sorted. */
  lemma PrefixSorted<T>(s: seq<T>, key: T -> int, n: nat)
    requires SortedDesc(s, key)
    ensures SortedDesc(Prefix(s, n), key)
  {
    var top := Prefix(s, n);
    forall i, j | 0 <= i < j < |top|
      ensures key(top[i]) >= key(top[j])
    {
      assert top[i] == s[i] && top[j] == s[j];
    }
  }

  /** A prefix takes nothing the list does not have. */
  lemma PrefixSubMultiset<T>(s: seq<T>, n: nat)
    ensures multiset(Prefix(s, n)) <= multiset(s)
  {
    if |s| > n {
      assert s == s[..n] + s[n..];
      assert multiset(s) == multiset(s[..n]) + multiset(s[n..]);
    }
  }

  /** The first `n` items after sorting are the `n` with the largest keys:
      none left out beats one kept, and they are still in order. */
  lemma {:induction false} TopKeepsLargest<T>(s: seq<T>, key: T -> int, n: nat)
    ensures var sorted := SortDesc(s, key); var top := Prefix(sorted, n);
      && SortedDesc(top, key)
      && multiset(top) <= multiset(s)
      && forall i, j :: 0 <= i < |top| && |top| <= j < |sorted| ==> key(top[i]) >= key(sorted[j])
  {
    var sorted := SortDesc(s, key);
    var top := Prefix(sorted, n);
    PrefixSorted(sorted, key, n);
    PrefixSubMultiset(sorted, n);
    forall i, j | 0 <= i < |top| && |top| <= j < |sorted|
      ensures key(top[i]) >= key(sorted[j])
    {
      assert top[i] == sorted[i];
    }
  }
}
