/** Sequence operations the source gets from Python: list-comprehension filtering
    and the stable `sorted(..., key=...)`. */
module Collections {
  import opened Wrappers

  /** `[x for x in s if p(x)]`. */
  function Filter<T>(s: seq<T>, p: T -> bool): (r: seq<T>)
    ensures |r| <= |s|
    ensures forall k :: 0 <= k < |r| ==> p(r[k])
    ensures forall k :: 0 <= k < |r| ==> r[k] in s
    ensures forall k :: 0 <= k < |s| && p(s[k]) ==> s[k] in r
  {
    if s == [] then []
    else (if p(s[0]) then [s[0]] else []) + Filter(s[1..], p)
  }

  /** Each kept element is kept as often as it occurs, and the others not at all. */
  lemma {:induction false} FilterCount<T>(s: seq<T>, p: T -> bool, x: T)
    ensures multiset(Filter(s, p))[x] == if p(x) then multiset(s)[x] else 0
  {
    if s != [] {
      FilterCount(s[1..], p, x);
      assert s == [s[0]] + s[1..];
      assert multiset(s) == multiset{s[0]} + multiset(s[1..]);
      assert multiset(Filter(s, p)) == multiset(if p(s[0]) then [s[0]] else []) + multiset(Filter(s[1..], p));
    }
  }

  lemma FilterCountAll<T>(s: seq<T>, p: T -> bool)
    ensures forall x :: multiset(Filter(s, p))[x] == if p(x) then multiset(s)[x] else 0
  {
    forall x ensures multiset(Filter(s, p))[x] == if p(x) then multiset(s)[x] else 0 {
      FilterCount(s, p, x);
    }
  }

  lemma FilterCons<T>(a: T, u: seq<T>, p: T -> bool)
    ensures Filter([a] + u, p) == (if p(a) then [a] else []) + Filter(u, p)
  {
    assert ([a] + u)[1..] == u;
  }

  lemma {:induction false} FilterAll<T>(s: seq<T>, p: T -> bool)
    requires forall k :: 0 <= k < |s| ==> p(s[k])
    ensures Filter(s, p) == s
  {
    if s != [] {
      FilterAll(s[1..], p);
    }
  }

  lemma {:induction false} FilterAppend<T>(s: seq<T>, t: seq<T>, p: T -> bool)
    ensures Filter(s + t, p) == Filter(s, p) + Filter(t, p)
  {
    if s == [] {
      assert s + t == t;
    } else {
      assert (s + t)[1..] == s[1..] + t;
      FilterAppend(s[1..], t, p);
    }
  }

  // ---------------------------------------------------------------------------
  // Stable sort by an integer key

  ghost predicate SortedBy<T>(s: seq<T>, key: T -> int) {
    forall i, j :: 0 <= i < j < |s| ==> key(s[i]) <= key(s[j])
  }

  /** The elements of `s` whose key is `v`, in their order in `s`. */
  function WithKey<T>(s: seq<T>, key: T -> int, v: int): seq<T> {
    if s == [] then []
    else (if key(s[0]) == v then [s[0]] else []) + WithKey(s[1..], key, v)
  }

  /** Places `x` before the first element whose key is at least `key(x)`. */
  function Insert<T>(x: T, t: seq<T>, key: T -> int): seq<T> {
    if t == [] then [x]
    else if key(x) <= key(t[0]) then [x] + t
    else [t[0]] + Insert(x, t[1..], key)
  }

  /** Insertion adds `x` and keeps everything else. */
  lemma {:induction false} InsertSpec<T>(x: T, t: seq<T>, key: T -> int)
    ensures multiset(Insert(x, t, key)) == multiset(t) + multiset{x}
    ensures |Insert(x, t, key)| == |t| + 1
    ensures forall k :: 0 <= k < |Insert(x, t, key)| ==> Insert(x, t, key)[k] == x || Insert(x, t, key)[k] in t
  {
    if t != [] && key(x) > key(t[0]) {
      InsertSpec(x, t[1..], key);
      assert t == [t[0]] + t[1..];
      var r := Insert(x, t, key);
      forall k | 0 <= k < |r| ensures r[k] == x || r[k] in t {
        if k > 0 {
          assert r[k] == Insert(x, t[1..], key)[k - 1];
        }
      }
    }
  }

  /** Inserting above a lower bound stays above it. */
  lemma {:induction false} InsertBound<T>(x: T, t: seq<T>, key: T -> int, lo: int)
    requires lo <= key(x)
    requires forall k :: 0 <= k < |t| ==> lo <= key(t[k])
    ensures forall k :: 0 <= k < |Insert(x, t, key)| ==> lo <= key(Insert(x, t, key)[k])
  {
    if t != [] && key(x) > key(t[0]) {
      InsertBound(x, t[1..], key, lo);
      var rest := Insert(x, t[1..], key);
      assert forall k :: 0 < k < |rest| + 1 ==> ([t[0]] + rest)[k] == rest[k - 1];
    }
  }

  lemma {:induction false} InsertSorted<T>(x: T, t: seq<T>, key: T -> int)
    requires SortedBy(t, key)
    ensures SortedBy(Insert(x, t, key), key)
  {
    if t != [] && key(x) > key(t[0]) {
      var rest := Insert(x, t[1..], key);
      InsertSorted(x, t[1..], key);
      InsertBound(x, t[1..], key, key(t[0]));
      var r := [t[0]] + rest;
      forall i, j | 0 <= i < j < |r| ensures key(r[i]) <= key(r[j]) {
        assert r[j] == rest[j - 1];
        if i > 0 {
          assert r[i] == rest[i - 1];
        }
      }
    }
  }

  /** Python's `sorted(s, key=key)`: insertion sort, stable on ties. */
  function SortBy<T>(s: seq<T>, key: T -> int): seq<T> {
    if s == [] then [] else Insert(s[0], SortBy(s[1..], key), key)
  }

  /** The result is in key order and a permutation of the input (stability is
      lemma SortByStable). */
  lemma {:induction false} SortBySpec<T>(s: seq<T>, key: T -> int)
    ensures SortedBy(SortBy(s, key), key)
    ensures multiset(SortBy(s, key)) == multiset(s)
    ensures |SortBy(s, key)| == |s|
  {
    if s != [] {
      assert s == [s[0]] + s[1..];
      SortBySpec(s[1..], key);
      InsertSorted(s[0], SortBy(s[1..], key), key);
      InsertSpec(s[0], SortBy(s[1..], key), key);
    }
  }

  lemma WithKeyCons<T>(a: T, u: seq<T>, key: T -> int, v: int)
    ensures WithKey([a] + u, key, v) == (if key(a) == v then [a] else []) + WithKey(u, key, v)
  {
    assert ([a] + u)[1..] == u;
  }

  lemma {:induction false} InsertOtherKey<T>(x: T, t: seq<T>, key: T -> int, v: int)
    requires key(x) != v
    ensures WithKey(Insert(x, t, key), key, v) == WithKey(t, key, v)
  {
    if t == [] {
      WithKeyCons(x, [], key, v);
    } else if key(x) <= key(t[0]) {
      WithKeyCons(x, t, key, v);
    } else {
      InsertOtherKey(x, t[1..], key, v);
      WithKeyCons(t[0], Insert(x, t[1..], key), key, v);
      WithKeyCons(t[0], t[1..], key, v);
      assert t == [t[0]] + t[1..];
    }
  }

  lemma {:induction false} InsertSameKey<T>(x: T, t: seq<T>, key: T -> int)
    requires SortedBy(t, key)
    ensures WithKey(Insert(x, t, key), key, key(x)) == [x] + WithKey(t, key, key(x))
  {
    if t == [] {
      WithKeyCons(x, [], key, key(x));
    } else if key(x) <= key(t[0]) {
      WithKeyCons(x, t, key, key(x));
    } else {
      assert SortedBy(t[1..], key) by {
        forall i, j | 0 <= i < j < |t[1..]| ensures key(t[1..][i]) <= key(t[1..][j]) {
          assert t[1..][i] == t[i + 1] && t[1..][j] == t[j + 1];
        }
      }
      InsertSameKey(x, t[1..], key);
      assert Insert(x, t, key) == [t[0]] + Insert(x, t[1..], key);
      WithKeyCons(t[0], Insert(x, t[1..], key), key, key(x));
      WithKeyCons(t[0], t[1..], key, key(x));
      assert t == [t[0]] + t[1..];
    }
  }

  /** Stability: among elements with equal keys, the sorted order is the input order. */
  lemma {:induction false} SortByStable<T>(s: seq<T>, key: T -> int, v: int)
    ensures WithKey(SortBy(s, key), key, v) == WithKey(s, key, v)
  {
    if s != [] {
      SortByStable(s[1..], key, v);
      SortBySpec(s[1..], key);
      if key(s[0]) == v {
        InsertSameKey(s[0], SortBy(s[1..], key), key);
      } else {
        InsertOtherKey(s[0], SortBy(s[1..], key), key, v);
      }
      WithKeyCons(s[0], s[1..], key, v);
      assert s == [s[0]] + s[1..];
    }
  }

  /** A sequence already in key order is left as it is (sorting is idempotent). */
  lemma {:induction false} SortBySorted<T>(s: seq<T>, key: T -> int)
    requires SortedBy(s, key)
    ensures SortBy(s, key) == s
  {
    if s != [] {
      SortBySorted(s[1..], key);
      assert SortBy(s[1..], key) == s[1..];
      if |s| > 1 {
        assert key(s[0]) <= key(s[1..][0]);
      }
      assert s == [s[0]] + s[1..];
    }
  }
}
