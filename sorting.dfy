/** `Array.prototype.sort` with a numeric comparator `(a, b) => key(a) - key(b)`:
    a stable sort by an integer key, ascending. (Sorting by `b.x - a.x` is
    sorting by the key `-x`.) */
module Sorting {

  predicate SortedBy<T>(s: seq<T>, key: T -> int)
  {
    forall i, j :: 0 <= i < j < |s| ==> key(s[i]) <= key(s[j])
  }

  /** The elements of `s` whose key is `k`, in their order in `s`. */
  function WithKey<T>(s: seq<T>, key: T -> int, k: int): (r: seq<T>)
    ensures |r| <= |s|
  {
    if s == [] then []
    else (if key(s[0]) == k then [s[0]] else []) + WithKey(s[1..], key, k)
  }

  /** Insert `x` before the first element whose key is not smaller. */
  function Insert<T>(x: T, s: seq<T>, key: T -> int): (r: seq<T>)
  {
    if s == [] then [x]
    else if key(x) <= key(s[0]) then [x] + s
    else [s[0]] + Insert(x, s[1..], key)
  }

  function SortBy<T>(s: seq<T>, key: T -> int): (r: seq<T>)
  {
    if s == [] then [] else Insert(s[0], SortBy(s[1..], key), key)
  }

  lemma SortedCons<T>(h: T, t: seq<T>, key: T -> int)
    requires SortedBy(t, key)
    requires forall i :: 0 <= i < |t| ==> key(h) <= key(t[i])
    ensures SortedBy([h] + t, key)
  {
    var r := [h] + t;
    forall i, j | 0 <= i < j < |r| ensures key(r[i]) <= key(r[j]) {
      if i > 0 {
        assert r[i] == t[i - 1] && r[j] == t[j - 1];
      }
    }
  }

  lemma {:induction false} InsertLowerBound<T>(x: T, s: seq<T>, key: T -> int, lo: int)
    requires lo <= key(x)
    requires forall i :: 0 <= i < |s| ==> lo <= key(s[i])
    ensures forall i :: 0 <= i < |Insert(x, s, key)| ==> lo <= key(Insert(x, s, key)[i])
  {
    if s != [] && key(x) > key(s[0]) {
      InsertLowerBound(x, s[1..], key, lo);
    }
  }

  lemma {:induction false} InsertSorted<T>(x: T, s: seq<T>, key: T -> int)
    requires SortedBy(s, key)
    ensures SortedBy(Insert(x, s, key), key)
  {
    if s == [] {
    } else if key(x) <= key(s[0]) {
      SortedCons(x, s, key);
    } else {
      InsertSorted(x, s[1..], key);
      InsertLowerBound(x, s[1..], key, key(s[0]));
      SortedCons(s[0], Insert(x, s[1..], key), key);
    }
  }

  lemma {:induction false} InsertMultiset<T>(x: T, s: seq<T>, key: T -> int)
    ensures multiset(Insert(x, s, key)) == multiset(s) + multiset{x}
  {
    if s != [] && key(x) > key(s[0]) {
      InsertMultiset(x, s[1..], key);
      assert s == [s[0]] + s[1..];
    }
  }

  lemma {:induction false} WithKeyAppend<T>(a: seq<T>, b: seq<T>, key: T -> int, k: int)
    ensures WithKey(a + b, key, k) == WithKey(a, key, k) + WithKey(b, key, k)
  {
    if a != [] {
      WithKeyAppend(a[1..], b, key, k);
      assert (a + b)[0] == a[0];
      assert (a + b)[1..] == a[1..] + b;
    } else {
      assert a + b == b;
    }
  }

  lemma {:induction false} InsertWithKey<T>(x: T, s: seq<T>, key: T -> int, k: int)
    ensures WithKey(Insert(x, s, key), key, k) == WithKey([x] + s, key, k)
  {
    if s != [] && key(x) > key(s[0]) {
      InsertWithKey(x, s[1..], key, k);
      WithKeyAppend([s[0]], Insert(x, s[1..], key), key, k);
      WithKeyAppend([x], s, key, k);
      WithKeyAppend([x], s[1..], key, k);
      WithKeyAppend([s[0]], s[1..], key, k);
      assert s == [s[0]] + s[1..];
    }
  }

  /** The sort orders by key, keeps every element (a permutation) and keeps
      the input order among elements with equal keys (stability). */
  lemma {:induction false} SortByProps<T>(s: seq<T>, key: T -> int)
    ensures SortedBy(SortBy(s, key), key)
    ensures multiset(SortBy(s, key)) == multiset(s)
    ensures forall k :: WithKey(SortBy(s, key), key, k) == WithKey(s, key, k)
  {
    if s != [] {
      var t := SortBy(s[1..], key);
      SortByProps(s[1..], key);
      InsertSorted(s[0], t, key);
      InsertMultiset(s[0], t, key);
      assert s == [s[0]] + s[1..];
      forall k ensures WithKey(SortBy(s, key), key, k) == WithKey(s, key, k) {
        InsertWithKey(s[0], t, key, k);
        WithKeyAppend([s[0]], t, key, k);
        WithKeyAppend([s[0]], s[1..], key, k);
      }
    }
  }

  lemma SortByLength<T>(s: seq<T>, key: T -> int)
    ensures |SortBy(s, key)| == |s|
  {
    SortByProps(s, key);
    assert |multiset(SortBy(s, key))| == |multiset(s)|;
  }

  /** An already ordered sequence is left as it is. */
  lemma {:induction false} SortBySorted<T>(s: seq<T>, key: T -> int)
    requires SortedBy(s, key)
    ensures SortBy(s, key) == s
  {
    if s != [] {
      assert SortedBy(s[1..], key);
      SortBySorted(s[1..], key);
    }
  }

  /** Sorting a sorted result again changes nothing. */
  lemma SortByIdempotent<T>(s: seq<T>, key: T -> int)
    ensures SortBy(SortBy(s, key), key) == SortBy(s, key)
  {
    SortByProps(s, key);
    SortBySorted(SortBy(s, key), key);
  }

  /** `s.slice(0, n)`. */
  function Take<T>(s: seq<T>, n: nat): (r: seq<T>)
    ensures |r| == if n <= |s| then n else |s|
    ensures forall i :: 0 <= i < |r| ==> r[i] == s[i]
  {
    if n <= |s| then s[..n] else s
  }

  /** `Insert` places `x` after the leading elements of smaller key. */
  lemma {:induction false} InsertAt<T>(x: T, s: seq<T>, key: T -> int, m: nat)
    requires m <= |s|
    requires forall k :: 0 <= k < m ==> key(s[k]) < key(x)
    requires m < |s| ==> key(x) <= key(s[m])
    ensures Insert(x, s, key) == s[..m] + [x] + s[m..]
  {
    if m > 0 {
      InsertAt(x, s[1..], key, m - 1);
      assert s[1..][..m - 1] == s[1..m];
      assert s[1..][m - 1..] == s[m..];
      assert s[..m] == [s[0]] + s[1..m];
    }
  }

  /** One step of the insertion sort: `a[i]` moves right past the elements
      of smaller key in the sorted run after it. */
  method InsertIntoSuffix<T>(a: array<T>, i: nat, key: T -> int)
    requires i < a.Length
    modifies a
    ensures a[..i] == old(a[..i])
    ensures a[i..] == Insert(old(a[i]), old(a[i + 1..]), key)
  {
    var x := a[i];
    ghost var t := a[i + 1..];
    var j := i + 1;
    while j < a.Length && key(a[j]) < key(x)
      invariant i + 1 <= j <= a.Length
      invariant forall k :: 0 <= k < i ==> a[k] == old(a[k])
      invariant forall k :: i <= k < j - 1 ==> a[k] == t[k - i]
      invariant forall k :: j <= k < a.Length ==> a[k] == t[k - 1 - i]
      invariant forall k :: 0 <= k < j - 1 - i ==> key(t[k]) < key(x)
      decreases a.Length - j
    {
      a[j - 1] := a[j];
      j := j + 1;
    }
    a[j - 1] := x;
    InsertAt(x, t, key, j - 1 - i);
    assert a[..i] == old(a[..i]);
    assert a[i..] == t[..j - 1 - i] + [x] + t[j - 1 - i..];
  }

  /** `array.sort(compare)` in place: stable insertion sort by `key`,
      inserting each element, from the back, into the sorted suffix after
      it. */
  method SortArrayBy<T>(a: array<T>, key: T -> int)
    modifies a
    ensures a[..] == SortBy(old(a[..]), key)
  {
    ghost var orig := a[..];
    var i := a.Length;
    while i > 0
      invariant 0 <= i <= a.Length
      invariant a[..i] == orig[..i]
      invariant a[i..] == SortBy(orig[i..], key)
      decreases i
    {
      i := i - 1;
      assert orig[i..] == [orig[i]] + orig[i + 1..];
      assert a[i] == orig[i];
      InsertIntoSuffix(a, i, key);
    }
    assert a[..] == a[0..];
    assert orig == orig[0..];
  }

  /** The first `n` of a sort by `key`: in key order, drawn from `s`, and
      no element left out has a smaller key than one kept. */
  lemma TakeSorted<T>(s: seq<T>, key: T -> int, n: nat)
    ensures var r := Take(SortBy(s, key), n);
            |r| == (if |s| < n then |s| else n) &&
            (forall i, j :: 0 <= i < j < |r| ==> key(r[i]) <= key(r[j])) &&
            (forall x :: x in r ==> x in s) &&
            (forall x, y :: x in r && y in s && y !in r ==> key(x) <= key(y))
  {
    var sorted := SortBy(s, key);
    SortByProps(s, key);
    SortByLength(s, key);
    var r := Take(sorted, n);
    forall x | x in r ensures x in s {
      assert x in multiset(sorted);
    }
    forall x, y | x in r && y in s && y !in r ensures key(x) <= key(y) {
      assert y in multiset(sorted);
      var i :| 0 <= i < |r| && r[i] == x;
      var j :| 0 <= j < |sorted| && sorted[j] == y;
      assert forall t :: 0 <= t < |r| ==> sorted[t] in r;
      assert j >= |r|;
    }
  }
}
