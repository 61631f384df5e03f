/** `Array.prototype.filter` and `map` on sequences, order-preserving
    subsequences, and uniqueness of a key, with the facts the search
    pipelines need: what a filter keeps, that it keeps order, and that
    filtering, re-pricing and sorting never duplicate a key. */
module Sequences {
  import opened Sorting

  /** `s.filter(p)`. */
  function Filter<T>(s: seq<T>, p: T -> bool): (r: seq<T>)
    ensures |r| <= |s|
    ensures forall i :: 0 <= i < |r| ==> p(r[i])
  {
    if s == [] then []
    else (if p(s[0]) then [s[0]] else []) + Filter(s[1..], p)
  }

  /** `s.map(f)`. */
  function Map<T, U>(s: seq<T>, f: T -> U): (r: seq<U>)
    ensures |r| == |s|
    ensures forall i :: 0 <= i < |s| ==> r[i] == f(s[i])
  {
    seq(|s|, i requires 0 <= i < |s| => f(s[i]))
  }

  /** `r` is `s` with some elements dropped and the rest in their order. */
  predicate IsSubsequence<T(==)>(r: seq<T>, s: seq<T>)
    decreases |s|
  {
    r == [] ||
    (s != [] && ((r[0] == s[0] && IsSubsequence(r[1..], s[1..])) || IsSubsequence(r, s[1..])))
  }

  /** A filter keeps exactly the elements that pass. */
  lemma {:induction false} FilterMembers<T>(s: seq<T>, p: T -> bool)
    ensures forall x :: x in Filter(s, p) ==> x in s && p(x)
    ensures forall x :: x in s && p(x) ==> x in Filter(s, p)
  {
    if s != [] {
      FilterMembers(s[1..], p);
      assert s == [s[0]] + s[1..];
    }
  }

  /** A filter never keeps an element more often than it occurs. */
  lemma {:induction false} FilterMultiset<T>(s: seq<T>, p: T -> bool)
    ensures multiset(Filter(s, p)) <= multiset(s)
  {
    if s != [] {
      FilterMultiset(s[1..], p);
      assert s == [s[0]] + s[1..];
    }
  }

  /** A filter keeps the order of what it keeps. */
  lemma {:induction false} FilterSubsequence<T>(s: seq<T>, p: T -> bool)
    ensures IsSubsequence(Filter(s, p), s)
  {
    if s != [] {
      FilterSubsequence(s[1..], p);
      SubsequenceSkip(Filter(s[1..], p), s);
      if p(s[0]) {
        assert Filter(s, p) == [s[0]] + Filter(s[1..], p);
      } else {
        assert Filter(s, p) == Filter(s[1..], p);
      }
    }
  }

  lemma SubsequenceSkip<T>(r: seq<T>, s: seq<T>)
    requires s != [] && IsSubsequence(r, s[1..])
    ensures IsSubsequence(r, s) && IsSubsequence([s[0]] + r, s)
  {
    assert ([s[0]] + r)[1..] == r;
  }

  lemma {:induction false} SubsequenceRefl<T>(s: seq<T>)
    ensures IsSubsequence(s, s)
  {
    if s != [] {
      SubsequenceRefl(s[1..]);
    }
  }

  /** Dropping elements twice is dropping elements once. */
  lemma {:induction false} SubsequenceTrans<T>(a: seq<T>, b: seq<T>, c: seq<T>)
    requires IsSubsequence(a, b) && IsSubsequence(b, c)
    ensures IsSubsequence(a, c)
    decreases |c|
  {
    if a == [] {
    } else if c != [] {
      if b[0] == c[0] && IsSubsequence(b[1..], c[1..]) {
        if a[0] == b[0] && IsSubsequence(a[1..], b[1..]) {
          SubsequenceTrans(a[1..], b[1..], c[1..]);
        } else {
          SubsequenceTrans(a, b[1..], c[1..]);
        }
      } else {
        SubsequenceTrans(a, b, c[1..]);
      }
    }
  }

  /** No two elements of `s` share a key. */
  predicate DistinctBy<T>(s: seq<T>, id: T -> string)
  {
    forall i, j :: 0 <= i < j < |s| ==> id(s[i]) != id(s[j])
  }

  lemma DistinctCons<T>(h: T, t: seq<T>, id: T -> string)
    requires DistinctBy(t, id)
    requires forall y :: y in t ==> id(y) != id(h)
    ensures DistinctBy([h] + t, id)
  {
    var r := [h] + t;
    forall i, j | 0 <= i < j < |r| ensures id(r[i]) != id(r[j]) {
      assert r[j] == t[j - 1];
      if i > 0 {
        assert r[i] == t[i - 1];
      }
    }
  }

  lemma {:induction false} FilterDistinct<T>(s: seq<T>, p: T -> bool, id: T -> string)
    requires DistinctBy(s, id)
    ensures DistinctBy(Filter(s, p), id)
  {
    if s != [] {
      assert DistinctBy(s[1..], id);
      FilterDistinct(s[1..], p, id);
      FilterMembers(s[1..], p);
      forall y | y in Filter(s[1..], p) ensures id(y) != id(s[0]) {
        assert y in s[1..];
        var j :| 0 <= j < |s[1..]| && s[1..][j] == y;
        assert s[j + 1] == y;
      }
      if p(s[0]) {
        DistinctCons(s[0], Filter(s[1..], p), id);
      }
    }
  }

  /** A map that keeps the key keeps the keys distinct. */
  lemma MapDistinct<T>(s: seq<T>, f: T -> T, id: T -> string)
    requires DistinctBy(s, id)
    requires forall x :: id(f(x)) == id(x)
    ensures DistinctBy(Map(s, f), id)
  {
  }

  lemma {:induction false} InsertDistinct<T>(x: T, s: seq<T>, key: T -> int, id: T -> string)
    requires DistinctBy(s, id)
    requires forall y :: y in s ==> id(y) != id(x)
    ensures DistinctBy(Insert(x, s, key), id)
    ensures forall y :: y in Insert(x, s, key) ==> y == x || y in s
  {
    if s == [] {
    } else if key(x) <= key(s[0]) {
      DistinctCons(x, s, id);
    } else {
      assert DistinctBy(s[1..], id);
      InsertDistinct(x, s[1..], key, id);
      forall y | y in Insert(x, s[1..], key) ensures id(y) != id(s[0]) {
        if y != x {
          assert y in s[1..];
          var j :| 0 <= j < |s[1..]| && s[1..][j] == y;
          assert s[j + 1] == y;
        }
      }
      DistinctCons(s[0], Insert(x, s[1..], key), id);
      assert s == [s[0]] + s[1..];
    }
  }

  /** Sorting neither adds, drops nor duplicates a key. */
  lemma {:induction false} SortDistinct<T>(s: seq<T>, key: T -> int, id: T -> string)
    requires DistinctBy(s, id)
    ensures DistinctBy(SortBy(s, key), id)
    ensures forall y :: y in SortBy(s, key) ==> y in s
  {
    if s != [] {
      assert DistinctBy(s[1..], id);
      SortDistinct(s[1..], key, id);
      forall y | y in SortBy(s[1..], key) ensures id(y) != id(s[0]) {
        assert y in s[1..];
        var j :| 0 <= j < |s[1..]| && s[1..][j] == y;
        assert s[j + 1] == y;
      }
      InsertDistinct(s[0], SortBy(s[1..], key), key, id);
      assert s == [s[0]] + s[1..];
    }
  }
}
