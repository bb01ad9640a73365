/**
 * Python's `list.sort(key=..., reverse=True)` and `sorted(...)`, which the
 * scripts call as library routines: a stable sort, so that elements with equal
 * keys keep their input order.  Modelled by a stable insertion sort.
 */
module Sorting {

  ghost predicate SortedDesc<T>(s: seq<T>, key: T -> real) {
    forall i, j :: 0 <= i < j < |s| ==> key(s[i]) >= key(s[j])
  }

  ghost predicate SortedAsc(s: seq<int>) {
    forall i, j :: 0 <= i < j < |s| ==> s[i] <= s[j]
  }

  /** Inserts x in front of the first element whose key is not larger than x's. */
  function InsertDesc<T>(x: T, s: seq<T>, key: T -> real): (r: seq<T>)
    ensures |r| == |s| + 1
  {
    if s == [] then [x]
    else if key(s[0]) > key(x) then [s[0]] + InsertDesc(x, s[1..], key)
    else [x] + s
  }

  lemma {:induction false} InsertDescMultiset<T>(x: T, s: seq<T>, key: T -> real)
    ensures multiset(InsertDesc(x, s, key)) == multiset(s) + multiset{x}
  {
    if s != [] && key(s[0]) > key(x) {
      InsertDescMultiset(x, s[1..], key);
      assert s == [s[0]] + s[1..];
    }
  }

  /** A head whose key bounds every key of a sorted tail keeps the list sorted. */
  lemma ConsSortedDesc<T>(h: T, t: seq<T>, key: T -> real)
    requires SortedDesc(t, key)
    requires forall k :: 0 <= k < |t| ==> key(h) >= key(t[k])
    ensures SortedDesc([h] + t, key)
  {
    var r := [h] + t;
    forall i, j | 0 <= i < j < |r| ensures key(r[i]) >= key(r[j]) {
      assert r[j] == t[j - 1];
      if i > 0 { assert r[i] == t[i - 1]; }
    }
  }

  /** Every element of a multiset-bounded list has a key bounded by the bound's. */
  lemma KeysBounded<T>(v: T, t: seq<T>, s: seq<T>, x: T, key: T -> real)
    requires multiset(t) == multiset(s) + multiset{x}
    requires key(v) > key(x)
    requires forall k :: 0 <= k < |s| ==> key(v) >= key(s[k])
    ensures forall k :: 0 <= k < |t| ==> key(v) >= key(t[k])
  {
    forall k | 0 <= k < |t| ensures key(v) >= key(t[k]) {
      assert t[k] in multiset(t);
      if t[k] != x {
        assert t[k] in multiset(s);
        var m :| 0 <= m < |s| && s[m] == t[k];
      }
    }
  }

  lemma {:induction false} InsertDescSorted<T>(x: T, s: seq<T>, key: T -> real)
    requires SortedDesc(s, key)
    ensures SortedDesc(InsertDesc(x, s, key), key)
  {
    if s == [] {
    } else if key(s[0]) > key(x) {
      var tl := s[1..];
      assert SortedDesc(tl, key) by {
        forall i, j | 0 <= i < j < |tl| ensures key(tl[i]) >= key(tl[j]) {
          assert tl[i] == s[i + 1] && tl[j] == s[j + 1];
        }
      }
      InsertDescSorted(x, tl, key);
      InsertDescMultiset(x, tl, key);
      assert forall k :: 0 <= k < |tl| ==> key(s[0]) >= key(tl[k]) by {
        forall k | 0 <= k < |tl| ensures key(s[0]) >= key(tl[k]) {
          assert tl[k] == s[k + 1];
        }
      }
      KeysBounded(s[0], InsertDesc(x, tl, key), tl, x, key);
      ConsSortedDesc(s[0], InsertDesc(x, tl, key), key);
    } else {
      assert forall k :: 0 <= k < |s| ==> key(x) >= key(s[k]) by {
        forall k | 0 <= k < |s| ensures key(x) >= key(s[k]) {
          if k > 0 { assert key(s[0]) >= key(s[k]); }
        }
      }
      ConsSortedDesc(x, s, key);
    }
  }

  /**
   * Sort by descending key.  The head of the input is inserted before every
   * element of equal key, so equal keys keep their input order.
   */
  function SortDesc<T>(s: seq<T>, key: T -> real): (r: seq<T>)
    ensures multiset(r) == multiset(s)
    ensures SortedDesc(r, key)
    ensures |r| == |s|
  {
    if s == [] then []
    else
      var tail := SortDesc(s[1..], key);
      InsertDescMultiset(s[0], tail, key);
      InsertDescSorted(s[0], tail, key);
      assert s == [s[0]] + s[1..];
      InsertDesc(s[0], tail, key)
  }

  /** The elements of s whose key is k, in the order of s. */
  function WithKey<T>(s: seq<T>, key: T -> real, k: real): (r: seq<T>)
    ensures |r| <= |s|
  {
    if s == [] then []
    else (if key(s[0]) == k then [s[0]] else []) + WithKey(s[1..], key, k)
  }

  /** Insertion passes over larger keys only, so x lands in front of every element of its own key. */
  lemma {:induction false} InsertDescWithKey<T>(x: T, s: seq<T>, key: T -> real, k: real)
    ensures WithKey(InsertDesc(x, s, key), key, k) == (if key(x) == k then [x] else []) + WithKey(s, key, k)
  {
    if s != [] && key(s[0]) > key(x) {
      InsertDescWithKey(x, s[1..], key, k);
      var r := InsertDesc(x, s, key);
      assert r[0] == s[0] && r[1..] == InsertDesc(x, s[1..], key);
    } else {
      var r := InsertDesc(x, s, key);
      assert r[0] == x && r[1..] == s;
    }
  }

  /** The sort is stable: for every key, the elements of that key keep their input order. */
  lemma {:induction false} SortDescStable<T>(s: seq<T>, key: T -> real, k: real)
    ensures WithKey(SortDesc(s, key), key, k) == WithKey(s, key, k)
  {
    if s != [] {
      SortDescStable(s[1..], key, k);
      InsertDescWithKey(s[0], SortDesc(s[1..], key), key, k);
    }
  }

  /** Python's `sorted` on a list of integers (ascending). */
  function SortAsc(s: seq<int>): (r: seq<int>)
    ensures multiset(r) == multiset(s)
    ensures SortedAsc(r)
    ensures |r| == |s|
  {
    var d := SortDesc(s, (x: int) => -(x as real));
    assert forall i, j :: 0 <= i < j < |d| ==> -(d[i] as real) >= -(d[j] as real);
    d
  }

  /** The largest prefix of length at most n: Python's `xs[:n]`. */
  function Take<T>(s: seq<T>, n: nat): (r: seq<T>)
    ensures |r| == if |s| < n then |s| else n
    ensures r == s[..|r|]
  {
    if |s| <= n then s else s[..n]
  }

  /** The first n of a descending sort are elements of the input; all of it when it has at most n elements. */
  lemma TopNSelection<T>(xs: seq<T>, key: T -> real, n: nat)
    ensures var top := Take(SortDesc(xs, key), n);
      |top| == (if |xs| < n then |xs| else n) &&
      (forall x :: x in top ==> x in xs) &&
      (|xs| <= n ==> forall x :: x in xs ==> x in top)
  {
    var s := SortDesc(xs, key);
    var top := Take(s, n);
    forall x | x in top ensures x in xs {
      assert x in s;
      assert x in multiset(s);
    }
    if |xs| <= n {
      assert top == s;
      forall x | x in xs ensures x in top {
        assert x in multiset(xs);
      }
    }
  }

  /** Every element kept by a top-n selection has a key at least that of every element it drops. */
  lemma TopNDominates<T>(xs: seq<T>, key: T -> real, n: nat, x: T, y: T)
    requires x in Take(SortDesc(xs, key), n)
    requires y in xs && y !in Take(SortDesc(xs, key), n)
    ensures key(x) >= key(y)
  {
    var s := SortDesc(xs, key);
    var top := Take(s, n);
    assert y in multiset(xs);
    assert y in s;
    var j :| 0 <= j < |s| && s[j] == y;
    var i :| 0 <= i < |top| && top[i] == x;
    assert forall k :: 0 <= k < |top| ==> top[k] == s[k];
    assert j >= |top|;
    assert i < j;
  }

  lemma MinOfAscending(a: seq<int>, x: int)
    requires SortedAsc(a) && |a| > 0
    requires x in multiset(a)
    ensures a[0] <= x
  {
    var i :| 0 <= i < |a| && a[i] == x;
    if i > 0 { assert a[0] <= a[i]; }
  }

  lemma TailSortedAsc(a: seq<int>)
    requires SortedAsc(a) && |a| > 0
    ensures SortedAsc(a[1..])
  {
    forall i, j | 0 <= i < j < |a| - 1 ensures a[1..][i] <= a[1..][j] {
      assert a[1..][i] == a[i + 1] && a[1..][j] == a[j + 1];
    }
  }

  lemma TailMultiset(a: seq<int>)
    requires |a| > 0
    ensures multiset(a[1..]) == multiset(a) - multiset{a[0]}
  {
    assert a == [a[0]] + a[1..];
  }

  lemma HeadsAndTails(a: seq<int>, b: seq<int>)
    requires SortedAsc(a) && SortedAsc(b) && |a| > 0
    requires multiset(a) == multiset(b)
    ensures |b| > 0 && a[0] == b[0]
    ensures multiset(a[1..]) == multiset(b[1..])
  {
    assert |a| == |multiset(a)| == |multiset(b)| == |b|;
    assert a == [a[0]] + a[1..];
    assert b == [b[0]] + b[1..];
    assert a[0] in multiset(a);
    assert b[0] in multiset(b);
    MinOfAscending(b, a[0]);
    MinOfAscending(a, b[0]);
    TailMultiset(a);
    TailMultiset(b);
  }

  /** Two ascending lists holding the same elements are the same list. */
  lemma {:induction false} AscendingPermutationUnique(a: seq<int>, b: seq<int>)
    requires SortedAsc(a) && SortedAsc(b)
    requires multiset(a) == multiset(b)
    ensures a == b
  {
    if |a| == 0 {
      assert |b| == |multiset(b)| == |multiset(a)| == 0;
    } else {
      HeadsAndTails(a, b);
      TailSortedAsc(a);
      TailSortedAsc(b);
      AscendingPermutationUnique(a[1..], b[1..]);
      assert a == [a[0]] + a[1..];
      assert b == [b[0]] + b[1..];
    }
  }
}
