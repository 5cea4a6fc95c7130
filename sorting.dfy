/**
 * Stable ordering by an integer key: JavaScript's `Array.prototype.sort` with a numeric
 * comparator `(a, b) => key(a) - key(b)` (stable since ES2019), written as insertion sort;
 * ordering by two columns, as a query set's `order_by(k1, k2)`, is a stable sort by `k2`
 * followed by a stable sort by `k1`.
 */
module Sorting {
  import opened Seqs

  ghost predicate SortedBy<T>(s: seq<T>, key: T -> int) {
    forall i, j :: 0 <= i < j < |s| ==> key(s[i]) <= key(s[j])
  }

  /** Puts `x` in front of the first element whose key is not smaller, so equal keys keep their order. */
  function Insert<T>(x: T, s: seq<T>, key: T -> int): seq<T> {
    if s == [] then [x]
    else if key(x) <= key(s[0]) then [x] + s
    else [s[0]] + Insert(x, s[1..], key)
  }

  function SortBy<T>(s: seq<T>, key: T -> int): seq<T> {
    if s == [] then [] else Insert(s[0], SortBy(s[1..], key), key)
  }

  lemma {:induction false} InsertPermutes<T>(x: T, s: seq<T>, key: T -> int)
    ensures multiset(Insert(x, s, key)) == multiset{x} + multiset(s)
  {
    if s != [] && key(x) > key(s[0]) {
      InsertPermutes(x, s[1..], key);
      assert s == [s[0]] + s[1..];
    }
  }

  lemma {:induction false} InsertSorted<T>(x: T, s: seq<T>, key: T -> int)
    requires SortedBy(s, key)
    ensures SortedBy(Insert(x, s, key), key)
  {
    if s != [] && key(x) > key(s[0]) {
      var t := s[1..];
      SortedTail(s, key);
      InsertSorted(x, t, key);
      InsertPermutes(x, t, key);
      var r := Insert(x, t, key);
      forall k | 0 <= k < |r| ensures key(s[0]) <= key(r[k]) {
        assert r[k] in multiset(r);
        if r[k] != x {
          assert r[k] in multiset(t);
          var m :| 0 <= m < |t| && t[m] == r[k];
          assert s[m + 1] == r[k];
        }
      }
    }
  }

  /** The elements after the first of a sorted sequence are sorted. */
  lemma SortedTail<T>(s: seq<T>, key: T -> int)
    requires SortedBy(s, key) && s != []
    ensures SortedBy(s[1..], key)
  {
    var t := s[1..];
    forall i, j | 0 <= i < j < |t| ensures key(t[i]) <= key(t[j]) {
      assert t[i] == s[i + 1] && t[j] == s[j + 1];
    }
  }

  /** The sorted sequence is ordered by the key ... */
  lemma {:induction false} SortBySorted<T>(s: seq<T>, key: T -> int)
    ensures SortedBy(SortBy(s, key), key)
  {
    if s != [] {
      SortBySorted(s[1..], key);
      InsertSorted(s[0], SortBy(s[1..], key), key);
    }
  }

  /** ... and holds exactly the input's elements. */
  lemma {:induction false} SortByPermutes<T>(s: seq<T>, key: T -> int)
    ensures multiset(SortBy(s, key)) == multiset(s)
  {
    if s != [] {
      SortByPermutes(s[1..], key);
      InsertPermutes(s[0], SortBy(s[1..], key), key);
      assert s == [s[0]] + s[1..];
    }
  }

  lemma SortByLength<T>(s: seq<T>, key: T -> int)
    ensures |SortBy(s, key)| == |s|
  {
    SortByPermutes(s, key);
    assert |multiset(SortBy(s, key))| == |multiset(s)|;
  }

  /** The elements whose key is `c`. */
  function KeyIs<T>(key: T -> int, c: int): T -> bool {
    x => key(x) == c
  }

  lemma KeyIsApply<T>(key: T -> int, c: int, x: T)
    ensures KeyIs(key, c)(x) == (key(x) == c)
  {
  }

  lemma {:induction false} InsertFilterKey<T>(x: T, s: seq<T>, key: T -> int, c: int)
    requires SortedBy(s, key)
    ensures Filter(Insert(x, s, key), KeyIs(key, c)) == (if key(x) == c then [x] else []) + Filter(s, KeyIs(key, c))
  {
    var p := KeyIs(key, c);
    KeyIsApply(key, c, x);
    if s == [] {
      FilterCons(x, [], p);
      assert [x] + [] == [x];
    } else if key(x) <= key(s[0]) {
      FilterCons(x, s, p);
    } else {
      SortedTail(s, key);
      InsertFilterKey(x, s[1..], key, c);
      InsertFilterLater(x, s, key, c);
    }
  }

  /** The step of `InsertFilterKey` when `x` goes after the head. */
  lemma InsertFilterLater<T>(x: T, s: seq<T>, key: T -> int, c: int)
    requires s != [] && key(x) > key(s[0])
    requires Filter(Insert(x, s[1..], key), KeyIs(key, c)) == (if key(x) == c then [x] else []) + Filter(s[1..], KeyIs(key, c))
    ensures Filter(Insert(x, s, key), KeyIs(key, c)) == (if key(x) == c then [x] else []) + Filter(s, KeyIs(key, c))
  {
    var p := KeyIs(key, c);
    var t := s[1..];
    var hs := if key(s[0]) == c then [s[0]] else [];
    var hx := if key(x) == c then [x] else [];
    KeyIsApply(key, c, s[0]);
    calc {
      Filter(Insert(x, s, key), p);
      Filter([s[0]] + Insert(x, t, key), p);
      { FilterCons(s[0], Insert(x, t, key), p); }
      hs + Filter(Insert(x, t, key), p);
      hs + (hx + Filter(t, p));
      { SwapOneEmpty(hs, hx, Filter(t, p)); }
      hx + (hs + Filter(t, p));
      { FilterCons(s[0], t, p); assert s == [s[0]] + t; }
      hx + Filter(s, p);
    }
  }

  lemma SwapOneEmpty<T>(a: seq<T>, b: seq<T>, rest: seq<T>)
    requires a == [] || b == []
    ensures a + (b + rest) == b + (a + rest)
  {
    if a == [] {
      assert a + (b + rest) == b + rest == b + (a + rest);
    } else {
      assert a + (b + rest) == a + rest == b + (a + rest);
    }
  }

  /** Stability: the elements with one key come out of the sort in their input order. */
  lemma {:induction false} SortByStable<T>(s: seq<T>, key: T -> int, c: int)
    ensures Filter(SortBy(s, key), KeyIs(key, c)) == Filter(s, KeyIs(key, c))
  {
    if s != [] {
      SortByStable(s[1..], key, c);
      SortBySorted(s[1..], key);
      InsertFilterKey(s[0], SortBy(s[1..], key), key, c);
    }
  }

  /** A subsequence of a sorted sequence is sorted. */
  lemma {:induction false} FilterSorted<T>(s: seq<T>, key: T -> int, p: T -> bool)
    requires SortedBy(s, key)
    ensures SortedBy(Filter(s, p), key)
  {
    if s != [] {
      var t := s[1..];
      SortedTail(s, key);
      FilterSorted(t, key, p);
      var f := Filter(t, p);
      forall k | 0 <= k < |f| ensures key(s[0]) <= key(f[k]) {
        var m :| 0 <= m < |t| && t[m] == f[k];
        assert s[m + 1] == f[k];
      }
      FilterCons(s[0], t, p);
      assert s == [s[0]] + t;
      if p(s[0]) {
        ConsSorted(s[0], f, key);
      }
    }
  }

  /** An element in front of a sorted sequence whose keys are all at least its own keeps it sorted. */
  lemma ConsSorted<T>(h: T, f: seq<T>, key: T -> int)
    requires SortedBy(f, key) && forall k :: 0 <= k < |f| ==> key(h) <= key(f[k])
    ensures SortedBy([h] + f, key)
  {
    var r := [h] + f;
    forall i, j | 0 <= i < j < |r| ensures key(r[i]) <= key(r[j]) {
      assert r[j] == f[j - 1];
      if i > 0 {
        assert r[i] == f[i - 1];
      }
    }
  }

  /** Insertion only reorders, so a symmetric constraint between every two elements survives it. */
  lemma {:induction false} InsertPairwise<T>(x: T, s: seq<T>, key: T -> int, rel: (T, T) -> bool)
    requires Pairwise(s, rel)
    requires forall i :: 0 <= i < |s| ==> rel(x, s[i]) && rel(s[i], x)
    ensures Pairwise(Insert(x, s, key), rel)
  {
    if s != [] && key(x) > key(s[0]) {
      var t := s[1..];
      assert Pairwise(t, rel) by {
        forall i, j | 0 <= i < j < |t| ensures rel(t[i], t[j]) {
          assert t[i] == s[i + 1] && t[j] == s[j + 1];
        }
      }
      InsertPairwise(x, t, key, rel);
      InsertPermutes(x, t, key);
      var r := Insert(x, t, key);
      forall k | 0 <= k < |r| ensures rel(s[0], r[k]) {
        assert r[k] in multiset(r);
        if r[k] != x {
          assert r[k] in multiset(t);
          var m :| 0 <= m < |t| && t[m] == r[k];
          assert s[m + 1] == r[k];
        }
      }
      var u := [s[0]] + r;
      forall i, j | 0 <= i < j < |u| ensures rel(u[i], u[j]) {
        assert u[j] == r[j - 1];
        if i > 0 {
          assert u[i] == r[i - 1];
        }
      }
    } else if s != [] {
      var u := [x] + s;
      forall i, j | 0 <= i < j < |u| ensures rel(u[i], u[j]) {
        assert u[j] == s[j - 1];
        if i > 0 {
          assert u[i] == s[i - 1];
        }
      }
    }
  }

  /** Sorting only reorders, so a symmetric constraint between every two elements survives it. */
  lemma {:induction false} SortByPairwise<T>(s: seq<T>, key: T -> int, rel: (T, T) -> bool)
    requires Pairwise(s, rel)
    requires forall x, y :: rel(x, y) == rel(y, x)
    ensures Pairwise(SortBy(s, key), rel)
  {
    if s != [] {
      var t := s[1..];
      assert Pairwise(t, rel) by {
        forall i, j | 0 <= i < j < |t| ensures rel(t[i], t[j]) {
          assert t[i] == s[i + 1] && t[j] == s[j + 1];
        }
      }
      SortByPairwise(t, key, rel);
      SortByPermutes(t, key);
      var r := SortBy(t, key);
      forall k | 0 <= k < |r| ensures rel(s[0], r[k]) && rel(r[k], s[0]) {
        assert r[k] in multiset(t);
        var m :| 0 <= m < |t| && t[m] == r[k];
        assert s[m + 1] == r[k];
      }
      InsertPairwise(s[0], r, key, rel);
    }
  }
}
