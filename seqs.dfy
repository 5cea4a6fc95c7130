/** Sequence helpers: the query-set `filter` and the `Sum` aggregate over rows kept in table order. */
module Seqs {

  /** The elements of `s` that satisfy `p`, in their original order. */
  function Filter<T>(s: seq<T>, p: T -> bool): (r: seq<T>)
    ensures |r| <= |s|
    ensures forall i :: 0 <= i < |r| ==> r[i] in s && p(r[i])
    ensures forall i :: 0 <= i < |s| && p(s[i]) ==> s[i] in r
  {
    if s == [] then []
    else if p(s[0]) then [s[0]] + Filter(s[1..], p)
    else Filter(s[1..], p)
  }

  /** One step of a left-to-right walk: the next prefix is the current one and the next element. */
  lemma PrefixSnoc<T>(s: seq<T>, i: nat)
    requires i < |s|
    ensures s[..i + 1] == s[..i] + [s[i]]
  {
  }

  /** Filtering an element in front of a sequence keeps it in front when it passes. */
  lemma FilterCons<T>(h: T, r: seq<T>, p: T -> bool)
    ensures Filter([h] + r, p) == (if p(h) then [h] else []) + Filter(r, p)
  {
    assert ([h] + r)[1..] == r;
  }

  /** Filtering by `p` and by its negation splits the sequence: nothing is lost and nothing is counted twice. */
  lemma {:induction false} FilterPartition<T>(s: seq<T>, p: T -> bool)
    ensures |Filter(s, p)| + |Filter(s, x => !p(x))| == |s|
  {
    if s != [] {
      FilterPartition(s[1..], p);
    }
  }

  lemma {:induction false} FilterAppend<T>(a: seq<T>, b: seq<T>, p: T -> bool)
    ensures Filter(a + b, p) == Filter(a, p) + Filter(b, p)
  {
    if a == [] {
      assert a + b == b;
    } else {
      assert (a + b)[1..] == a[1..] + b;
      FilterAppend(a[1..], b, p);
    }
  }

  lemma {:induction false} FilterAll<T>(s: seq<T>, p: T -> bool)
    requires forall i :: 0 <= i < |s| ==> p(s[i])
    ensures Filter(s, p) == s
  {
    if s != [] {
      FilterAll(s[1..], p);
    }
  }

  lemma {:induction false} FilterNone<T>(s: seq<T>, p: T -> bool)
    requires forall i :: 0 <= i < |s| ==> !p(s[i])
    ensures Filter(s, p) == []
  {
    if s != [] {
      FilterNone(s[1..], p);
    }
  }

  /** Every pair of distinct positions of `s` (earlier, later) is related by `rel`. */
  ghost predicate Pairwise<T>(s: seq<T>, rel: (T, T) -> bool) {
    forall i, j :: 0 <= i < j < |s| ==> rel(s[i], s[j])
  }

  /** A prefix keeps every pairwise constraint of the whole. */
  lemma PairwisePrefix<T>(s: seq<T>, rel: (T, T) -> bool, n: nat)
    requires Pairwise(s, rel) && n <= |s|
    ensures Pairwise(s[..n], rel)
  {
    forall i, j | 0 <= i < j < n ensures rel(s[..n][i], s[..n][j]) {
      assert s[..n][i] == s[i] && s[..n][j] == s[j];
    }
  }

  /** A filter keeps the relative order of what it keeps, so pairwise constraints survive it. */
  lemma {:induction false} FilterPairwise<T>(s: seq<T>, p: T -> bool, rel: (T, T) -> bool)
    requires Pairwise(s, rel)
    ensures Pairwise(Filter(s, p), rel)
  {
    if s != [] {
      assert Pairwise(s[1..], rel) by {
        forall i, j | 0 <= i < j < |s[1..]| ensures rel(s[1..][i], s[1..][j]) {
          assert s[1..][i] == s[i + 1] && s[1..][j] == s[j + 1];
        }
      }
      FilterPairwise(s[1..], p, rel);
      if p(s[0]) {
        var t := Filter(s[1..], p);
        var r := [s[0]] + t;
        forall i, j | 0 <= i < j < |r| ensures rel(r[i], r[j]) {
          if i == 0 {
            assert r[j] == t[j - 1] && t[j - 1] in s[1..];
            var k :| 0 <= k < |s[1..]| && s[1..][k] == t[j - 1];
            assert s[k + 1] == r[j];
          } else {
            assert r[i] == t[i - 1] && r[j] == t[j - 1];
          }
        }
      }
    }
  }

  /** The sum of `f` over the elements of `s`: Django's `aggregate(Sum(...))` with `or 0`. */
  function SumReal<T>(s: seq<T>, f: T -> real): real {
    if s == [] then 0.0 else f(s[0]) + SumReal(s[1..], f)
  }

  function SumInt<T>(s: seq<T>, f: T -> int): int {
    if s == [] then 0 else f(s[0]) + SumInt(s[1..], f)
  }

  lemma {:induction false} SumRealAppend<T>(a: seq<T>, b: seq<T>, f: T -> real)
    ensures SumReal(a + b, f) == SumReal(a, f) + SumReal(b, f)
  {
    if a == [] {
      assert a + b == b;
    } else {
      assert (a + b)[1..] == a[1..] + b;
      SumRealAppend(a[1..], b, f);
    }
  }

  lemma {:induction false} SumIntAppend<T>(a: seq<T>, b: seq<T>, f: T -> int)
    ensures SumInt(a + b, f) == SumInt(a, f) + SumInt(b, f)
  {
    if a == [] {
      assert a + b == b;
    } else {
      assert (a + b)[1..] == a[1..] + b;
      SumIntAppend(a[1..], b, f);
    }
  }

  /** A sum does not depend on the order of its terms. */
  lemma {:induction false} SumRealPermutation<T>(a: seq<T>, b: seq<T>, f: T -> real)
    requires multiset(a) == multiset(b)
    ensures SumReal(a, f) == SumReal(b, f)
    decreases |a|
  {
    if a == [] {
      assert |b| == |multiset(b)| == 0;
    } else {
      assert a[0] in multiset(b);
      var k :| 0 <= k < |b| && b[k] == a[0];
      var rest := b[..k] + b[k + 1..];
      RemoveOneMultiset(a, b, k);
      SumRealPermutation(a[1..], rest, f);
      RemoveOneSum(b, k, f);
    }
  }

  /** Taking the same element out of two equal multisets leaves equal multisets. */
  lemma RemoveOneMultiset<T>(a: seq<T>, b: seq<T>, k: nat)
    requires multiset(a) == multiset(b) && a != [] && k < |b| && b[k] == a[0]
    ensures multiset(a[1..]) == multiset(b[..k] + b[k + 1..])
  {
    assert a == [a[0]] + a[1..];
    assert b == b[..k] + [b[k]] + b[k + 1..];
    calc {
      multiset(a[1..]);
      multiset(a) - multiset{a[0]};
      multiset(b) - multiset{a[0]};
      multiset(b[..k]) + multiset(b[k + 1..]);
      multiset(b[..k] + b[k + 1..]);
    }
  }

  /** The sum is the term at `k` plus the sum of the others. */
  lemma RemoveOneSum<T>(b: seq<T>, k: nat, f: T -> real)
    requires k < |b|
    ensures SumReal(b, f) == f(b[k]) + SumReal(b[..k] + b[k + 1..], f)
  {
    assert b == b[..k] + [b[k]] + b[k + 1..];
    SumRealAppend(b[..k] + [b[k]], b[k + 1..], f);
    SumRealAppend(b[..k], [b[k]], f);
    SumRealAppend(b[..k], b[k + 1..], f);
    assert SumReal([b[k]], f) == f(b[k]);
  }

  /** Splitting a sequence by a predicate and its complement splits its sum. */
  lemma {:induction false} SumRealSplit<T>(s: seq<T>, p: T -> bool, q: T -> bool, f: T -> real)
    requires forall i :: 0 <= i < |s| ==> (q(s[i]) <==> !p(s[i]))
    ensures SumReal(s, f) == SumReal(Filter(s, p), f) + SumReal(Filter(s, q), f)
  {
    if s != [] {
      SumRealSplit(s[1..], p, q, f);
      assert ([s[0]] + Filter(s[1..], p))[1..] == Filter(s[1..], p);
      assert ([s[0]] + Filter(s[1..], q))[1..] == Filter(s[1..], q);
    }
  }
}
