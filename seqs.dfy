/** The platform's stable `sort` with a numeric comparator, as a function on
    sequences. Sorting "largest key first" is `SortDesc`; a comparator
    `(a, b) => key(a) - key(b)` is `SortDesc` with the key negated. */
module Seqs {

  /** Keys never increase from left to right. */
  ghost predicate NonIncreasing<T>(s: seq<T>, key: T -> int) {
    forall i, j :: 0 <= i < j < |s| ==> key(s[i]) >= key(s[j])
  }

  /** Keys never decrease from left to right. */
  ghost predicate NonDecreasing<T>(s: seq<T>, key: T -> int) {
    forall i, j :: 0 <= i < j < |s| ==> key(s[i]) <= key(s[j])
  }

  /** The elements whose key is `v`, in their order. */
  function WithKey<T>(s: seq<T>, key: T -> int, v: int): (r: seq<T>)
    ensures forall x :: x in r ==> x in s && key(x) == v
  {
    if s == [] then []
    else if key(s[0]) == v then [s[0]] + WithKey(s[1..], key, v)
    else WithKey(s[1..], key, v)
  }

  /** Puts `x` into `ys` in front of the first element whose key is not larger. */
  function Insert<T>(x: T, ys: seq<T>, key: T -> int): (r: seq<T>)
    requires NonIncreasing(ys, key)
    ensures NonIncreasing(r, key)
    ensures multiset(r) == multiset([x] + ys)
    ensures |r| == |ys| + 1
  {
    if ys == [] || key(ys[0]) <= key(x) then
      [x] + ys
    else
      var rest := Insert(x, ys[1..], key);
      HeadBounds(x, ys, rest, key);
      [ys[0]] + rest
  }

  /** The head of a sorted `ys` whose key is above `key(x)` bounds every
      element of any permutation of `x` and the tail. */
  lemma HeadBounds<T>(x: T, ys: seq<T>, rest: seq<T>, key: T -> int)
    requires NonIncreasing(ys, key) && NonIncreasing(rest, key)
    requires ys != [] && key(ys[0]) > key(x)
    requires multiset(rest) == multiset([x] + ys[1..])
    ensures NonIncreasing([ys[0]] + rest, key)
    ensures multiset([ys[0]] + rest) == multiset([x] + ys)
  {
    assert ys == [ys[0]] + ys[1..];
    forall z | z in rest ensures key(z) <= key(ys[0]) {
      assert z in multiset([x] + ys[1..]);
      if z != x {
        assert z in ys[1..];
        var k :| 0 <= k < |ys[1..]| && ys[1..][k] == z;
        assert ys[k + 1] == z;
      }
    }
    var s := [ys[0]] + rest;
    forall i, j | 0 <= i < j < |s| ensures key(s[i]) >= key(s[j]) {
      if i == 0 {
        assert s[j] == rest[j - 1];
        assert s[j] in rest;
      } else {
        assert s[i] == rest[i - 1] && s[j] == rest[j - 1];
      }
    }
  }

  /** Stable sort, largest key first. */
  function SortDesc<T>(xs: seq<T>, key: T -> int): (r: seq<T>)
    ensures NonIncreasing(r, key)
    ensures multiset(r) == multiset(xs)
    ensures |r| == |xs|
  {
    if xs == [] then []
    else
      assert xs == [xs[0]] + xs[1..];
      Insert(xs[0], SortDesc(xs[1..], key), key)
  }

  /** Ordering by the negated key, largest first, is ordering by the key ascending. */
  lemma {:induction false} NegatedKeyAscending<T>(r: seq<T>, key: T -> int, neg: T -> int)
    requires forall x :: neg(x) == -key(x)
    requires NonIncreasing(r, neg)
    ensures NonDecreasing(r, key)
  {
  }

  lemma {:induction false} InsertStable<T>(x: T, ys: seq<T>, key: T -> int, v: int)
    requires NonIncreasing(ys, key)
    ensures WithKey(Insert(x, ys, key), key, v) == WithKey([x] + ys, key, v)
  {
    if ys == [] || key(ys[0]) <= key(x) {
    } else {
      InsertStable(x, ys[1..], key, v);
      assert ([x] + ys)[1..] == ys;
      assert ([x] + ys[1..])[1..] == ys[1..];
      assert ([ys[0]] + Insert(x, ys[1..], key))[1..] == Insert(x, ys[1..], key);
    }
  }

  /** Stability: among elements with equal keys the input order is kept. */
  lemma {:induction false} SortDescStable<T>(xs: seq<T>, key: T -> int, v: int)
    ensures WithKey(SortDesc(xs, key), key, v) == WithKey(xs, key, v)
  {
    if xs != [] {
      SortDescStable(xs[1..], key, v);
      InsertStable(xs[0], SortDesc(xs[1..], key), key, v);
      assert ([xs[0]] + SortDesc(xs[1..], key))[1..] == SortDesc(xs[1..], key);
    }
  }

  /** No two elements share a `g` value. */
  ghost predicate DistinctBy<T, K>(s: seq<T>, g: T -> K) {
    forall i, j :: 0 <= i < j < |s| ==> g(s[i]) != g(s[j])
  }

  lemma DistinctTail<T, K>(s: seq<T>, g: T -> K)
    requires DistinctBy(s, g) && s != []
    ensures DistinctBy(s[1..], g)
    ensures forall z :: z in s[1..] ==> g(z) != g(s[0])
  {
    var tail := s[1..];
    forall i, j | 0 <= i < j < |tail| ensures g(tail[i]) != g(tail[j]) {
      assert tail[i] == s[i + 1] && tail[j] == s[j + 1];
    }
    forall z | z in tail ensures g(z) != g(s[0]) {
      var k :| 0 <= k < |tail| && tail[k] == z;
      assert s[k + 1] == z;
    }
  }

  lemma DistinctCons<T, K>(h: T, rest: seq<T>, g: T -> K)
    requires DistinctBy(rest, g)
    requires forall z :: z in rest ==> g(z) != g(h)
    ensures DistinctBy([h] + rest, g)
  {
    var r := [h] + rest;
    forall i, j | 0 <= i < j < |r| ensures g(r[i]) != g(r[j]) {
      assert r[j] == rest[j - 1] && r[j] in rest;
      if i > 0 {
        assert r[i] == rest[i - 1];
      }
    }
  }

  lemma {:induction false} InsertDistinct<T, K>(x: T, ys: seq<T>, key: T -> int, g: T -> K)
    requires NonIncreasing(ys, key) && DistinctBy(ys, g)
    requires forall y :: y in ys ==> g(y) != g(x)
    ensures DistinctBy(Insert(x, ys, key), g)
  {
    if ys == [] || key(ys[0]) <= key(x) {
      DistinctCons(x, ys, g);
    } else {
      var tail := ys[1..];
      DistinctTail(ys, g);
      forall y | y in tail ensures g(y) != g(x) {
        assert y in ys;
      }
      InsertDistinct(x, tail, key, g);
      var rest := Insert(x, tail, key);
      forall z | z in rest ensures g(z) != g(ys[0]) {
        assert z in multiset([x] + tail);
        if z != x {
          assert z in tail;
        }
      }
      DistinctCons(ys[0], rest, g);
    }
  }

  /** Sorting keeps a projection distinct. */
  lemma {:induction false} SortDescDistinct<T, K>(xs: seq<T>, key: T -> int, g: T -> K)
    requires DistinctBy(xs, g)
    ensures DistinctBy(SortDesc(xs, key), g)
  {
    if xs != [] {
      var tail := xs[1..];
      DistinctTail(xs, g);
      SortDescDistinct(tail, key, g);
      var sorted := SortDesc(tail, key);
      forall y | y in sorted ensures g(y) != g(xs[0]) {
        assert y in multiset(tail);
      }
      InsertDistinct(xs[0], sorted, key, g);
    }
  }

  /** The sum of `f` over the elements. */
  function SumOf<T>(s: seq<T>, f: T -> int): int {
    if s == [] then 0 else f(s[0]) + SumOf(s[1..], f)
  }

  lemma {:induction false} InsertSum<T>(x: T, ys: seq<T>, key: T -> int, f: T -> int)
    requires NonIncreasing(ys, key)
    ensures SumOf(Insert(x, ys, key), f) == f(x) + SumOf(ys, f)
  {
    if ys == [] || key(ys[0]) <= key(x) {
      assert ([x] + ys)[1..] == ys;
    } else {
      InsertSum(x, ys[1..], key, f);
      assert ([ys[0]] + Insert(x, ys[1..], key))[1..] == Insert(x, ys[1..], key);
    }
  }

  /** Sorting does not change a sum over the elements. */
  lemma {:induction false} SortDescSum<T>(xs: seq<T>, key: T -> int, f: T -> int)
    ensures SumOf(SortDesc(xs, key), f) == SumOf(xs, f)
  {
    if xs != [] {
      SortDescSum(xs[1..], key, f);
      InsertSum(xs[0], SortDesc(xs[1..], key), key, f);
    }
  }

  /** The first `n` elements, or all when there are fewer. */
  function Take<T>(s: seq<T>, n: nat): (r: seq<T>)
    ensures |r| == if |s| <= n then |s| else n
    ensures |s| <= n ==> r == s
    ensures forall i :: 0 <= i < |r| ==> r[i] == s[i]
  {
    if |s| <= n then s else s[..n]
  }

  /** A prefix of an ordered list is ordered and takes its elements from the list. */
  lemma TakePrefix<T>(s: seq<T>, n: nat, key: T -> int)
    requires NonIncreasing(s, key)
    ensures NonIncreasing(Take(s, n), key)
    ensures forall x :: x in Take(s, n) ==> x in s
  {
    var r := Take(s, n);
    forall x | x in r ensures x in s {
      var i :| 0 <= i < |r| && r[i] == x;
      assert s[i] == x;
    }
  }

  /** `filter(p)`: the elements satisfying `p`, in order. */
  function Filter<T>(s: seq<T>, p: T -> bool): (r: seq<T>)
    ensures |r| <= |s|
  {
    if s == [] then [] else (if p(s[0]) then [s[0]] else []) + Filter(s[1..], p)
  }

  /** Filtering works piece by piece. */
  lemma {:induction false} FilterAppend<T>(a: seq<T>, b: seq<T>, p: T -> bool)
    ensures Filter(a + b, p) == Filter(a, p) + Filter(b, p)
  {
    if a == [] {
      assert a + b == b;
    } else {
      var h := if p(a[0]) then [a[0]] else [];
      var x, y := Filter(a[1..], p), Filter(b, p);
      calc {
        Filter(a + b, p);
      == { assert (a + b)[0] == a[0]; assert (a + b)[1..] == a[1..] + b; }
        h + Filter(a[1..] + b, p);
      == { FilterAppend(a[1..], b, p); }
        h + (x + y);
      ==
        (h + x) + y;
      }
    }
  }

  /** A list whose every element passes is kept whole. */
  lemma {:induction false} FilterAll<T>(s: seq<T>, p: T -> bool)
    requires forall i :: 0 <= i < |s| ==> p(s[i])
    ensures Filter(s, p) == s
  {
    if s != [] {
      assert forall i :: 0 <= i < |s[1..]| ==> s[1..][i] == s[i + 1];
      FilterAll(s[1..], p);
      assert s == [s[0]] + s[1..];
    }
  }
}
