/**
 * Sequence helpers shared by the engine: Python's `sum(f(x) for x in s)`,
 * list comprehensions with a condition, slicing `[:n]`, `reversed`, and the
 * stable descending sort of `list.sort(key=..., reverse=True)` /
 * `sorted(..., key=..., reverse=True)`.
 */
module Seqs {

  /** `sum(f(x) for x in s)`, accumulated left to right. */
  function Sum<T>(s: seq<T>, f: T -> real): real {
    if s == [] then 0.0 else Sum(s[..|s| - 1], f) + f(s[|s| - 1])
  }

  lemma {:induction false} SumAppend<T>(a: seq<T>, b: seq<T>, f: T -> real)
    ensures Sum(a + b, f) == Sum(a, f) + Sum(b, f)
    decreases |b|
  {
    if b == [] {
      assert a + b == a;
    } else {
      assert (a + b)[..|a + b| - 1] == a + b[..|b| - 1];
      SumAppend(a, b[..|b| - 1], f);
    }
  }

  lemma {:induction false} SumCons<T>(x: T, s: seq<T>, f: T -> real)
    ensures Sum([x] + s, f) == f(x) + Sum(s, f)
  {
    SumAppend([x], s, f);
    assert [x][..0] == [];
  }

  /** Two sums agree when their terms agree position by position. */
  lemma {:induction false} SumPointwise<T, U>(a: seq<T>, f: T -> real, b: seq<U>, g: U -> real)
    requires |a| == |b|
    requires forall i :: 0 <= i < |a| ==> f(a[i]) == g(b[i])
    ensures Sum(a, f) == Sum(b, g)
    decreases |a|
  {
    if a != [] {
      SumPointwise(a[..|a| - 1], f, b[..|b| - 1], g);
    }
  }

  /** A constant factor common to every term comes out of the sum. */
  lemma {:induction false} SumScale<T>(s: seq<T>, f: T -> real, g: T -> real, c: real)
    requires forall i :: 0 <= i < |s| ==> f(s[i]) == g(s[i]) * c
    ensures Sum(s, f) == Sum(s, g) * c
    decreases |s|
  {
    if s != [] {
      var t := s[..|s| - 1];
      SumScale(t, f, g, c);
      assert Sum(t, g) * c + g(s[|s| - 1]) * c == (Sum(t, g) + g(s[|s| - 1])) * c;
    }
  }

  lemma {:induction false} SumZero<T>(s: seq<T>, f: T -> real)
    requires forall i :: 0 <= i < |s| ==> f(s[i]) == 0.0
    ensures Sum(s, f) == 0.0
    decreases |s|
  {
    if s != [] {
      SumZero(s[..|s| - 1], f);
    }
  }

  /** `[x for x in s if p(x)]` */
  function Filter<T>(s: seq<T>, p: T -> bool): (r: seq<T>)
    ensures |r| <= |s|
    ensures forall i :: 0 <= i < |r| ==> p(r[i]) && r[i] in s
    ensures forall x :: x in s && p(x) ==> x in r
  {
    if s == [] then []
    else (if p(s[0]) then [s[0]] else []) + Filter(s[1..], p)
  }

  lemma {:induction false} FilterAppend<T>(a: seq<T>, b: seq<T>, p: T -> bool)
    ensures Filter(a + b, p) == Filter(a, p) + Filter(b, p)
    decreases |a|
  {
    if a == [] {
      assert a + b == b;
    } else {
      assert (a + b)[1..] == a[1..] + b;
      FilterAppend(a[1..], b, p);
    }
  }

  /** Keeping some elements of a non-increasing sequence leaves it non-increasing. */
  lemma {:induction false} FilterSortedDesc<T>(s: seq<T>, p: T -> bool, key: T -> real)
    requires SortedDesc(s, key)
    ensures SortedDesc(Filter(s, p), key)
    decreases |s|
  {
    if s != [] {
      TailSortedDesc(s, key);
      FilterSortedDesc(s[1..], p, key);
      var rest := Filter(s[1..], p);
      HeadMaxDesc(s, key);
      forall k | 0 <= k < |rest| ensures key(rest[k]) <= key(s[0]) {
        assert rest[k] in s[1..];
      }
      if p(s[0]) {
        assert Filter(s, p) == [s[0]] + rest;
        ConsSortedDesc(s[0], rest, key);
      } else {
        assert Filter(s, p) == rest;
      }
    }
  }

  /** Keeping some elements of a non-decreasing sequence leaves it non-decreasing. */
  lemma {:induction false} FilterSortedAsc<T>(s: seq<T>, p: T -> bool, key: T -> real)
    requires SortedAsc(s, key)
    ensures SortedAsc(Filter(s, p), key)
    decreases |s|
  {
    if s != [] {
      TailSortedAsc(s, key);
      FilterSortedAsc(s[1..], p, key);
      var rest := Filter(s[1..], p);
      HeadMinAsc(s, key);
      forall k | 0 <= k < |rest| ensures key(s[0]) <= key(rest[k]) {
        assert rest[k] in s[1..];
      }
      if p(s[0]) {
        assert Filter(s, p) == [s[0]] + rest;
        ConsSortedAsc(s[0], rest, key);
      } else {
        assert Filter(s, p) == rest;
      }
    }
  }

  /** `s[:n]` */
  function Take<T>(s: seq<T>, n: nat): (r: seq<T>)
    ensures |r| <= n && |r| <= |s|
    ensures |s| <= n ==> r == s
    ensures n <= |s| ==> |r| == n
    ensures r == s[..|r|]
  {
    if |s| <= n then s else s[..n]
  }

  /**
   * The first `n` of a non-increasing sequence stay non-increasing, and an element
   * left out of them is ranked no higher than any that was kept, which happens
   * only when `n` were kept.
   */
  lemma {:induction false} TakeDesc<T>(s: seq<T>, n: nat, key: T -> real)
    requires SortedDesc(s, key)
    ensures SortedDesc(Take(s, n), key)
    ensures forall x :: x in s && x !in Take(s, n) ==>
              |Take(s, n)| == n && forall t :: t in Take(s, n) ==> key(x) <= key(t)
  {
    var top := Take(s, n);
    forall x | x in s && x !in top
      ensures |top| == n && forall t :: t in top ==> key(x) <= key(t)
    {
      var j :| 0 <= j < |s| && s[j] == x;
      forall t | t in top ensures key(x) <= key(t) {
        var i :| 0 <= i < |top| && top[i] == t;
        assert s[i] == t;
      }
    }
  }

  /** The same for a non-decreasing sequence: an element left out is no lower than any kept. */
  lemma {:induction false} TakeAsc<T>(s: seq<T>, n: nat, key: T -> real)
    requires SortedAsc(s, key)
    ensures SortedAsc(Take(s, n), key)
    ensures forall x :: x in s && x !in Take(s, n) ==>
              |Take(s, n)| == n && forall t :: t in Take(s, n) ==> key(t) <= key(x)
  {
    var top := Take(s, n);
    forall x | x in s && x !in top
      ensures |top| == n && forall t :: t in top ==> key(t) <= key(x)
    {
      var j :| 0 <= j < |s| && s[j] == x;
      forall t | t in top ensures key(t) <= key(x) {
        var i :| 0 <= i < |top| && top[i] == t;
        assert s[i] == t;
      }
    }
  }

  /** `list(reversed(s))` */
  function Reverse<T>(s: seq<T>): (r: seq<T>)
    ensures |r| == |s|
    ensures forall i :: 0 <= i < |s| ==> r[i] == s[|s| - 1 - i]
  {
    if s == [] then [] else Reverse(s[1..]) + [s[0]]
  }

  // ---------------------------------------------------------------- stable descending sort

  /** Non-increasing in `key`. */
  ghost predicate SortedDesc<T>(s: seq<T>, key: T -> real) {
    forall i, j :: 0 <= i < j < |s| ==> key(s[i]) >= key(s[j])
  }

  /** Non-decreasing in `key`. */
  ghost predicate SortedAsc<T>(s: seq<T>, key: T -> real) {
    forall i, j :: 0 <= i < j < |s| ==> key(s[i]) <= key(s[j])
  }

  /** Read backwards, a non-increasing sequence is non-decreasing. */
  lemma {:induction false} ReverseSortedDesc<T>(s: seq<T>, key: T -> real)
    requires SortedDesc(s, key)
    ensures SortedAsc(Reverse(s), key)
  {
    var r := Reverse(s);
    forall i, j | 0 <= i < j < |r| ensures key(r[i]) <= key(r[j]) {
      assert r[i] == s[|s| - 1 - i] && r[j] == s[|s| - 1 - j];
    }
  }

  lemma {:induction false} TailSortedDesc<T>(s: seq<T>, key: T -> real)
    requires s != [] && SortedDesc(s, key)
    ensures SortedDesc(s[1..], key)
  {
    var t := s[1..];
    forall i, j | 0 <= i < j < |t| ensures key(t[i]) >= key(t[j]) {
      assert t[i] == s[i + 1] && t[j] == s[j + 1];
    }
  }

  lemma {:induction false} TailSortedAsc<T>(s: seq<T>, key: T -> real)
    requires s != [] && SortedAsc(s, key)
    ensures SortedAsc(s[1..], key)
  {
    var t := s[1..];
    forall i, j | 0 <= i < j < |t| ensures key(t[i]) <= key(t[j]) {
      assert t[i] == s[i + 1] && t[j] == s[j + 1];
    }
  }

  /** The head of a non-increasing sequence has the largest key. */
  lemma {:induction false} HeadMaxDesc<T>(s: seq<T>, key: T -> real)
    requires s != [] && SortedDesc(s, key)
    ensures forall y :: y in s[1..] ==> key(y) <= key(s[0])
  {
    forall y | y in s[1..] ensures key(y) <= key(s[0]) {
      var k :| 0 <= k < |s[1..]| && s[1..][k] == y;
      assert s[k + 1] == y;
    }
  }

  /** The head of a non-decreasing sequence has the smallest key. */
  lemma {:induction false} HeadMinAsc<T>(s: seq<T>, key: T -> real)
    requires s != [] && SortedAsc(s, key)
    ensures forall y :: y in s[1..] ==> key(s[0]) <= key(y)
  {
    forall y | y in s[1..] ensures key(s[0]) <= key(y) {
      var k :| 0 <= k < |s[1..]| && s[1..][k] == y;
      assert s[k + 1] == y;
    }
  }

  /** An element with a key at least every key of a non-increasing sequence can go in front. */
  lemma {:induction false} ConsSortedDesc<T>(x: T, rest: seq<T>, key: T -> real)
    requires SortedDesc(rest, key)
    requires forall k :: 0 <= k < |rest| ==> key(rest[k]) <= key(x)
    ensures SortedDesc([x] + rest, key)
  {
    var r := [x] + rest;
    forall i, j | 0 <= i < j < |r| ensures key(r[i]) >= key(r[j]) {
      assert r[j] == rest[j - 1];
      if i > 0 {
        assert r[i] == rest[i - 1];
      }
    }
  }

  /** An element with a key at most every key of a non-decreasing sequence can go in front. */
  lemma {:induction false} ConsSortedAsc<T>(x: T, rest: seq<T>, key: T -> real)
    requires SortedAsc(rest, key)
    requires forall k :: 0 <= k < |rest| ==> key(x) <= key(rest[k])
    ensures SortedAsc([x] + rest, key)
  {
    var r := [x] + rest;
    forall i, j | 0 <= i < j < |r| ensures key(r[i]) <= key(r[j]) {
      assert r[j] == rest[j - 1];
      if i > 0 {
        assert r[i] == rest[i - 1];
      }
    }
  }

  /**
   * Puts `x` in front of the first element whose key is not larger than its own.
   * `x` therefore lands before every element with an equal key.
   */
  function Insert<T>(x: T, s: seq<T>, key: T -> real): (r: seq<T>)
    ensures multiset(r) == multiset(s) + multiset{x}
    ensures |r| == |s| + 1
  {
    if s == [] then [x]
    else if key(s[0]) <= key(x) then [x] + s
    else
      var r := [s[0]] + Insert(x, s[1..], key);
      assert s == [s[0]] + s[1..];
      r
  }

  lemma {:induction false} InsertSorted<T>(x: T, s: seq<T>, key: T -> real)
    requires SortedDesc(s, key)
    ensures SortedDesc(Insert(x, s, key), key)
    decreases |s|
  {
    if s == [] {
    } else if key(s[0]) > key(x) {
      var t := Insert(x, s[1..], key);
      TailSortedDesc(s, key);
      InsertSorted(x, s[1..], key);
      HeadMaxDesc(s, key);
      forall k | 0 <= k < |t| ensures key(t[k]) <= key(s[0]) {
        assert t[k] in multiset(t);
        if t[k] != x {
          assert t[k] in multiset(s[1..]);
        }
      }
      ConsSortedDesc(s[0], t, key);
    } else {
      HeadMaxDesc(s, key);
      forall k | 0 <= k < |s| ensures key(s[k]) <= key(x) {
        if k > 0 {
          assert s[k] in s[1..];
        }
      }
      ConsSortedDesc(x, s, key);
    }
  }

  /**
   * The stable sort of Python's `sorted(s, key=key, reverse=True)`: the result is
   * a permutation of `s`, non-increasing in `key`, and elements with equal keys
   * keep their order (SortDescStable).
   */
  function SortDesc<T>(s: seq<T>, key: T -> real): (r: seq<T>)
    ensures multiset(r) == multiset(s) && |r| == |s|
    ensures SortedDesc(r, key)
  {
    if s == [] then []
    else
      var t := SortDesc(s[1..], key);
      InsertSorted(s[0], t, key);
      HeadTailMultiset(s);
      Insert(s[0], t, key)
  }

  lemma {:induction false} HeadTailMultiset<T>(s: seq<T>)
    requires s != []
    ensures multiset(s) == multiset(s[1..]) + multiset{s[0]}
  {
    assert s == [s[0]] + s[1..];
  }

  lemma {:induction false} InsertSum<T>(x: T, s: seq<T>, key: T -> real, f: T -> real)
    ensures Sum(Insert(x, s, key), f) == f(x) + Sum(s, f)
    decreases |s|
  {
    if s == [] {
      SumCons(x, s, f);
    } else if key(s[0]) <= key(x) {
      SumCons(x, s, f);
    } else {
      InsertSum(x, s[1..], key, f);
      SumCons(s[0], Insert(x, s[1..], key), f);
      SumCons(s[0], s[1..], f);
      assert [s[0]] + s[1..] == s;
    }
  }

  /** Sorting does not change a sum over the elements. */
  lemma {:induction false} SortDescSum<T>(s: seq<T>, key: T -> real, f: T -> real)
    ensures Sum(SortDesc(s, key), f) == Sum(s, f)
    decreases |s|
  {
    if s != [] {
      SortDescSum(s[1..], key, f);
      InsertSum(s[0], SortDesc(s[1..], key), key, f);
      SumCons(s[0], s[1..], f);
      assert [s[0]] + s[1..] == s;
    }
  }

  /** The elements whose key is exactly `k`, in order. */
  function WithKey<T>(s: seq<T>, key: T -> real, k: real): seq<T> {
    if s == [] then []
    else (if key(s[0]) == k then [s[0]] else []) + WithKey(s[1..], key, k)
  }

  lemma {:induction false} WithKeyNone<T>(s: seq<T>, key: T -> real, k: real)
    requires forall i :: 0 <= i < |s| ==> key(s[i]) < k
    ensures WithKey(s, key, k) == []
    decreases |s|
  {
    if s != [] {
      WithKeyNone(s[1..], key, k);
    }
  }

  lemma {:induction false} InsertWithKey<T>(x: T, s: seq<T>, key: T -> real, k: real)
    requires SortedDesc(s, key)
    ensures WithKey(Insert(x, s, key), key, k)
         == if key(x) == k then [x] + WithKey(s, key, k) else WithKey(s, key, k)
    decreases |s|
  {
    if s == [] {
    } else if key(s[0]) <= key(x) {
      var r := [x] + s;
      assert r[1..] == s;
      if key(x) == k && key(s[0]) != k {
        // every element of s has a key at most key(s[0]) < k
        WithKeyNone(s, key, k);
        assert s == [s[0]] + s[1..];
        WithKeyNone(s[1..], key, k);
      }
    } else {
      var r := [s[0]] + Insert(x, s[1..], key);
      assert r[1..] == Insert(x, s[1..], key);
      InsertWithKey(x, s[1..], key, k);
      if key(x) == k {
        assert key(s[0]) != k;
      }
    }
  }

  /** Stability: the elements sharing any one key come out in their input order. */
  lemma {:induction false} SortDescStable<T>(s: seq<T>, key: T -> real, k: real)
    ensures WithKey(SortDesc(s, key), key, k) == WithKey(s, key, k)
    decreases |s|
  {
    if s != [] {
      SortDescStable(s[1..], key, k);
      InsertWithKey(s[0], SortDesc(s[1..], key), key, k);
    }
  }

  // ---------------------------------------------------------------- duplicates and projections

  /** No element occurs twice. */
  ghost predicate NoDup<T>(s: seq<T>) {
    forall i, j :: 0 <= i < j < |s| ==> s[i] != s[j]
  }

  /** Dropping the last element keeps a sequence free of duplicates, and that element occurs nowhere before. */
  lemma {:induction false} NoDupInit<T>(s: seq<T>)
    requires s != [] && NoDup(s)
    ensures NoDup(s[..|s| - 1]) && s[|s| - 1] !in s[..|s| - 1]
  {
    var init := s[..|s| - 1];
    forall i, j | 0 <= i < j < |init| ensures init[i] != init[j] {
      assert init[i] == s[i] && init[j] == s[j];
    }
    forall k | 0 <= k < |init| ensures init[k] != s[|s| - 1] {
      assert init[k] == s[k];
    }
  }

  /** `[f(x) for x in s]` */
  function Map<T, U>(s: seq<T>, f: T -> U): (r: seq<U>)
    ensures |r| == |s|
    ensures forall i :: 0 <= i < |s| ==> r[i] == f(s[i])
  {
    seq(|s|, i requires 0 <= i < |s| => f(s[i]))
  }

  lemma {:induction false} MapCons<T, U>(x: T, s: seq<T>, f: T -> U)
    ensures Map([x] + s, f) == [f(x)] + Map(s, f)
  {
  }

  lemma {:induction false} NoDupMultiset<T>(s: seq<T>)
    ensures NoDup(s) <==> forall x :: multiset(s)[x] <= 1
    decreases |s|
  {
    if s != [] {
      var t := s[1..];
      assert s == [s[0]] + t;
      NoDupMultiset(t);
      if NoDup(s) {
        forall i, j | 0 <= i < j < |t|
          ensures t[i] != t[j]
        {
          assert t[i] == s[i + 1] && t[j] == s[j + 1];
        }
        assert multiset(t)[s[0]] == 0;
      } else {
        var i, j :| 0 <= i < j < |s| && s[i] == s[j];
        if i == 0 {
          assert t[j - 1] == s[0];
          assert multiset(t)[s[0]] >= 1;
          assert multiset(s)[s[0]] >= 2;
        } else {
          assert t[i - 1] == t[j - 1];
          assert !NoDup(t);
          var x :| multiset(t)[x] > 1;
          assert multiset(s)[x] > 1;
        }
      }
    }
  }

  lemma {:induction false} InsertMapMultiset<T, U>(x: T, s: seq<T>, key: T -> real, f: T -> U)
    ensures multiset(Map(Insert(x, s, key), f)) == multiset(Map(s, f)) + multiset{f(x)}
    decreases |s|
  {
    if s == [] || key(s[0]) <= key(x) {
      assert Insert(x, s, key) == [x] + s;
      MapCons(x, s, f);
    } else {
      var h, tl := s[0], s[1..];
      var t := Insert(x, tl, key);
      assert Insert(x, s, key) == [h] + t;
      assert [h] + tl == s;
      InsertMapMultiset(x, tl, key, f);
      MapCons(h, t, f);
      MapCons(h, tl, f);
    }
  }

  /** Sorting permutes any projection of the elements as well. */
  lemma {:induction false} SortDescMapMultiset<T, U>(s: seq<T>, key: T -> real, f: T -> U)
    ensures multiset(Map(SortDesc(s, key), f)) == multiset(Map(s, f))
    decreases |s|
  {
    if s != [] {
      SortDescMapMultiset(s[1..], key, f);
      InsertMapMultiset(s[0], SortDesc(s[1..], key), key, f);
      MapCons(s[0], s[1..], f);
      assert [s[0]] + s[1..] == s;
    }
  }

  /** A sort keeps a projection free of duplicates. */
  lemma {:induction false} SortDescNoDup<T, U>(s: seq<T>, key: T -> real, f: T -> U)
    requires NoDup(Map(s, f))
    ensures NoDup(Map(SortDesc(s, key), f))
  {
    SortDescMapMultiset(s, key, f);
    NoDupMultiset(Map(s, f));
    NoDupMultiset(Map(SortDesc(s, key), f));
  }

  /** A sequence without duplicates has as many elements as its set of elements. */
  lemma {:induction false} NoDupCard<T>(s: seq<T>)
    requires NoDup(s)
    ensures |(set x | x in s)| == |s|
    decreases |s|
  {
    if s != [] {
      var t := s[..|s| - 1];
      assert NoDup(t);
      NoDupCard(t);
      assert (set x | x in s) == (set x | x in t) + {s[|s| - 1]};
      assert s[|s| - 1] !in (set x | x in t);
    }
  }
}
