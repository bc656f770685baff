/**
 * Sequence helpers shared by every component: list comprehensions with a filter, sums,
 * and the stable descending sort that Python's `list.sort(key=..., reverse=True)` and
 * `sorted(..., reverse=True)` perform.
 */
module Seqs {

  function Min(a: int, b: int): int {
    if a <= b then a else b
  }

  /** Python's `xs[:n]` for n >= 0. */
  function Take<T>(xs: seq<T>, n: nat): (r: seq<T>)
    ensures |r| == Min(n, |xs|)
    ensures r <= xs
  {
    xs[..Min(n, |xs|)]
  }

  /** `[x for x in xs if p(x)]`: the elements of xs satisfying p, in their original order. */
  function Filter<T>(xs: seq<T>, p: T -> bool): (r: seq<T>)
    ensures |r| <= |xs|
    ensures forall i :: 0 <= i < |r| ==> r[i] in xs && p(r[i])
    ensures forall i :: 0 <= i < |xs| && p(xs[i]) ==> xs[i] in r
    decreases |xs|
  {
    if xs == [] then []
    else (if p(xs[0]) then [xs[0]] else []) + Filter(xs[1..], p)
  }

  /** ys is xs with some elements left out, the rest in their original order. */
  predicate IsSubsequence<T(==)>(ys: seq<T>, xs: seq<T>)
    decreases |xs|
  {
    if ys == [] then true
    else if xs == [] then false
    else if ys[0] == xs[0] then IsSubsequence(ys[1..], xs[1..])
    else IsSubsequence(ys, xs[1..])
  }

  /** A filter keeps the passing elements in their original order. */
  lemma {:induction false} FilterSubsequence<T>(xs: seq<T>, p: T -> bool)
    ensures IsSubsequence(Filter(xs, p), xs)
    decreases |xs|
  {
    if xs != [] {
      var rest := Filter(xs[1..], p);
      FilterSubsequence(xs[1..], p);
      if p(xs[0]) {
        assert Filter(xs, p)[1..] == rest;
      } else {
        assert Filter(xs, p) == rest;
        assert rest == [] || rest[0] != xs[0];
      }
    }
  }

  /** A filter keeps each passing element as often as it occurs, and nothing else. */
  lemma {:induction false} FilterCounts<T>(xs: seq<T>, p: T -> bool)
    ensures forall x :: multiset(Filter(xs, p))[x] == if p(x) then multiset(xs)[x] else 0
    decreases |xs|
  {
    if xs != [] {
      FilterCounts(xs[1..], p);
      assert xs == [xs[0]] + xs[1..];
      assert multiset(xs) == multiset{xs[0]} + multiset(xs[1..]);
    }
  }

  /** Filtering distributes over concatenation, so it keeps the input order. */
  lemma {:induction false} FilterAppend<T>(xs: seq<T>, ys: seq<T>, p: T -> bool)
    ensures Filter(xs + ys, p) == Filter(xs, p) + Filter(ys, p)
    decreases |xs|
  {
    if xs == [] {
      assert xs + ys == ys;
    } else {
      assert (xs + ys)[1..] == xs[1..] + ys;
      FilterAppend(xs[1..], ys, p);
    }
  }

  /** Filtering a list extended by one element extends the filtered list by it when it passes. */
  lemma FilterSnoc<T>(xs: seq<T>, x: T, p: T -> bool)
    ensures Filter(xs + [x], p) == Filter(xs, p) + (if p(x) then [x] else [])
  {
    FilterAppend(xs, [x], p);
    assert [x][1..] == [];
  }

  /** Concatenation is associative. */
  lemma AppendAssoc<T>(a: seq<T>, b: seq<T>, c: seq<T>)
    ensures a + b + c == a + (b + c)
  {
  }

  /** The lists of xss, concatenated in order. */
  function Flatten<T>(xss: seq<seq<T>>): seq<T> {
    if xss == [] then [] else Flatten(xss[..|xss| - 1]) + xss[|xss| - 1]
  }

  /** `sum(f(x) for x in xs)` over reals. */
  function SumReal<T>(xs: seq<T>, f: T -> real): real
    decreases |xs|
  {
    if xs == [] then 0.0 else f(xs[0]) + SumReal(xs[1..], f)
  }

  /** `sum(f(x) for x in xs)` over integers. */
  function SumInt<T>(xs: seq<T>, f: T -> int): int
    decreases |xs|
  {
    if xs == [] then 0 else f(xs[0]) + SumInt(xs[1..], f)
  }

  lemma {:induction false} SumRealAppend<T>(xs: seq<T>, ys: seq<T>, f: T -> real)
    ensures SumReal(xs + ys, f) == SumReal(xs, f) + SumReal(ys, f)
    decreases |xs|
  {
    if xs == [] {
      assert xs + ys == ys;
    } else {
      assert (xs + ys)[1..] == xs[1..] + ys;
      SumRealAppend(xs[1..], ys, f);
    }
  }

  lemma {:induction false} SumIntAppend<T>(xs: seq<T>, ys: seq<T>, f: T -> int)
    ensures SumInt(xs + ys, f) == SumInt(xs, f) + SumInt(ys, f)
    decreases |xs|
  {
    if xs == [] {
      assert xs + ys == ys;
    } else {
      assert (xs + ys)[1..] == xs[1..] + ys;
      SumIntAppend(xs[1..], ys, f);
    }
  }

  /** Replacing one term changes the sum by the difference of the two terms. */
  lemma {:induction false} SumIntUpdate<T>(xs: seq<T>, j: nat, v: T, f: T -> int)
    requires j < |xs|
    ensures SumInt(xs[j := v], f) == SumInt(xs, f) - f(xs[j]) + f(v)
    decreases |xs|
  {
    if j > 0 {
      assert xs[j := v][1..] == xs[1..][j - 1 := v];
      SumIntUpdate(xs[1..], j - 1, v, f);
    } else {
      assert xs[j := v][1..] == xs[1..];
    }
  }

  /** Every element a filter keeps satisfies the filter's predicate and comes from the input. */
  lemma FilterMember<T>(xs: seq<T>, p: T -> bool, x: T)
    requires x in Filter(xs, p)
    ensures p(x) && x in xs
  {
    var r := Filter(xs, p);
    var i :| 0 <= i < |r| && r[i] == x;
  }

  /** A prefix of a sorted sequence is sorted. */
  lemma TakeSorted<T>(xs: seq<T>, n: nat, key: T -> real)
    requires SortedDesc(xs, key)
    ensures SortedDesc(Take(xs, n), key)
  {
  }

  /** A sum does not depend on the order of its terms: reordering a list leaves its total unchanged. */
  lemma {:induction false} SumRealPermutation<T>(xs: seq<T>, ys: seq<T>, f: T -> real)
    requires multiset(xs) == multiset(ys)
    ensures SumReal(xs, f) == SumReal(ys, f)
    decreases |xs|
  {
    if xs == [] {
      assert |ys| == |multiset(ys)| == 0;
    } else {
      var x := xs[0];
      assert x in multiset(ys);
      var k :| 0 <= k < |ys| && ys[k] == x;
      var rest := ys[..k] + ys[k+1..];
      assert ys == ys[..k] + [x] + ys[k+1..];
      SumRealAppend(ys[..k] + [x], ys[k+1..], f);
      SumRealAppend(ys[..k], [x], f);
      SumRealAppend(ys[..k], ys[k+1..], f);
      assert SumReal([x], f) == f(x);
      assert xs == [x] + xs[1..];
      assert multiset(xs[1..]) == multiset(rest) by {
        calc {
          multiset(ys);
          multiset(ys[..k] + [x] + ys[k+1..]);
          multiset(ys[..k]) + multiset{x} + multiset(ys[k+1..]);
        }
        assert multiset(xs) == multiset{x} + multiset(xs[1..]);
        assert multiset(rest) == multiset(ys[..k]) + multiset(ys[k+1..]);
        assert multiset(xs[1..]) == multiset(xs) - multiset{x};
        assert multiset(rest) == multiset(ys) - multiset{x};
      }
      SumRealPermutation(xs[1..], rest, f);
    }
  }

  lemma {:induction false} SumIntPermutation<T>(xs: seq<T>, ys: seq<T>, f: T -> int)
    requires multiset(xs) == multiset(ys)
    ensures SumInt(xs, f) == SumInt(ys, f)
    decreases |xs|
  {
    if xs == [] {
      assert |ys| == |multiset(ys)| == 0;
    } else {
      var x := xs[0];
      assert x in multiset(ys);
      var k :| 0 <= k < |ys| && ys[k] == x;
      var rest := ys[..k] + ys[k+1..];
      assert ys == ys[..k] + [x] + ys[k+1..];
      SumIntAppend(ys[..k] + [x], ys[k+1..], f);
      SumIntAppend(ys[..k], [x], f);
      SumIntAppend(ys[..k], ys[k+1..], f);
      assert SumInt([x], f) == f(x);
      assert xs == [x] + xs[1..];
      assert multiset(xs[1..]) == multiset(rest) by {
        calc {
          multiset(ys);
          multiset(ys[..k] + [x] + ys[k+1..]);
          multiset(ys[..k]) + multiset{x} + multiset(ys[k+1..]);
        }
        assert multiset(xs) == multiset{x} + multiset(xs[1..]);
        assert multiset(rest) == multiset(ys[..k]) + multiset(ys[k+1..]);
        assert multiset(xs[1..]) == multiset(xs) - multiset{x};
        assert multiset(rest) == multiset(ys) - multiset{x};
      }
      SumIntPermutation(xs[1..], rest, f);
    }
  }

  // ---------------------------------------------------------------------------------------------
  // Stable descending sort. Python's sort is stable also with reverse=True: elements with equal
  // keys keep their input order. It is specified here by three facts proved below: the result is
  // sorted, it is a permutation, and for every key value the elements carrying it appear in the
  // same relative order as in the input. Together these determine the result uniquely.

  ghost predicate SortedDesc<T>(xs: seq<T>, key: T -> real) {
    forall i, j :: 0 <= i < j < |xs| ==> key(xs[i]) >= key(xs[j])
  }

  /** The subsequence of the elements whose key is k. */
  function WithKey<T>(xs: seq<T>, key: T -> real, k: real): seq<T>
    decreases |xs|
  {
    if xs == [] then []
    else (if key(xs[0]) == k then [xs[0]] else []) + WithKey(xs[1..], key, k)
  }

  /** Puts x in front of the first element whose key is not larger than x's. */
  function Insert<T>(x: T, ys: seq<T>, key: T -> real): (r: seq<T>)
    ensures multiset(r) == multiset(ys) + multiset{x}
    decreases |ys|
  {
    if ys == [] || key(ys[0]) <= key(x) then [x] + ys
    else assert ys == [ys[0]] + ys[1..]; [ys[0]] + Insert(x, ys[1..], key)
  }

  /** Insertion sort from the back: the earlier of two equal-keyed elements ends up first. */
  function SortDesc<T>(xs: seq<T>, key: T -> real): (r: seq<T>)
    ensures multiset(r) == multiset(xs)
    ensures |r| == |xs|
    decreases |xs|
  {
    if xs == [] then []
    else assert xs == [xs[0]] + xs[1..]; Insert(xs[0], SortDesc(xs[1..], key), key)
  }

  /** Inserting keeps every key below a common bound. */
  lemma {:induction false} InsertBounded<T>(x: T, ys: seq<T>, key: T -> real, bound: real)
    requires key(x) <= bound
    requires forall j :: 0 <= j < |ys| ==> key(ys[j]) <= bound
    ensures forall t :: 0 <= t < |Insert(x, ys, key)| ==> key(Insert(x, ys, key)[t]) <= bound
    decreases |ys|
  {
    if ys != [] && key(ys[0]) > key(x) {
      InsertBounded(x, ys[1..], key, bound);
    }
  }

  lemma {:induction false} InsertSorted<T>(x: T, ys: seq<T>, key: T -> real)
    requires SortedDesc(ys, key)
    ensures SortedDesc(Insert(x, ys, key), key)
    decreases |ys|
  {
    if ys == [] || key(ys[0]) <= key(x) {
    } else {
      var tail := Insert(x, ys[1..], key);
      InsertSorted(x, ys[1..], key);
      InsertBounded(x, ys[1..], key, key(ys[0]));
      var r := [ys[0]] + tail;
      forall i, j | 0 <= i < j < |r| ensures key(r[i]) >= key(r[j]) {
        assert r[j] == tail[j - 1];
        if i > 0 {
          assert r[i] == tail[i - 1];
        }
      }
    }
  }

  lemma {:induction false} SortDescSorted<T>(xs: seq<T>, key: T -> real)
    ensures SortedDesc(SortDesc(xs, key), key)
    decreases |xs|
  {
    if xs != [] {
      SortDescSorted(xs[1..], key);
      InsertSorted(xs[0], SortDesc(xs[1..], key), key);
    }
  }

  lemma {:induction false} InsertWithKey<T>(x: T, ys: seq<T>, key: T -> real, k: real)
    ensures WithKey(Insert(x, ys, key), key, k)
         == (if key(x) == k then [x] else []) + WithKey(ys, key, k)
    decreases |ys|
  {
    if ys == [] || key(ys[0]) <= key(x) {
      assert ([x] + ys)[1..] == ys;
    } else {
      var tail := Insert(x, ys[1..], key);
      assert ([ys[0]] + tail)[1..] == tail;
      InsertWithKey(x, ys[1..], key, k);
    }
  }

  /** Stability: for every key value, the elements carrying it keep their input order. */
  lemma {:induction false} SortDescStable<T>(xs: seq<T>, key: T -> real, k: real)
    ensures WithKey(SortDesc(xs, key), key, k) == WithKey(xs, key, k)
    decreases |xs|
  {
    if xs != [] {
      SortDescStable(xs[1..], key, k);
      InsertWithKey(xs[0], SortDesc(xs[1..], key), key, k);
    }
  }

  /** Everything Python's stable descending sort promises, in one call. */
  lemma SortDescSpec<T>(xs: seq<T>, key: T -> real)
    ensures SortedDesc(SortDesc(xs, key), key)
    ensures multiset(SortDesc(xs, key)) == multiset(xs)
    ensures forall k :: WithKey(SortDesc(xs, key), key, k) == WithKey(xs, key, k)
  {
    SortDescSorted(xs, key);
    forall k ensures WithKey(SortDesc(xs, key), key, k) == WithKey(xs, key, k) {
      SortDescStable(xs, key, k);
    }
  }
}
