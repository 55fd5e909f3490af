/** `Array.prototype.sort` with a comparator `(a, b) => key(b) - key(a)`: largest key first.
    JavaScript's sort is stable, and so is this insertion sort: among equal keys the
    earlier element stays first. */
module Sorting {
  import opened Seqs

  predicate SortedDesc<T>(xs: seq<T>, key: T -> int)
  {
    forall i, j :: 0 <= i < j < |xs| ==> key(xs[i]) >= key(xs[j])
  }

  /** The elements whose key is `k`, in their order: the group a stable sort must keep in order. */
  function WithKey<T>(xs: seq<T>, key: T -> int, k: int): (r: seq<T>)
    ensures |r| <= |xs|
  {
    if xs == [] then [] else (if key(xs[0]) == k then [xs[0]] else []) + WithKey(xs[1..], key, k)
  }

  /** The elements of a prefix that have a given key are the first elements of the whole
      sequence that have it. */
  lemma {:induction false} WithKeyPrefix<T>(xs: seq<T>, n: nat, key: T -> int, k: int)
    requires n <= |xs|
    ensures WithKey(xs[..n], key, k) <= WithKey(xs, key, k)
  {
    if n > 0 {
      assert xs[..n][1..] == xs[1..][..n - 1];
      WithKeyPrefix(xs[1..], n - 1, key, k);
    }
  }

  /** Places `x` in front of the first element whose key is not larger than its own. */
  function Insert<T>(x: T, xs: seq<T>, key: T -> int): (r: seq<T>)
    ensures |r| == |xs| + 1
    ensures multiset(r) == multiset(xs) + multiset{x}
  {
    if xs == [] || key(xs[0]) <= key(x) then [x] + xs
    else
      var rest := Insert(x, xs[1..], key);
      assert xs == [xs[0]] + xs[1..];
      [xs[0]] + rest
  }

  /** Inserting keeps every key under a bound that `x` and `xs` already respect. */
  lemma {:induction false} InsertBounded<T>(x: T, xs: seq<T>, key: T -> int, bound: int)
    requires key(x) <= bound
    requires forall k :: 0 <= k < |xs| ==> key(xs[k]) <= bound
    ensures forall k :: 0 <= k < |Insert(x, xs, key)| ==> key(Insert(x, xs, key)[k]) <= bound
  {
    if xs != [] && key(xs[0]) > key(x) {
      InsertBounded(x, xs[1..], key, bound);
    }
  }

  /** `x` lands before every element sharing its key, so each key's group keeps its order with
      `x` at its head. */
  lemma {:induction false} InsertGroups<T>(x: T, xs: seq<T>, key: T -> int)
    ensures forall k :: WithKey(Insert(x, xs, key), key, k) ==
                          (if key(x) == k then [x] else []) + WithKey(xs, key, k)
  {
    if xs != [] && key(xs[0]) > key(x) {
      InsertGroups(x, xs[1..], key);
      var r := Insert(x, xs, key);
      assert r[1..] == Insert(x, xs[1..], key);
    } else {
      var r := Insert(x, xs, key);
      assert r[1..] == xs;
    }
  }

  /** Inserting the head into a stable arrangement of the tail keeps every group's order. */
  lemma InsertFirstGroups<T>(xs: seq<T>, rest: seq<T>, key: T -> int)
    requires xs != []
    requires forall k :: WithKey(rest, key, k) == WithKey(xs[1..], key, k)
    ensures forall k :: WithKey(Insert(xs[0], rest, key), key, k) == WithKey(xs, key, k)
  {
    InsertGroups(xs[0], rest, key);
  }

  lemma {:induction false} InsertSorted<T>(x: T, xs: seq<T>, key: T -> int)
    requires SortedDesc(xs, key)
    ensures SortedDesc(Insert(x, xs, key), key)
  {
    if xs != [] && key(xs[0]) > key(x) {
      var rest := Insert(x, xs[1..], key);
      InsertSorted(x, xs[1..], key);
      InsertBounded(x, xs[1..], key, key(xs[0]));
      assert Insert(x, xs, key) == [xs[0]] + rest;
    }
  }

  /** The sorted sequence: largest key first, a rearrangement of the input, and stable:
      the elements sharing a key keep their input order. */
  function SortDesc<T>(xs: seq<T>, key: T -> int): (r: seq<T>)
    ensures |r| == |xs|
    ensures multiset(r) == multiset(xs)
    ensures SortedDesc(r, key)
    ensures forall k :: WithKey(r, key, k) == WithKey(xs, key, k)
  {
    if xs == [] then []
    else
      var rest := SortDesc(xs[1..], key);
      InsertSorted(xs[0], rest, key);
      InsertFirstGroups(xs, rest, key);
      assert xs == [xs[0]] + xs[1..];
      Insert(xs[0], rest, key)
  }

  lemma SortedPrefix<T>(xs: seq<T>, n: nat, key: T -> int)
    requires SortedDesc(xs, key) && n <= |xs|
    ensures SortedDesc(xs[..n], key)
  {
  }

  /** An element left out of a prefix of a sorted sequence comes after it, and its key is no
      larger than the prefix's last key. */
  lemma OmittedNotLarger<T>(xs: seq<T>, n: nat, key: T -> int, m: T)
    requires SortedDesc(xs, key) && n <= |xs|
    requires m in xs && m !in xs[..n]
    ensures n < |xs|
    ensures n > 0 ==> key(m) <= key(xs[n - 1])
  {
    assert forall i :: 0 <= i < n ==> xs[i] != m by {
      forall i | 0 <= i < n
        ensures xs[i] != m
      {
        assert xs[..n][i] == xs[i];
      }
    }
  }

  /** Sorting moves elements around, so any sum over them is unchanged. */
  lemma {:induction false} SumInsert<T>(x: T, xs: seq<T>, key: T -> int, f: T -> int)
    ensures Sum(Insert(x, xs, key), f) == f(x) + Sum(xs, f)
  {
    if xs != [] && key(xs[0]) > key(x) {
      SumInsert(x, xs[1..], key, f);
    }
  }

  lemma {:induction false} SumSortDesc<T>(xs: seq<T>, key: T -> int, f: T -> int)
    ensures Sum(SortDesc(xs, key), f) == Sum(xs, f)
  {
    if xs != [] {
      SumSortDesc(xs[1..], key, f);
      SumInsert(xs[0], SortDesc(xs[1..], key), key, f);
    }
  }
}
