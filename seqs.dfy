/** Option values and the array operations the views lean on: `filter`, `reduce` sums,
    `length` of a filter, `find`/`findIndex` and `slice(0, n)`. */
module Seqs {

  datatype Option<+T> = None | Some(value: T)

  /** `xs` is `ys` with some elements dropped and the rest kept in order. */
  predicate IsSubseq<T(==)>(xs: seq<T>, ys: seq<T>)
    decreases |ys|
  {
    if xs == [] then true
    else if ys == [] then false
    else if xs[0] == ys[0] then IsSubseq(xs[1..], ys[1..])
    else IsSubseq(xs, ys[1..])
  }

  /** `Array.prototype.filter`: the elements satisfying `p`, in their original order. */
  function Filter<T(!new)>(xs: seq<T>, p: T -> bool): (r: seq<T>)
    ensures |r| <= |xs|
    ensures forall i :: 0 <= i < |r| ==> p(r[i])
    ensures forall x :: x in r <==> x in xs && p(x)
  {
    if xs == [] then []
    else
      var rest := Filter(xs[1..], p);
      assert xs == [xs[0]] + xs[1..];
      if p(xs[0]) then [xs[0]] + rest else rest
  }

  /** A filter keeps every occurrence of an element satisfying `p` and none of the others. */
  lemma {:induction false} FilterMultiset<T(!new)>(xs: seq<T>, p: T -> bool, x: T)
    ensures multiset(Filter(xs, p))[x] == if p(x) then multiset(xs)[x] else 0
  {
    if xs != [] {
      FilterMultiset(xs[1..], p, x);
      assert xs == [xs[0]] + xs[1..];
    }
  }

  lemma {:induction false} FilterIsSubseq<T(!new)>(xs: seq<T>, p: T -> bool)
    ensures IsSubseq(Filter(xs, p), xs)
  {
    if xs != [] {
      FilterIsSubseq(xs[1..], p);
      assert xs == [xs[0]] + xs[1..];
      if !p(xs[0]) {
        SubseqPrepend(Filter(xs[1..], p), xs[0], xs[1..]);
      }
    }
  }

  /** Putting an element in front of `ys` keeps every subsequence of `ys` a subsequence. */
  lemma {:induction false} SubseqPrepend<T>(xs: seq<T>, y: T, ys: seq<T>)
    requires IsSubseq(xs, ys)
    ensures IsSubseq(xs, [y] + ys)
    decreases |ys| + 1, 0
  {
    assert ([y] + ys)[1..] == ys;
    if xs != [] && xs[0] == y {
      SubseqTail(xs, ys);
    }
  }

  lemma {:induction false} SubseqTail<T>(xs: seq<T>, ys: seq<T>)
    requires xs != [] && IsSubseq(xs, ys)
    ensures IsSubseq(xs[1..], ys)
    decreases |ys|, 1
  {
    assert ys == [ys[0]] + ys[1..];
    if xs[0] == ys[0] {
      SubseqPrepend(xs[1..], ys[0], ys[1..]);
    } else {
      SubseqTail(xs, ys[1..]);
      SubseqPrepend(xs[1..], ys[0], ys[1..]);
    }
  }

  /** A filter whose predicate holds of every element keeps the whole sequence. */
  lemma {:induction false} FilterAll<T(!new)>(xs: seq<T>, p: T -> bool)
    requires forall i :: 0 <= i < |xs| ==> p(xs[i])
    ensures Filter(xs, p) == xs
  {
    if xs != [] {
      FilterAll(xs[1..], p);
    }
  }

  /** Filtering a sequence with one more element at the end. */
  lemma {:induction false} FilterAppendOne<T(!new)>(xs: seq<T>, x: T, p: T -> bool)
    ensures Filter(xs + [x], p) == Filter(xs, p) + (if p(x) then [x] else [])
  {
    if xs == [] {
      assert [x][1..] == [];
    } else {
      assert (xs + [x])[1..] == xs[1..] + [x];
      FilterAppendOne(xs[1..], x, p);
    }
  }

  /** Two predicates that agree on every element select the same elements. */
  lemma {:induction false} FilterEquivalent<T(!new)>(xs: seq<T>, p: T -> bool, q: T -> bool)
    requires forall i :: 0 <= i < |xs| ==> p(xs[i]) == q(xs[i])
    ensures Filter(xs, p) == Filter(xs, q)
  {
    if xs != [] {
      FilterEquivalent(xs[1..], p, q);
    }
  }

  /** `xs.filter(p).length`. */
  function Count<T(!new)>(xs: seq<T>, p: T -> bool): (n: nat)
    ensures n <= |xs|
    ensures n == |Filter(xs, p)|
  {
    if xs == [] then 0 else (if p(xs[0]) then 1 else 0) + Count(xs[1..], p)
  }

  /** Every element satisfies exactly one of three predicates, so the three counts add up. */
  lemma {:induction false} CountPartition3<T(!new)>(xs: seq<T>, p: T -> bool, q: T -> bool, r: T -> bool)
    requires forall x :: (p(x) ==> !q(x) && !r(x)) && (q(x) ==> !r(x)) && (p(x) || q(x) || r(x))
    ensures Count(xs, p) + Count(xs, q) + Count(xs, r) == |xs|
  {
    if xs != [] {
      CountPartition3(xs[1..], p, q, r);
    }
  }

  /** Every element satisfies exactly one of two predicates, so the two counts add up. */
  lemma {:induction false} CountPartition2<T(!new)>(xs: seq<T>, p: T -> bool, q: T -> bool)
    requires forall x :: p(x) != q(x)
    ensures Count(xs, p) + Count(xs, q) == |xs|
  {
    if xs != [] {
      CountPartition2(xs[1..], p, q);
    }
  }

  /** `xs.reduce((s, x) => s + f(x), 0)`. */
  function Sum<T>(xs: seq<T>, f: T -> int): int
  {
    if xs == [] then 0 else f(xs[0]) + Sum(xs[1..], f)
  }

  lemma {:induction false} SumAppend<T>(xs: seq<T>, ys: seq<T>, f: T -> int)
    ensures Sum(xs + ys, f) == Sum(xs, f) + Sum(ys, f)
  {
    if xs == [] {
      assert xs + ys == ys;
    } else {
      assert (xs + ys)[1..] == xs[1..] + ys;
      SumAppend(xs[1..], ys, f);
    }
  }

  lemma {:induction false} SumNonNegative<T>(xs: seq<T>, f: T -> int)
    requires forall i :: 0 <= i < |xs| ==> f(xs[i]) >= 0
    ensures Sum(xs, f) >= 0
  {
    if xs != [] {
      SumNonNegative(xs[1..], f);
    }
  }

  /** A sum over a prefix of non-negative terms is at most the sum over the whole. */
  lemma {:induction false} SumPrefixBound<T>(xs: seq<T>, n: nat, f: T -> int)
    requires n <= |xs|
    requires forall i :: 0 <= i < |xs| ==> f(xs[i]) >= 0
    ensures Sum(xs[..n], f) <= Sum(xs, f)
  {
    assert xs == xs[..n] + xs[n..];
    SumAppend(xs[..n], xs[n..], f);
    SumNonNegative(xs[n..], f);
  }

  /** Replacing one element changes the sum by the difference of the two terms. */
  lemma {:induction false} SumUpdate<T>(xs: seq<T>, i: nat, y: T, f: T -> int)
    requires i < |xs|
    ensures Sum(xs[i := y], f) == Sum(xs, f) - f(xs[i]) + f(y)
  {
    if i > 0 {
      SumUpdate(xs[1..], i - 1, y, f);
      assert xs[i := y][1..] == xs[1..][i - 1 := y];
    }
  }

  /** A sum of `n` terms, each between `lo` and `hi`, lies between `n * lo` and `n * hi`. */
  lemma {:induction false} SumBetween<T>(xs: seq<T>, f: T -> int, lo: int, hi: int)
    requires forall i :: 0 <= i < |xs| ==> lo <= f(xs[i]) <= hi
    ensures |xs| * lo <= Sum(xs, f) <= |xs| * hi
  {
    if xs != [] {
      SumBetween(xs[1..], f, lo, hi);
    }
  }

  /** `xs.flatMap(f)`: the sequences `f` gives for the elements, concatenated in order. */
  function FlatMap<T, U>(xs: seq<T>, f: T -> seq<U>): seq<U>
  {
    if xs == [] then [] else FlatMap(xs[..|xs| - 1], f) + f(xs[|xs| - 1])
  }

  lemma {:induction false} FlatMapAppend<T, U>(a: seq<T>, b: seq<T>, f: T -> seq<U>)
    ensures FlatMap(a + b, f) == FlatMap(a, f) + FlatMap(b, f)
  {
    if b == [] {
      assert a + b == a;
    } else {
      FlatMapAppend(a, b[..|b| - 1], f);
      assert (a + b)[..|a + b| - 1] == a + b[..|b| - 1];
    }
  }

  /** One more element of a prefix adds its image at the end. */
  lemma FlatMapStep<T, U>(xs: seq<T>, k: nat, f: T -> seq<U>)
    requires k < |xs|
    ensures FlatMap(xs[..k + 1], f) == FlatMap(xs[..k], f) + f(xs[k])
  {
    assert xs[..k + 1][..k] == xs[..k];
  }

  /** The image of a prefix is a prefix of the image. */
  lemma FlatMapPrefix<T, U>(xs: seq<T>, k: nat, f: T -> seq<U>)
    requires k <= |xs|
    ensures |FlatMap(xs[..k], f)| <= |FlatMap(xs, f)|
    ensures FlatMap(xs, f)[..|FlatMap(xs[..k], f)|] == FlatMap(xs[..k], f)
  {
    FlatMapAppend(xs[..k], xs[k..], f);
    assert xs[..k] + xs[k..] == xs;
  }

  /** Key/value pairs written into a map one after the other; a later write to a key wins. */
  function WriteAll<K, V>(m: map<K, V>, writes: seq<(K, V)>): map<K, V>
  {
    if writes == [] then m
    else WriteAll(m, writes[..|writes| - 1])[writes[|writes| - 1].0 := writes[|writes| - 1].1]
  }

  lemma {:induction false} WriteAllAppend<K, V>(m: map<K, V>, a: seq<(K, V)>, b: seq<(K, V)>)
    ensures WriteAll(m, a + b) == WriteAll(WriteAll(m, a), b)
  {
    if b == [] {
      assert a + b == a;
    } else {
      WriteAllAppend(m, a, b[..|b| - 1]);
      assert (a + b)[..|a + b| - 1] == a + b[..|b| - 1];
    }
  }

  lemma WriteAllPush<K, V>(m: map<K, V>, writes: seq<(K, V)>, x: (K, V))
    ensures WriteAll(m, writes + [x]) == WriteAll(m, writes)[x.0 := x.1]
  {
    assert (writes + [x])[..|writes|] == writes;
  }

  /** A key no write mentions keeps its value. */
  lemma {:induction false} WriteAllUntouched<K, V>(m: map<K, V>, writes: seq<(K, V)>, k: K)
    requires forall i :: 0 <= i < |writes| ==> writes[i].0 != k
    ensures (k in WriteAll(m, writes) <==> k in m)
    ensures k in m ==> WriteAll(m, writes)[k] == m[k]
  {
    if writes != [] {
      WriteAllUntouched(m, writes[..|writes| - 1], k);
    }
  }

  /** `Array.prototype.findIndex`: the first index whose element satisfies `p`. */
  function FindIndex<T>(xs: seq<T>, p: T -> bool): (r: Option<nat>)
    ensures r.None? <==> forall i :: 0 <= i < |xs| ==> !p(xs[i])
    ensures r.Some? ==> r.value < |xs| && p(xs[r.value]) &&
                        forall i :: 0 <= i < r.value ==> !p(xs[i])
  {
    if xs == [] then None
    else if p(xs[0]) then Some(0)
    else match FindIndex(xs[1..], p)
      case None => None
      case Some(i) => Some(i + 1)
  }

  /** An index whose element satisfies `p`, with none before it, is the one `findIndex` reports. */
  lemma FindIndexAt<T>(xs: seq<T>, p: T -> bool, i: nat)
    requires i < |xs| && p(xs[i])
    requires forall j :: 0 <= j < i ==> !p(xs[j])
    ensures FindIndex(xs, p) == Some(i)
  {
  }

  /** `Array.prototype.find`. */
  function Find<T>(xs: seq<T>, p: T -> bool): (r: Option<T>)
    ensures r.None? <==> forall i :: 0 <= i < |xs| ==> !p(xs[i])
    ensures r.Some? ==> exists i :: 0 <= i < |xs| && xs[i] == r.value && p(xs[i]) &&
                                    forall j :: 0 <= j < i ==> !p(xs[j])
  {
    match FindIndex(xs, p)
    case None => None
    case Some(i) => Some(xs[i])
  }

  /** `xs.slice(0, n)`. */
  function Take<T>(xs: seq<T>, n: nat): (r: seq<T>)
    ensures |r| == if |xs| < n then |xs| else n
    ensures r == xs[..|r|]
  {
    if |xs| <= n then xs else xs[..n]
  }
}
