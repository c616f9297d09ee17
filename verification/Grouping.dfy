/**
  Grouping amounts by a key: the weekday buckets of the forecast and the tag
  rows of the cost allocation are both this.
 */
module Grouping {
  import opened Wrappers
  import opened Sums

  /** The amounts filed under `d`, in order. */
  function Bucket<K(==)>(ks: seq<K>, vs: seq<real>, d: K): seq<real>
    requires |ks| == |vs|
  {
    if ks == [] then []
    else
      var n := |ks| - 1;
      var before := Bucket(ks[..n], vs[..n], d);
      if ks[n] == d then before + [vs[n]] else before
  }

  function TotalOver<K(==)>(ks: seq<K>, vs: seq<real>, ds: seq<K>): real
    requires |ks| == |vs|
  {
    if ds == [] then 0.0
    else TotalOver(ks, vs, ds[..|ds| - 1]) + Sum(Bucket(ks, vs, ds[|ds| - 1]))
  }

  ghost predicate Covers<K>(ds: seq<K>, ks: seq<K>) {
    forall i :: 0 <= i < |ks| ==> ks[i] in ds
  }

  /** The distinct keys of a list, in order of first appearance. */
  function Keys<K(==)>(ks: seq<K>): (ds: seq<K>)
    ensures Distinct(ds) && Covers(ds, ks)
    ensures forall i :: 0 <= i < |ds| ==> ds[i] in ks
  {
    if ks == [] then []
    else
      var n := |ks| - 1;
      var before := Keys(ks[..n]);
      if ks[n] in before then before else before + [ks[n]]
  }

  lemma {:induction false} BucketNonEmpty<K>(ks: seq<K>, vs: seq<real>, d: K)
    requires |ks| == |vs|
    ensures Bucket(ks, vs, d) != [] <==> d in ks
  {
    if ks != [] {
      var n := |ks| - 1;
      BucketNonEmpty(ks[..n], vs[..n], d);
      assert ks == ks[..n] + [ks[n]];
    }
  }

  /** Filing one more amount raises the total over `ds` by that amount if its key is listed. */
  lemma {:induction false} TotalOverSnoc<K>(ks: seq<K>, vs: seq<real>, ds: seq<K>)
    requires |ks| == |vs| && ks != [] && Distinct(ds)
    ensures
      var n := |ks| - 1;
      TotalOver(ks, vs, ds) == TotalOver(ks[..n], vs[..n], ds) + if ks[n] in ds then vs[n] else 0.0
  {
    if ds != [] {
      var n, k := |ks| - 1, |ds| - 1;
      TotalOverSnoc(ks, vs, ds[..k]);
      SumSnoc(Bucket(ks[..n], vs[..n], ds[k]), vs[n]);
      assert ds == ds[..k] + [ds[k]];
    }
  }

  /** No amount is lost or counted twice: the groups' totals sum to the whole. */
  lemma {:induction false} TotalsConserved<K>(ks: seq<K>, vs: seq<real>, ds: seq<K>)
    requires |ks| == |vs| && Distinct(ds) && Covers(ds, ks)
    ensures TotalOver(ks, vs, ds) == Sum(vs)
  {
    if ks == [] {
      EmptyTotals<K>(ds);
    } else {
      var n := |ks| - 1;
      TotalsConserved(ks[..n], vs[..n], ds);
      TotalOverSnoc(ks, vs, ds);
    }
  }

  lemma {:induction false} EmptyTotals<K>(ds: seq<K>)
    ensures TotalOver<K>([], [], ds) == 0.0
  {
    if ds != [] {
      EmptyTotals(ds[..|ds| - 1]);
    }
  }

  // ---------- Order does not matter ----------

  function SumMap<T>(xs: seq<T>, f: T -> real): real {
    if xs == [] then 0.0 else SumMap(xs[..|xs| - 1], f) + f(xs[|xs| - 1])
  }

  lemma {:induction false} SumMapRemove<T>(xs: seq<T>, f: T -> real, i: nat)
    requires i < |xs|
    ensures SumMap(xs, f) == SumMap(xs[..i] + xs[i + 1..], f) + f(xs[i])
  {
    var n := |xs| - 1;
    var rest := xs[..i] + xs[i + 1..];
    if i == n {
      assert rest == xs[..n];
    } else {
      SumMapRemove(xs[..n], f, i);
      assert rest[..n - 1] == xs[..n][..i] + xs[..n][i + 1..];
    }
  }

  lemma {:induction false} SumMapPermuted<T>(xs: seq<T>, ys: seq<T>, f: T -> real)
    requires multiset(xs) == multiset(ys)
    ensures |xs| == |ys| && SumMap(xs, f) == SumMap(ys, f)
  {
    if xs == [] {
      assert |multiset(ys)| == 0;
    } else {
      var i := RemoveLast(xs, ys);
      SumMapPermuted(xs[..|xs| - 1], ys[..i] + ys[i + 1..], f);
      SumMapRemove(ys, f, i);
    }
  }

  lemma {:induction false} SumIsSumMap(xs: seq<real>)
    ensures Sum(xs) == SumMap(xs, (x: real) => x)
  {
    if xs != [] {
      SumIsSumMap(xs[..|xs| - 1]);
    }
  }

  lemma SumPermuted(xs: seq<real>, ys: seq<real>)
    requires multiset(xs) == multiset(ys)
    ensures |xs| == |ys| && Sum(xs) == Sum(ys)
  {
    SumIsSumMap(xs);
    SumIsSumMap(ys);
    SumMapPermuted(xs, ys, (x: real) => x);
  }

  function Zip<K>(ks: seq<K>, vs: seq<real>): (ps: seq<(K, real)>)
    requires |ks| == |vs|
    ensures |ps| == |ks|
  {
    if ks == [] then []
    else
      var n := |ks| - 1;
      Zip(ks[..n], vs[..n]) + [(ks[n], vs[n])]
  }

  /** How often `v` occurs in the bucket of `d` is how often the pair occurs. */
  lemma {:induction false} BucketCount<K>(ks: seq<K>, vs: seq<real>, d: K, v: real)
    requires |ks| == |vs|
    ensures multiset(Bucket(ks, vs, d))[v] == multiset(Zip(ks, vs))[(d, v)]
  {
    if ks != [] {
      var n := |ks| - 1;
      BucketCount(ks[..n], vs[..n], d, v);
    }
  }

  function AmountOf<K>(): ((K, real)) -> real {
    (p: (K, real)) => p.1
  }

  function DeviationOf<K>(m: real): ((K, real)) -> real {
    (p: (K, real)) => Times(p.1 - m, p.1 - m)
  }

  lemma {:induction false} ZipStatistics<K>(ks: seq<K>, vs: seq<real>, m: real)
    requires |ks| == |vs|
    ensures Sum(vs) == SumMap(Zip(ks, vs), AmountOf<K>())
    ensures Scatter(vs, m) == SumMap(Zip(ks, vs), DeviationOf<K>(m))
  {
    if ks != [] {
      var n := |ks| - 1;
      ZipStatistics(ks[..n], vs[..n], m);
      assert Zip(ks, vs)[..n] == Zip(ks[..n], vs[..n]);
    }
  }

  /** Reordering (key, amount) pairs leaves the amounts' total and scatter as they were. */
  lemma {:induction false} PairsPermuted<K>(ks: seq<K>, vs: seq<real>, ks': seq<K>, vs': seq<real>, m: real)
    requires |ks| == |vs| && |ks'| == |vs'| && multiset(Zip(ks, vs)) == multiset(Zip(ks', vs'))
    ensures |vs| == |vs'| && Sum(vs) == Sum(vs') && Scatter(vs, m) == Scatter(vs', m)
  {
    ZipStatistics(ks, vs, m);
    ZipStatistics(ks', vs', m);
    SumMapPermuted(Zip(ks, vs), Zip(ks', vs'), AmountOf<K>());
    SumMapPermuted(Zip(ks, vs), Zip(ks', vs'), DeviationOf<K>(m));
  }

  lemma {:induction false} BucketPermuted<K(!new)>(ks: seq<K>, vs: seq<real>, ks': seq<K>, vs': seq<real>, d: K)
    requires |ks| == |vs| && |ks'| == |vs'| && multiset(Zip(ks, vs)) == multiset(Zip(ks', vs'))
    ensures multiset(Bucket(ks, vs, d)) == multiset(Bucket(ks', vs', d))
  {
    forall v
      ensures multiset(Bucket(ks, vs, d))[v] == multiset(Bucket(ks', vs', d))[v]
    {
      BucketCount(ks, vs, d, v);
      BucketCount(ks', vs', d, v);
    }
  }
}
