/** Optional values (SQL NULL, a missing field, a failed look-up) and searching a table. */
module Wrappers {
  datatype Option<+T> = None | Some(value: T)

  /** The last position that satisfies `wanted`. */
  function FindLast<T>(s: seq<T>, wanted: T -> bool): (r: Option<nat>)
    ensures r.Some? ==> r.value < |s| && wanted(s[r.value])
    ensures r.None? ==> forall i :: 0 <= i < |s| ==> !wanted(s[i])
  {
    if s == [] then None
    else
      var n := |s| - 1;
      if wanted(s[n]) then Some(n) else FindLast(s[..n], wanted)
  }

  ghost predicate Distinct<T>(s: seq<T>) {
    forall i, j :: 0 <= i < j < |s| ==> s[i] != s[j]
  }

  lemma AppendSnoc<T>(a: seq<T>, b: seq<T>, x: T)
    ensures a + (b + [x]) == (a + b) + [x]
  {
  }

  lemma Unsnoc<T>(s: seq<T>)
    requires s != []
    ensures s == s[..|s| - 1] + [s[|s| - 1]]
  {
  }

  /** Taking one occurrence of the last element of `xs` out of a permutation of it. */
  lemma RemoveLast<T>(xs: seq<T>, ys: seq<T>) returns (i: nat)
    requires xs != [] && multiset(xs) == multiset(ys)
    ensures i < |ys| && ys[i] == xs[|xs| - 1]
    ensures multiset(xs[..|xs| - 1]) == multiset(ys[..i] + ys[i + 1..])
  {
    var n := |xs| - 1;
    Unsnoc(xs);
    assert xs[n] in multiset(xs);
    i :| 0 <= i < |ys| && ys[i] == xs[n];
    Without(ys, i);
    assert multiset(xs) == multiset(xs[..n]) + multiset{xs[n]};
    assert multiset(xs[..n]) == multiset(xs) - multiset{xs[n]};
  }

  lemma Without<T>(ys: seq<T>, i: nat)
    requires i < |ys|
    ensures multiset(ys[..i] + ys[i + 1..]) == multiset(ys) - multiset{ys[i]}
  {
    assert ys == ys[..i] + ([ys[i]] + ys[i + 1..]);
  }
}
