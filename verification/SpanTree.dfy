/**
  The trace waterfall: linking spans to their parents and listing them in
  preorder.

  `Parents` is the link structure the code derives from the ids: the position
  of each span's parent, if it has one. Links come from stored data, so they
  may form cycles; only spans whose parent chain ends at a root are listed.
 */
module SpanTree {
  import opened Wrappers

  type Parents = p: seq<Option<nat>> | forall k :: 0 <= k < |p| && p[k].Some? ==> p[k].value < |p|

  // ---------- Ancestry ----------

  /** The parent chain of `k` reaches a root after exactly `level` links. */
  ghost predicate RootedAt(p: Parents, k: nat, level: nat)
    requires k < |p|
    decreases level
  {
    if level == 0 then p[k].None? else p[k].Some? && RootedAt(p, p[k].value, level - 1)
  }

  ghost predicate Rooted(p: Parents, k: nat)
    requires k < |p|
  {
    exists level: nat :: RootedAt(p, k, level)
  }

  /** `a` is the ancestor of `k` that is `up` links away; a span is its own ancestor at distance 0. */
  ghost predicate AncestorAt(p: Parents, a: nat, k: nat, up: nat)
    requires k < |p|
    decreases up
  {
    if up == 0 then a == k else p[k].Some? && AncestorAt(p, a, p[k].value, up - 1)
  }

  ghost predicate Descends(p: Parents, a: nat, k: nat)
    requires k < |p|
  {
    exists up: nat :: AncestorAt(p, a, k, up)
  }

  /** No span is its own proper ancestor. */
  ghost predicate Acyclic(p: Parents) {
    forall k, up: nat :: 0 <= k < |p| && up > 0 ==> !AncestorAt(p, k, k, up)
  }

  lemma {:induction false} LevelUnique(p: Parents, k: nat, i: nat, j: nat)
    requires k < |p| && RootedAt(p, k, i) && RootedAt(p, k, j)
    ensures i == j
    decreases i
  {
    if i > 0 && j > 0 {
      LevelUnique(p, p[k].value, i - 1, j - 1);
    }
  }

  lemma {:induction false} LevelBelow(p: Parents, a: nat, k: nat, up: nat, level: nat)
    requires k < |p| && a < |p| && AncestorAt(p, a, k, up) && RootedAt(p, a, level)
    ensures RootedAt(p, k, level + up)
    decreases up
  {
    if up > 0 {
      LevelBelow(p, a, p[k].value, up - 1, level);
    }
  }

  lemma {:induction false} LevelAbove(p: Parents, a: nat, k: nat, up: nat, level: nat)
    requires k < |p| && a < |p| && AncestorAt(p, a, k, up) && RootedAt(p, k, level)
    ensures up <= level && RootedAt(p, a, level - up)
    decreases up
  {
    if up > 0 {
      LevelAbove(p, a, p[k].value, up - 1, level - 1);
    }
  }

  lemma {:induction false} AncestorUnique(p: Parents, a: nat, b: nat, k: nat, up: nat)
    requires k < |p| && AncestorAt(p, a, k, up) && AncestorAt(p, b, k, up)
    ensures a == b
    decreases up
  {
    if up > 0 {
      AncestorUnique(p, a, b, p[k].value, up - 1);
    }
  }

  lemma {:induction false} AncestorCompose(p: Parents, a: nat, b: nat, k: nat, i: nat, j: nat)
    requires k < |p| && AncestorAt(p, b, k, i) && b < |p| && AncestorAt(p, a, b, j)
    ensures AncestorAt(p, a, k, i + j)
    decreases i
  {
    if i > 0 {
      AncestorCompose(p, a, b, p[k].value, i - 1, j);
    }
  }

  // ---------- Counting: chains are short, so cycles are the only way to be unrooted ----------

  ghost function Indices(n: nat): (s: set<nat>)
    ensures |s| == n && forall i: nat :: i in s <==> i < n
  {
    if n == 0 then {} else Indices(n - 1) + {n - 1}
  }

  lemma SubsetSize(a: set<nat>, b: set<nat>)
    requires a <= b
    ensures |a| <= |b|
  {
    assert b == a + (b - a);
  }

  /** `k` and its ancestors up to `up` links away. */
  ghost function Chain(p: Parents, k: nat, up: nat): (s: set<nat>)
    requires k < |p|
    ensures forall i :: i in s ==> i < |p|
    decreases up
  {
    if up == 0 || p[k].None? then {k} else {k} + Chain(p, p[k].value, up - 1)
  }

  lemma {:induction false} ChainMembers(p: Parents, k: nat, up: nat, a: nat)
    requires k < |p| && a in Chain(p, k, up)
    ensures exists j: nat :: j <= up && AncestorAt(p, a, k, j)
    decreases up
  {
    if a == k {
      assert AncestorAt(p, a, k, 0);
    } else {
      ChainMembers(p, p[k].value, up - 1, a);
      var j: nat :| j <= up - 1 && AncestorAt(p, a, p[k].value, j);
      assert AncestorAt(p, a, k, j + 1);
    }
  }

  /** While no ancestor repeats, a chain either reaches a root or keeps growing. */
  lemma {:induction false} ChainGrows(p: Parents, k: nat, up: nat)
    requires k < |p|
    requires forall i, j: nat :: 0 <= i < |p| && 0 < j <= up ==> !AncestorAt(p, i, i, j)
    ensures |Chain(p, k, up)| == up + 1 || Rooted(p, k)
    decreases up
  {
    if p[k].None? {
      var level: nat := 0;
      assert RootedAt(p, k, level);
    } else if up > 0 {
      var q := p[k].value;
      ChainGrows(p, q, up - 1);
      if k in Chain(p, q, up - 1) {
        ChainMembers(p, q, up - 1, k);
        var j: nat :| j <= up - 1 && AncestorAt(p, k, q, j);
        assert AncestorAt(p, k, k, j + 1);
        assert false;
      }
      if |Chain(p, q, up - 1)| != up {
        var level: nat :| RootedAt(p, q, level);
        assert RootedAt(p, k, level + 1);
      }
    }
  }

  /** A span is nowhere near `|p|` links from its root. */
  lemma LevelBound(p: Parents, k: nat, level: nat)
    requires k < |p| && RootedAt(p, k, level)
    ensures level < |p|
  {
    ChainSize(p, k, level);
    SubsetSize(Chain(p, k, level), Indices(|p|));
  }

  lemma {:induction false} ChainSize(p: Parents, k: nat, level: nat)
    requires k < |p| && RootedAt(p, k, level)
    ensures |Chain(p, k, level)| == level + 1
    decreases level
  {
    if level > 0 {
      var q := p[k].value;
      ChainSize(p, q, level - 1);
      if k in Chain(p, q, level - 1) {
        ChainMembers(p, q, level - 1, k);
        var j: nat :| j <= level - 1 && AncestorAt(p, k, q, j);
        LevelAbove(p, k, q, j, level - 1);
        LevelUnique(p, k, level, level - 1 - j);
        assert false;
      }
    }
  }

  /** The links are free of cycles exactly when every span's chain ends at a root. */
  lemma AcyclicIffRooted(p: Parents)
    ensures Acyclic(p) <==> forall k :: 0 <= k < |p| ==> Rooted(p, k)
  {
    if Acyclic(p) {
      forall k | 0 <= k < |p|
        ensures Rooted(p, k)
      {
        ChainGrows(p, k, |p|);
        SubsetSize(Chain(p, k, |p|), Indices(|p|));
      }
    }
    if forall k :: 0 <= k < |p| ==> Rooted(p, k) {
      forall k, up: nat | 0 <= k < |p| && up > 0
        ensures !AncestorAt(p, k, k, up)
      {
        if AncestorAt(p, k, k, up) {
          assert Rooted(p, k);
          var level: nat :| RootedAt(p, k, level);
          LevelAbove(p, k, k, up, level);
          LevelUnique(p, k, level, level - up);
        }
      }
    }
  }

  // ---------- Preorder ----------

  /** The first `n` spans whose parent link is `q`, in input order. */
  function Kids(p: Parents, q: Option<nat>, n: nat): (ks: seq<nat>)
    requires n <= |p|
    ensures forall i :: 0 <= i < |ks| ==> ks[i] < n && p[ks[i]] == q
  {
    if n == 0 then []
    else if p[n - 1] == q then Kids(p, q, n - 1) + [n - 1]
    else Kids(p, q, n - 1)
  }

  lemma {:induction false} KidsExact(p: Parents, q: Option<nat>, n: nat)
    requires n <= |p|
    ensures forall k: nat :: k < n && p[k] == q ==> k in Kids(p, q, n)
    ensures Distinct(Kids(p, q, n))
  {
    if n > 0 {
      KidsExact(p, q, n - 1);
      var before, all := Kids(p, q, n - 1), Kids(p, q, n);
      forall k: nat | k < n && p[k] == q
        ensures k in all
      {
        assert k < n - 1 ==> k in before;
      }
    }
  }

  /** All spans at one level of the forest that are listed together: siblings, or the roots. */
  ghost predicate AtLevel(p: Parents, ks: seq<nat>, level: nat) {
    forall i :: 0 <= i < |ks| ==> ks[i] < |p| && RootedAt(p, ks[i], level)
  }

  ghost function Preorder(p: Parents, ks: seq<nat>, level: nat): (out: seq<nat>)
    requires AtLevel(p, ks, level)
    ensures forall i :: 0 <= i < |out| ==> out[i] < |p|
    decreases |p| - level, |ks|
  {
    if ks == [] then []
    else
      LevelBound(p, ks[0], level);
      [ks[0]] + Preorder(p, Kids(p, Some(ks[0]), |p|), level + 1) + Preorder(p, ks[1..], level)
  }

  ghost function Listing(p: Parents): seq<nat> {
    Preorder(p, Kids(p, None, |p|), 0)
  }

  /** The block of one span: itself, then its descendants. */
  ghost function Block(p: Parents, k: nat, level: nat): (out: seq<nat>)
    requires k < |p| && RootedAt(p, k, level)
  {
    [k] + Preorder(p, Kids(p, Some(k), |p|), level + 1)
  }

  ghost predicate DescendsFromAny(p: Parents, ks: seq<nat>, m: nat)
    requires m < |p|
  {
    exists i :: 0 <= i < |ks| && Descends(p, ks[i], m)
  }

  lemma PreorderStep(p: Parents, ks: seq<nat>, level: nat)
    requires AtLevel(p, ks, level) && ks != []
    ensures level < |p|
    ensures Preorder(p, ks, level) == Block(p, ks[0], level) + Preorder(p, ks[1..], level)
  {
    LevelBound(p, ks[0], level);
  }

  lemma {:induction false} PreorderMembers(p: Parents, ks: seq<nat>, level: nat, m: nat)
    requires AtLevel(p, ks, level) && m < |p|
    ensures m in Preorder(p, ks, level) <==> DescendsFromAny(p, ks, m)
    decreases |p| - level, |ks|, 0
  {
    if ks != [] {
      PreorderStep(p, ks, level);
      BlockMembers(p, ks[0], level, m);
      PreorderMembers(p, ks[1..], level, m);
    }
  }

  /** The block of `k` holds exactly its descendants. */
  lemma {:induction false} BlockMembers(p: Parents, k: nat, level: nat, m: nat)
    requires k < |p| && m < |p| && RootedAt(p, k, level)
    ensures m in Block(p, k, level) <==> Descends(p, k, m)
    decreases |p| - level, 0, 1
  {
    LevelBound(p, k, level);
    var kids := Kids(p, Some(k), |p|);
    PreorderMembers(p, kids, level + 1, m);
    DescendsViaKid(p, k, m);
  }

  /** A descendant of `k` is `k` or a descendant of one of its children. */
  lemma DescendsViaKid(p: Parents, k: nat, m: nat)
    requires k < |p| && m < |p|
    ensures Descends(p, k, m) <==> m == k || DescendsFromAny(p, Kids(p, Some(k), |p|), m)
  {
    var kids := Kids(p, Some(k), |p|);
    if Descends(p, k, m) && m != k {
      var up: nat :| AncestorAt(p, k, m, up);
      var c := LastBeforeAncestor(p, k, m, up);
      KidsExact(p, Some(k), |p|);
      assert Descends(p, c, m);
    }
    if m == k {
      assert AncestorAt(p, k, m, 0);
    }
    if i :| 0 <= i < |kids| && Descends(p, kids[i], m) {
      var up: nat :| AncestorAt(p, kids[i], m, up);
      assert AncestorAt(p, k, p[kids[i]].value, 0);
      AncestorCompose(p, k, kids[i], m, up, 1);
    }
  }

  lemma {:induction false} LastBeforeAncestor(p: Parents, k: nat, m: nat, up: nat) returns (c: nat)
    requires m < |p| && up > 0 && AncestorAt(p, k, m, up)
    ensures c < |p| && p[c] == Some(k) && AncestorAt(p, c, m, up - 1)
    decreases up
  {
    if up == 1 {
      c := m;
      assert AncestorAt(p, k, p[m].value, 0);
    } else {
      c := LastBeforeAncestor(p, k, p[m].value, up - 1);
    }
  }

  lemma DistinctAppend<T>(a: seq<T>, b: seq<T>)
    requires Distinct(a) && Distinct(b) && forall x :: x in a ==> x !in b
    ensures Distinct(a + b)
  {
    forall i, j | 0 <= i < j < |a + b|
      ensures (a + b)[i] != (a + b)[j]
    {
      if i < |a| <= j {
        assert a[i] in a && b[j - |a|] in b;
      }
    }
  }

  /** Two spans of one level share no descendant. */
  lemma LevelsDisjoint(p: Parents, a: nat, b: nat, level: nat, m: nat)
    requires a < |p| && b < |p| && m < |p| && RootedAt(p, a, level) && RootedAt(p, b, level)
    requires Descends(p, a, m) && Descends(p, b, m)
    ensures a == b
  {
    var i: nat :| AncestorAt(p, a, m, i);
    var j: nat :| AncestorAt(p, b, m, j);
    LevelBelow(p, a, m, i, level);
    LevelBelow(p, b, m, j, level);
    LevelUnique(p, m, level + i, level + j);
    AncestorUnique(p, a, b, m, i);
  }

  lemma {:induction false} PreorderDistinct(p: Parents, ks: seq<nat>, level: nat)
    requires AtLevel(p, ks, level) && Distinct(ks)
    ensures Distinct(Preorder(p, ks, level))
    decreases |p| - level, |ks|, 0
  {
    if ks != [] {
      PreorderStep(p, ks, level);
      BlockDistinct(p, ks[0], level);
      PreorderDistinct(p, ks[1..], level);
      var block, rest := Block(p, ks[0], level), Preorder(p, ks[1..], level);
      forall m | m in block
        ensures m !in rest
      {
        if m in rest {
          BlockMembers(p, ks[0], level, m);
          PreorderMembers(p, ks[1..], level, m);
          var i :| 0 <= i < |ks[1..]| && Descends(p, ks[1..][i], m);
          assert ks[1..][i] == ks[i + 1];
          LevelsDisjoint(p, ks[0], ks[i + 1], level, m);
        }
      }
      DistinctAppend(block, rest);
    }
  }

  lemma {:induction false} BlockDistinct(p: Parents, k: nat, level: nat)
    requires k < |p| && RootedAt(p, k, level)
    ensures Distinct(Block(p, k, level))
    decreases |p| - level, 0, 1
  {
    LevelBound(p, k, level);
    var kids := Kids(p, Some(k), |p|);
    KidsExact(p, Some(k), |p|);
    PreorderDistinct(p, kids, level + 1);
    NotBelow(p, k, level);
    DistinctAppend([k], Preorder(p, kids, level + 1));
  }

  lemma {:induction false} NotBelow(p: Parents, k: nat, level: nat)
    requires k < |p| && RootedAt(p, k, level)
    ensures
      AtLevel(p, Kids(p, Some(k), |p|), level + 1) && k !in Preorder(p, Kids(p, Some(k), |p|), level + 1)
    decreases |p| - level, 0, 0
  {
    LevelBound(p, k, level);
    if k in Preorder(p, Kids(p, Some(k), |p|), level + 1) {
      PreorderMembers(p, Kids(p, Some(k), |p|), level + 1, k);
      BelowIsOther(p, k, level, k);
    }
  }

  /** What descends from a child of `k` is not `k`. */
  lemma {:induction false} BelowIsOther(p: Parents, k: nat, level: nat, m: nat)
    requires k < |p| && m < |p| && RootedAt(p, k, level) && DescendsFromAny(p, Kids(p, Some(k), |p|), m)
    ensures m != k
  {
    var kids := Kids(p, Some(k), |p|);
    var i :| 0 <= i < |kids| && Descends(p, kids[i], m);
    var up: nat :| AncestorAt(p, kids[i], m, up);
    AboveItsKid(p, k, kids[i], level, up);
  }

  lemma AboveItsKid(p: Parents, k: nat, c: nat, level: nat, up: nat)
    requires k < |p| && c < |p| && p[c] == Some(k) && RootedAt(p, k, level)
    ensures !AncestorAt(p, c, k, up)
  {
    if AncestorAt(p, c, k, up) {
      assert RootedAt(p, c, level + 1);
      LevelBelow(p, c, k, up, level + 1);
      LevelUnique(p, k, level, level + 1 + up);
    }
  }

  /** The block of span `k`, which sits at level `at`, occupies the listing from position `i`. */
  ghost predicate BlockStands(p: Parents, out: seq<nat>, i: nat, at: nat) {
    i < |out| && out[i] < |p| && RootedAt(p, out[i], at) &&
    Block(p, out[i], at) <= out[i..]
  }

  /** Wherever a span stands in the listing, its whole block follows immediately. */
  lemma {:induction false} PreorderBlocks(p: Parents, ks: seq<nat>, level: nat, i: nat) returns (at: nat)
    requires AtLevel(p, ks, level) && i < |Preorder(p, ks, level)|
    ensures BlockStands(p, Preorder(p, ks, level), i, at)
    decreases |p| - level, |ks|, 0
  {
    PreorderStep(p, ks, level);
    var block, rest := Block(p, ks[0], level), Preorder(p, ks[1..], level);
    if i < |block| {
      at := BlockBlocks(p, ks[0], level, i);
    } else {
      at := PreorderBlocks(p, ks[1..], level, i - |block|);
    }
  }

  lemma {:induction false} BlockBlocks(p: Parents, k: nat, level: nat, i: nat) returns (at: nat)
    requires k < |p| && RootedAt(p, k, level) && i < |Block(p, k, level)|
    ensures BlockStands(p, Block(p, k, level), i, at)
    decreases |p| - level, 0, 1
  {
    if i == 0 {
      at := level;
    } else {
      LevelBound(p, k, level);
      var below := Preorder(p, Kids(p, Some(k), |p|), level + 1);
      at := PreorderBlocks(p, Kids(p, Some(k), |p|), level + 1, i - 1);
      StandsBelow(p, k, below, Block(p, k, level), i, at);
    }
  }

  lemma StandsBelow(p: Parents, k: nat, below: seq<nat>, block: seq<nat>, i: nat, at: nat)
    requires block == [k] + below && i > 0 && BlockStands(p, below, i - 1, at)
    ensures BlockStands(p, block, i, at)
  {
    assert block[i] == below[i - 1] && block[i..] == below[i - 1..];
  }

  // ---------- What the waterfall shows ----------

  /** Exactly the rooted spans, each once. */
  lemma ListingExact(p: Parents)
    ensures Distinct(Listing(p))
    ensures forall k: nat :: k < |p| ==> (k in Listing(p) <==> Rooted(p, k))
  {
    var roots := Kids(p, None, |p|);
    KidsExact(p, None, |p|);
    PreorderDistinct(p, roots, 0);
    forall k: nat | k < |p|
      ensures k in Listing(p) <==> Rooted(p, k)
    {
      PreorderMembers(p, roots, 0, k);
      if i :| 0 <= i < |roots| && Descends(p, roots[i], k) {
        var r := roots[i];
        var up: nat :| AncestorAt(p, r, k, up);
        LevelBelow(p, r, k, up, 0);
      }
      if level: nat :| RootedAt(p, k, level) {
        var r := RootOf(p, k, level);
        assert Descends(p, r, k);
      }
    }
  }

  lemma {:induction false} RootOf(p: Parents, k: nat, level: nat) returns (r: nat)
    requires k < |p| && RootedAt(p, k, level)
    ensures r < |p| && p[r].None? && AncestorAt(p, r, k, level)
    decreases level
  {
    if level == 0 {
      r := k;
    } else {
      r := RootOf(p, p[k].value, level - 1);
    }
  }

  /** Without cycles the listing is a permutation of the input; with one, it is not. */
  lemma PermutationIffAcyclic(p: Parents)
    ensures multiset(Listing(p)) == multiset(Indices(|p|)) <==> Acyclic(p)
  {
    ListingExact(p);
    AcyclicIffRooted(p);
    DistinctIsSet(Listing(p));
    var seen := set k | k in Listing(p);
    if Acyclic(p) {
      assert seen == Indices(|p|);
    } else {
      var k :| 0 <= k < |p| && !Rooted(p, k);
      assert multiset(Listing(p))[k] == 0 by {
        assert k !in Listing(p);
      }
      assert multiset(Indices(|p|))[k] == 1;
    }
  }

  lemma {:induction false} DistinctIsSet(s: seq<nat>)
    requires Distinct(s)
    ensures multiset(s) == multiset(set k | k in s)
  {
    if s != [] {
      var n := |s| - 1;
      DistinctIsSet(s[..n]);
      assert s == s[..n] + [s[n]];
      assert s[n] !in s[..n];
      assert (set k | k in s) == (set k | k in s[..n]) + {s[n]};
    }
  }

  /**
    Each span is followed at once by exactly its descendants: the listing from
    position `i` to `j` holds `listing[i]` first, then all that descend from it
    and nothing else, so a parent stands before its children and each subtree
    is contiguous.
   */
  lemma SubtreesContiguous(p: Parents, i: nat) returns (j: nat)
    requires i < |Listing(p)|
    ensures i < j <= |Listing(p)|
    ensures forall m: nat :: m < |p| ==> (m in Listing(p)[i..j] <==> Descends(p, Listing(p)[i], m))
  {
    var out := Listing(p);
    var at := PreorderBlocks(p, Kids(p, None, |p|), 0, i);
    var block := Block(p, out[i], at);
    j := i + |block|;
    assert out[i..j] == out[i..][..|block|] == block;
    forall m: nat | m < |p|
      ensures m in out[i..j] <==> Descends(p, out[i], m)
    {
      BlockMembers(p, out[i], at, m);
    }
  }

  lemma {:induction false} KidsOrder(p: Parents, q: Option<nat>, n: nat, a: nat, b: nat) returns (u: nat, v: nat)
    requires a < b < n <= |p| && p[a] == p[b] == q
    ensures u < v < |Kids(p, q, n)| && Kids(p, q, n)[u] == a && Kids(p, q, n)[v] == b
  {
    if n - 1 == b {
      KidsExact(p, q, n - 1);
      u :| 0 <= u < |Kids(p, q, n - 1)| && Kids(p, q, n - 1)[u] == a;
      v := |Kids(p, q, n - 1)|;
    } else {
      u, v := KidsOrder(p, q, n - 1, a, b);
    }
  }

  lemma {:induction false} PositionIn(p: Parents, ks: seq<nat>, level: nat, v: nat) returns (j: nat)
    requires AtLevel(p, ks, level) && v < |ks|
    ensures j < |Preorder(p, ks, level)| && Preorder(p, ks, level)[j] == ks[v]
    decreases v
  {
    PreorderStep(p, ks, level);
    if v == 0 {
      j := 0;
    } else {
      j := PositionIn(p, ks[1..], level, v - 1);
      j := j + |Block(p, ks[0], level)|;
    }
  }

  lemma {:induction false} OrderIn(p: Parents, ks: seq<nat>, level: nat, u: nat, v: nat) returns (i: nat, j: nat)
    requires AtLevel(p, ks, level) && u < v < |ks|
    ensures i < j < |Preorder(p, ks, level)| && Preorder(p, ks, level)[i] == ks[u] && Preorder(p, ks, level)[j] == ks[v]
    decreases u
  {
    PreorderStep(p, ks, level);
    var skip := |Block(p, ks[0], level)|;
    if u == 0 {
      i := 0;
      j := PositionIn(p, ks[1..], level, v - 1);
      j := j + skip;
    } else {
      i, j := OrderIn(p, ks[1..], level, u - 1, v - 1);
      i, j := i + skip, j + skip;
    }
  }

  /** Roots, and the children of each listed span, appear in input order. */
  lemma SiblingsInOrder(p: Parents, a: nat, b: nat) returns (i: nat, j: nat)
    requires a < b < |p| && p[a] == p[b] && Rooted(p, a)
    ensures i < j < |Listing(p)| && Listing(p)[i] == a && Listing(p)[j] == b
  {
    var u, v := KidsOrder(p, p[a], |p|, a, b);
    if p[a].None? {
      i, j := OrderIn(p, Kids(p, None, |p|), 0, u, v);
    } else {
      var m := p[a].value;
      var level: nat :| RootedAt(p, a, level);
      assert RootedAt(p, m, level - 1);
      ListingExact(p);
      assert Rooted(p, m) && m in Listing(p);
      var at: nat :| at < |Listing(p)| && Listing(p)[at] == m;
      i, j := OrderBelow(p, m, at, u, v);
    }
  }

  lemma OrderBelow(p: Parents, m: nat, at: nat, u: nat, v: nat) returns (i: nat, j: nat)
    requires at < |Listing(p)| && Listing(p)[at] == m && u < v < |Kids(p, Some(m), |p|)|
    ensures i < j < |Listing(p)|
    ensures Listing(p)[i] == Kids(p, Some(m), |p|)[u] && Listing(p)[j] == Kids(p, Some(m), |p|)[v]
  {
    var level := PreorderBlocks(p, Kids(p, None, |p|), 0, at);
    i, j := OrderUnder(p, Listing(p), at, level, u, v);
  }

  lemma OrderUnder(p: Parents, out: seq<nat>, at: nat, level: nat, u: nat, v: nat) returns (i: nat, j: nat)
    requires BlockStands(p, out, at, level) && u < v < |Kids(p, Some(out[at]), |p|)|
    ensures i < j < |out|
    ensures out[i] == Kids(p, Some(out[at]), |p|)[u] && out[j] == Kids(p, Some(out[at]), |p|)[v]
  {
    var x, y := OrderIn(p, Kids(p, Some(out[at]), |p|), level + 1, u, v);
    i, j := at + 1 + x, at + 1 + y;
  }

  lemma ParentDescends(p: Parents, q: nat, k: nat)
    requires k < |p| && p[k] == Some(q)
    ensures Descends(p, q, k)
  {
    assert AncestorAt(p, q, q, 0);
    assert AncestorAt(p, q, k, 1);
  }

  /** A child stands after its parent. */
  lemma ChildAfter(p: Parents, l: nat, m: nat)
    requires l < |Listing(p)| && m < |Listing(p)| && p[Listing(p)[m]] == Some(Listing(p)[l])
    ensures l < m
  {
    var e := SubtreesContiguous(p, l);
    ListingExact(p);
    ParentDescends(p, Listing(p)[l], Listing(p)[m]);
    if l == m {
      NoSelfParent(p, Listing(p)[m]);
    }
  }

  lemma NoSelfParent(p: Parents, k: nat)
    requires k < |p| && Rooted(p, k)
    ensures p[k] != Some(k)
  {
    var level: nat :| RootedAt(p, k, level);
    if p[k] == Some(k) {
      LevelUnique(p, k, level, level - 1);
    }
  }

  /** The parent of `out[m]` stands in `[from, m)`. */
  ghost predicate ParentWithin(p: Parents, out: seq<nat>, from: nat, m: nat)
    requires m < |out| && out[m] < |p|
  {
    exists l :: from <= l < m && p[out[m]] == Some(out[l])
  }

  lemma ParentBelow(p: Parents, q: nat, x: nat)
    requires x < |p| && Descends(p, q, x) && x != q
    ensures p[x].Some? && Descends(p, q, p[x].value)
  {
    var up: nat :| AncestorAt(p, q, x, up);
    assert AncestorAt(p, q, p[x].value, up - 1);
  }

  lemma BelowWithin(p: Parents, i: nat, e: nat, m: nat)
    requires i < m < e <= |Listing(p)| && Distinct(Listing(p))
    requires forall x: nat :: x < |p| ==> (x in Listing(p)[i..e] <==> Descends(p, Listing(p)[i], x))
    ensures ParentWithin(p, Listing(p), i, m)
  {
    var q, x := Listing(p)[i], Listing(p)[m];
    assert Listing(p)[i..e][m - i] == x && x != q;
    assert x in Listing(p)[i..e] && Descends(p, q, x);
    ParentBelow(p, q, x);
    var l :| 0 <= l < e - i && Listing(p)[i..e][l] == p[x].value;
    ChildAfter(p, i + l, m);
  }

  /** Every listed span with a parent stands below it, with nothing between them but spans below that parent. */
  lemma StandsUnderParent(p: Parents, j: nat) returns (i: nat)
    requires j < |Listing(p)| && p[Listing(p)[j]].Some?
    ensures i < j && p[Listing(p)[j]] == Some(Listing(p)[i])
    ensures forall m :: i < m <= j ==> ParentWithin(p, Listing(p), i, m)
  {
    var k := Listing(p)[j];
    var q := p[k].value;
    ListingExact(p);
    assert Rooted(p, k);
    var level: nat :| RootedAt(p, k, level);
    assert RootedAt(p, q, level - 1);
    assert Rooted(p, q);
    i :| 0 <= i < |Listing(p)| && Listing(p)[i] == q;
    ChildAfter(p, i, j);
    var e := SubtreesContiguous(p, i);
    ParentDescends(p, q, k);
    forall m | i < m <= j
      ensures ParentWithin(p, Listing(p), i, m)
    {
      BelowWithin(p, i, e, m);
    }
  }

  // ---------- Indentation ----------

  /**
    The depth the linking loop leaves on span `k`: its parent's depth so far
    plus one. A parent later in the input has not been linked yet and still
    has depth 0.
   */
  function Depth(p: Parents, k: nat): nat
    requires k < |p|
  {
    if p[k].None? then 0
    else if p[k].value < k then Depth(p, p[k].value) + 1
    else 1
  }

  /** Every listed span is indented by the number of its ancestors. */
  ghost predicate DepthsRight(p: Parents) {
    forall k: nat, level: nat :: k < |p| && RootedAt(p, k, level) ==> Depth(p, k) == level
  }

  /** A listed span whose parent comes later in the input has a root for parent. */
  ghost predicate LateParentsAreRoots(p: Parents) {
    forall k: nat :: k < |p| && Rooted(p, k) && p[k].Some? && p[k].value >= k ==> p[p[k].value].None?
  }

  lemma {:induction false} DepthIsLevel(p: Parents, k: nat, level: nat)
    requires LateParentsAreRoots(p) && k < |p| && RootedAt(p, k, level)
    ensures Depth(p, k) == level
    decreases level
  {
    if level > 0 {
      var q := p[k].value;
      if q < k {
        DepthIsLevel(p, q, level - 1);
      } else {
        assert Rooted(p, k);
        assert RootedAt(p, q, 0);
        LevelUnique(p, q, 0, level - 1);
      }
    }
  }

  /** The indentation is right exactly when no listed span precedes a non-root parent. */
  lemma DepthsRightIff(p: Parents)
    ensures DepthsRight(p) <==> LateParentsAreRoots(p)
  {
    if LateParentsAreRoots(p) {
      forall k: nat, level: nat | k < |p| && RootedAt(p, k, level)
        ensures Depth(p, k) == level
      {
        DepthIsLevel(p, k, level);
      }
    }
    if DepthsRight(p) {
      forall k: nat | k < |p| && Rooted(p, k) && p[k].Some? && p[k].value >= k
        ensures p[p[k].value].None?
      {
        var level: nat :| RootedAt(p, k, level);
        assert Depth(p, k) == 1;
        assert RootedAt(p, p[k].value, 0);
      }
    }
  }

  /** A wrong indentation is always too shallow. */
  lemma {:induction false} NeverTooDeep(p: Parents, k: nat, level: nat)
    requires k < |p| && RootedAt(p, k, level)
    ensures Depth(p, k) <= level
    decreases level
  {
    if level > 0 && p[k].value < k {
      NeverTooDeep(p, p[k].value, level - 1);
    }
  }

  /** A grandchild listed before its parent is drawn one step too shallow. */
  lemma ShallowExample()
    ensures var p: Parents := [None, Some(2), Some(0)]; RootedAt(p, 1, 2) && Depth(p, 1) == 1
  {
    var p: Parents := [None, Some(2), Some(0)];
    assert RootedAt(p, 0, 0);
    assert RootedAt(p, 2, 1);
  }

  // ---------- The code ----------

  datatype Span = Span(id: string, parentId: Option<string>)

  ghost predicate DistinctIds(es: seq<Span>) {
    forall i, j :: 0 <= i < j < |es| ==> es[i].id != es[j].id
  }

  /**
    The entries of a JavaScript Map built from the spans: a repeated id keeps
    its first position and takes its last value.
   */
  function Entries(spans: seq<Span>): (es: seq<Span>)
    ensures DistinctIds(es)
    ensures forall i :: 0 <= i < |es| ==> es[i] in spans
    ensures DistinctIds(spans) ==> es == spans
  {
    if spans == [] then []
    else
      var n := |spans| - 1;
      var before, last := Entries(spans[..n]), spans[n];
      assert spans == spans[..n] + [last];
      Put(before, last)
  }

  function Put(es: seq<Span>, s: Span): (r: seq<Span>)
    requires DistinctIds(es)
    ensures DistinctIds(r)
    ensures forall i :: 0 <= i < |r| ==> r[i] in es || r[i] == s
    ensures (forall i :: 0 <= i < |es| ==> es[i].id != s.id) ==> r == es + [s]
  {
    if es == [] then [s]
    else if es[0].id == s.id then [s] + es[1..]
    else [es[0]] + Put(es[1..], s)
  }

  function Find(es: seq<Span>, id: string): (r: Option<nat>)
    ensures r.Some? ==> r.value < |es| && es[r.value].id == id
    ensures r.None? ==> forall e :: e in es ==> e.id != id
  {
    if es == [] then None
    else if es[0].id == id then Some(0)
    else
      match Find(es[1..], id)
      case None => None
      case Some(i) => Some(i + 1)
  }

  /** An absent, empty or unknown parent id makes a root. */
  function Links(es: seq<Span>): (p: Parents)
    ensures |p| == |es|
  {
    seq(|es|, (k: nat) requires k < |es| =>
      if es[k].parentId.Some? && es[k].parentId.value != "" then Find(es, es[k].parentId.value) else None)
  }

  // ---------- The links, by id ----------

  /** Entry `q` is the one that entry `k` names as its parent. */
  predicate Names(es: seq<Span>, k: nat, q: nat)
    requires k < |es| && q < |es|
  {
    es[k].parentId.Some? && es[k].parentId.value != "" && es[q].id == es[k].parentId.value
  }

  /** A span is linked to exactly the entry it names, and to none exactly when it names none. */
  lemma LinksExactly(es: seq<Span>, k: nat)
    requires DistinctIds(es) && k < |es|
    ensures forall q: nat :: q < |es| ==> (Links(es)[k] == Some(q) <==> Names(es, k, q))
    ensures Links(es)[k].None? <==> forall q: nat :: q < |es| ==> !Names(es, k, q)
  {
    var link := Links(es)[k];
    if link.Some? {
      assert Names(es, k, link.value);
    }
  }

  /** The chain of parent ids from `k` comes to an absent, empty or unknown id after `level` spans. */
  ghost predicate EndsAfter(es: seq<Span>, k: nat, level: nat)
    requires k < |es|
    decreases level
  {
    if level == 0 then forall q: nat :: q < |es| ==> !Names(es, k, q)
    else exists q: nat :: q < |es| && Names(es, k, q) && EndsAfter(es, q, level - 1)
  }

  lemma {:induction false} EndsAfterIffRooted(es: seq<Span>, k: nat, level: nat)
    requires DistinctIds(es) && k < |es|
    ensures EndsAfter(es, k, level) <==> RootedAt(Links(es), k, level)
    decreases level
  {
    LinksExactly(es, k);
    if level > 0 {
      if Links(es)[k].Some? {
        EndsAfterIffRooted(es, Links(es)[k].value, level - 1);
      }
      if q: nat :| q < |es| && Names(es, k, q) && EndsAfter(es, q, level - 1) {
        assert Links(es)[k] == Some(q);
      }
    }
  }

  ghost predicate Ends(es: seq<Span>, k: nat)
    requires k < |es|
  {
    exists level: nat :: EndsAfter(es, k, level)
  }

  /** Spans whose chain of parent ids ends are listed, by position in the entries, and no others, each once. */
  lemma ListedIffEnds(es: seq<Span>)
    requires DistinctIds(es)
    ensures Distinct(Listing(Links(es)))
    ensures forall k: nat :: k < |es| ==> (k in Listing(Links(es)) <==> Ends(es, k))
  {
    ListingExact(Links(es));
    forall k: nat | k < |es|
      ensures Rooted(Links(es), k) <==> Ends(es, k)
    {
      if level: nat :| RootedAt(Links(es), k, level) {
        EndsAfterIffRooted(es, k, level);
      }
      if level: nat :| EndsAfter(es, k, level) {
        EndsAfterIffRooted(es, k, level);
      }
    }
  }

  // ---------- What is shown, by id ----------

  predicate IsParent(a: Span, b: Span) {
    b.parentId == Some(a.id) && a.id != ""
  }

  ghost predicate HasParentIn(es: seq<Span>, b: Span) {
    exists q :: 0 <= q < |es| && IsParent(es[q], b)
  }

  /** The parent of `out[m]` stands in `[from, m)`. */
  ghost predicate ShownWithin(out: seq<Span>, from: nat, m: nat)
    requires m < |out|
  {
    exists l :: from <= l < m && IsParent(out[l], out[m])
  }

  /** `out[j]` stands below its parent with nothing between them but spans below that parent. */
  ghost predicate ShownUnderParent(out: seq<Span>, j: nat)
    requires j < |out|
  {
    exists i :: 0 <= i < j && IsParent(out[i], out[j]) && forall m :: i < m <= j ==> ShownWithin(out, i, m)
  }

  /**
    The waterfall of some entries: exactly the spans whose chain of parent ids
    ends, each once, every one with a parent among the entries standing inside
    that parent's contiguous block.
   */
  ghost predicate Waterfall(es: seq<Span>, out: seq<Span>) {
    (forall i, j :: 0 <= i < j < |out| ==> out[i].id != out[j].id) &&
    (forall i :: 0 <= i < |out| ==> out[i] in es) &&
    (forall k :: 0 <= k < |es| ==> (es[k] in out <==> Ends(es, k))) &&
    forall j :: 0 <= j < |out| && HasParentIn(es, out[j]) ==> ShownUnderParent(out, j)
  }

  ghost predicate Within(ks: seq<nat>, n: nat) {
    forall i :: 0 <= i < |ks| ==> ks[i] < n
  }

  ghost function At(es: seq<Span>, ks: seq<nat>): (out: seq<Span>)
    requires Within(ks, |es|)
    ensures |out| == |ks| && forall i :: 0 <= i < |ks| ==> out[i] == es[ks[i]]
  {
    seq(|ks|, i requires 0 <= i < |ks| => es[ks[i]])
  }

  lemma LinkedHasParent(es: seq<Span>, k: nat)
    requires DistinctIds(es) && k < |es|
    ensures Links(es)[k].Some? ==> HasParentIn(es, es[k])
  {
    if Links(es)[k].Some? {
      assert IsParent(es[Links(es)[k].value], es[k]);
    }
  }

  lemma ShownInBlock(es: seq<Span>, j: nat)
    requires DistinctIds(es) && j < |Listing(Links(es))| && HasParentIn(es, es[Listing(Links(es))[j]])
    ensures ShownUnderParent(At(es, Listing(Links(es))), j)
  {
    var p := Links(es);
    var ks := Listing(p);
    var out := At(es, ks);
    var i := StandsUnderParent(p, j);
    forall m | i < m <= j
      ensures ShownWithin(out, i, m)
    {
      assert ParentWithin(p, ks, i, m);
      var l :| i <= l < m && p[ks[m]] == Some(ks[l]);
      assert IsParent(out[l], out[m]);
    }
  }

  /** The listing of the links is the waterfall of the ids. */
  lemma ListingIsWaterfall(es: seq<Span>)
    requires DistinctIds(es)
    ensures Waterfall(es, At(es, Listing(Links(es))))
  {
    var ks := Listing(Links(es));
    var out := At(es, ks);
    ListedIffEnds(es);
    forall i, j | 0 <= i < j < |out|
      ensures out[i].id != out[j].id
    {
      assert ks[i] != ks[j];
    }
    forall k | 0 <= k < |es|
      ensures es[k] in out <==> Ends(es, k)
    {
    }
    forall j | 0 <= j < |out| && HasParentIn(es, out[j])
      ensures ShownUnderParent(out, j)
    {
      ShownInBlock(es, j);
    }
  }

  // ---------- The map of spans ----------

  lemma {:induction false} PutHas(es: seq<Span>, s: Span, x: Span)
    requires DistinctIds(es)
    ensures x in Put(es, s) <==> x == s || (x in es && x.id != s.id)
  {
    if es != [] {
      assert es == [es[0]] + es[1..];
      if es[0].id != s.id {
        PutHas(es[1..], s, x);
      }
    }
  }

  ghost predicate LastOf(spans: seq<Span>, x: Span) {
    exists i :: 0 <= i < |spans| && spans[i] == x && forall j :: i < j < |spans| ==> spans[j].id != x.id
  }

  /** The entries are the last span of every id. */
  lemma {:induction false} EntriesAreLast(spans: seq<Span>, x: Span)
    ensures
      x in Entries(spans) <==> LastOf(spans, x)
  {
    if spans != [] {
      var n := |spans| - 1;
      EntriesAreLast(spans[..n], x);
      PutHas(Entries(spans[..n]), spans[n], x);
      LastOccurrence(spans, x);
    }
  }

  /** Position of the first span with the id. */
  function FirstAt(spans: seq<Span>, id: string): nat {
    if spans == [] || spans[0].id == id then 0 else 1 + FirstAt(spans[1..], id)
  }

  lemma {:induction false} FirstAtMore(spans: seq<Span>, s: Span, id: string)
    ensures FirstAt(spans, id) <= |spans|
    ensures FirstAt(spans, id) < |spans| ==> FirstAt(spans + [s], id) == FirstAt(spans, id)
    ensures FirstAt(spans, id) == |spans| ==> FirstAt(spans + [s], id) >= |spans|
    ensures FirstAt(spans, id) < |spans| <==> exists i :: 0 <= i < |spans| && spans[i].id == id
  {
    if spans != [] {
      assert (spans + [s])[1..] == spans[1..] + [s];
      FirstAtMore(spans[1..], s, id);
      assert forall i :: 0 < i < |spans| ==> spans[i] == spans[1..][i - 1];
      if spans[0].id != id && FirstAt(spans[1..], id) < |spans| - 1 {
        var i :| 0 <= i < |spans| - 1 && spans[1..][i].id == id;
        assert spans[i + 1].id == id;
      }
    }
  }

  ghost predicate Ascends(spans: seq<Span>, es: seq<Span>) {
    (forall i :: 0 <= i < |es| ==> FirstAt(spans, es[i].id) < |spans|) &&
    forall i, j :: 0 <= i < j < |es| ==> FirstAt(spans, es[i].id) < FirstAt(spans, es[j].id)
  }

  ghost predicate HasId(es: seq<Span>, id: string) {
    exists i :: 0 <= i < |es| && es[i].id == id
  }

  /** Putting a span with a known id changes no id; with a new one it goes to the end. */
  lemma {:induction false} PutAt(es: seq<Span>, s: Span, i: nat)
    requires DistinctIds(es) && i < |es|
    ensures i < |Put(es, s)| && Put(es, s)[i].id == es[i].id
    decreases |es|
  {
    if es[0].id != s.id && i > 0 {
      PutAt(es[1..], s, i - 1);
    }
  }

  lemma {:induction false} PutSize(es: seq<Span>, s: Span)
    requires DistinctIds(es) && HasId(es, s.id)
    ensures |Put(es, s)| == |es|
  {
    if es[0].id != s.id {
      var i :| 0 <= i < |es| && es[i].id == s.id;
      assert es[1..][i - 1].id == s.id;
      PutSize(es[1..], s);
    }
  }

  lemma PutKeepsIds(es: seq<Span>, s: Span, id: string)
    requires DistinctIds(es)
    ensures HasId(Put(es, s), id) <==> HasId(es, id) || s.id == id
  {
    var r := Put(es, s);
    if HasId(es, s.id) {
      PutSize(es, s);
      forall i | 0 <= i < |es|
        ensures r[i].id == es[i].id
      {
        PutAt(es, s, i);
      }
    } else {
      HasIdMore(es, s, id);
    }
  }

  lemma HasIdMore(spans: seq<Span>, s: Span, id: string)
    ensures HasId(spans + [s], id) <==> HasId(spans, id) || s.id == id
  {
    var all := spans + [s];
    assert all[|spans|] == s;
    if i :| 0 <= i < |spans| && spans[i].id == id {
      assert all[i].id == id;
    }
  }

  /** Every id of the input has an entry, and no other. */
  lemma {:induction false} EntriesHaveIds(spans: seq<Span>, id: string)
    ensures HasId(Entries(spans), id) <==> HasId(spans, id)
  {
    if spans != [] {
      var before, s := spans[..|spans| - 1], spans[|spans| - 1];
      Unsnoc(spans);
      EntriesHaveIds(before, id);
      PutKeepsIds(Entries(before), s, id);
      HasIdMore(before, s, id);
    }
  }

  lemma AscendsMore(spans: seq<Span>, s: Span, es: seq<Span>, r: seq<Span>)
    requires Ascends(spans, es) && |r| == |es| && forall i :: 0 <= i < |es| ==> r[i].id == es[i].id
    ensures Ascends(spans + [s], r)
  {
    forall i | 0 <= i < |es|
      ensures FirstAt(spans + [s], r[i].id) == FirstAt(spans, es[i].id) < |spans|
    {
      FirstAtMore(spans, s, es[i].id);
    }
  }

  lemma {:induction false} AscendsSnoc(spans: seq<Span>, s: Span, r: seq<Span>)
    requires Ascends(spans + [s], r) && !HasId(spans, s.id)
    requires forall i :: 0 <= i < |r| ==> FirstAt(spans + [s], r[i].id) < |spans|
    ensures Ascends(spans + [s], r + [s])
  {
    FirstAtMore(spans, s, s.id);
    FirstAtMore(spans + [s], s, s.id);
    assert (spans + [s])[|spans|].id == s.id;
  }

  lemma {:induction false} FirstAtOld(spans: seq<Span>, s: Span, es: seq<Span>)
    requires Ascends(spans, es)
    ensures forall i :: 0 <= i < |es| ==> FirstAt(spans + [s], es[i].id) < |spans|
  {
    forall i | 0 <= i < |es|
      ensures FirstAt(spans + [s], es[i].id) < |spans|
    {
      FirstAtMore(spans, s, es[i].id);
    }
  }

  /** They come in the order in which their ids first appear. */
  lemma {:induction false} EntriesInOrder(spans: seq<Span>)
    ensures Ascends(spans, Entries(spans))
  {
    if spans != [] {
      var n := |spans| - 1;
      EntriesInOrder(spans[..n]);
      Unsnoc(spans);
      PutInOrder(spans[..n], spans[n], Entries(spans[..n]));
    }
  }

  lemma {:induction false} PutInOrder(spans: seq<Span>, s: Span, es: seq<Span>)
    requires es == Entries(spans) && Ascends(spans, es)
    ensures Ascends(spans + [s], Put(es, s))
  {
    if HasId(es, s.id) {
      PutSize(es, s);
      forall i | 0 <= i < |es|
        ensures Put(es, s)[i].id == es[i].id
      {
        PutAt(es, s, i);
      }
      AscendsMore(spans, s, es, Put(es, s));
    } else {
      EntriesHaveIds(spans, s.id);
      AscendsMore(spans, s, es, es);
      FirstAtOld(spans, s, es);
      AscendsSnoc(spans, s, es);
      assert Put(es, s) == es + [s];
    }
  }

  lemma LastOccurrence(spans: seq<Span>, x: Span)
    requires spans != []
    ensures
      var n := |spans| - 1;
      LastOf(spans, x) <==> x == spans[n] || (LastOf(spans[..n], x) && x.id != spans[n].id)
  {
    var n := |spans| - 1;
    if i :| 0 <= i < |spans| && spans[i] == x && forall j :: i < j < |spans| ==> spans[j].id != x.id {
      if i < n {
        assert spans[..n][i] == x;
        assert forall j :: i < j < n ==> spans[..n][j] == spans[j];
      }
    }
    if LastOf(spans[..n], x) && x.id != spans[n].id {
      var i :| 0 <= i < n && spans[..n][i] == x && forall j :: i < j < n ==> spans[..n][j].id != x.id;
      assert spans[i] == x;
      assert forall j :: i < j < n ==> spans[j] == spans[..n][j];
    }
  }

  class SpanNode {
    const span: Span
    var children: seq<SpanNode>
    var depth: nat

    constructor (span: Span)
      ensures this.span == span && children == [] && depth == 0
    {
      this.span, children, depth := span, [], 0;
    }
  }

  /** The nodes standing at the positions `ks`. */
  ghost function Pick(nodes: seq<SpanNode>, ks: seq<nat>): (r: seq<SpanNode>)
    requires Within(ks, |nodes|)
    ensures |r| == |ks| && forall i :: 0 <= i < |ks| ==> r[i] == nodes[ks[i]]
  {
    seq(|ks|, i requires 0 <= i < |ks| => nodes[ks[i]])
  }

  /** The nodes among the first `n` whose parent link is `q`. */
  ghost function Linked(nodes: seq<SpanNode>, p: Parents, q: Option<nat>, n: nat): seq<SpanNode>
    requires n <= |p| == |nodes|
  {
    if n == 0 then []
    else if p[n - 1] == q then Linked(nodes, p, q, n - 1) + [nodes[n - 1]]
    else Linked(nodes, p, q, n - 1)
  }

  lemma {:induction false} LinkedIsPick(nodes: seq<SpanNode>, p: Parents, q: Option<nat>, n: nat)
    requires n <= |p| == |nodes|
    ensures Linked(nodes, p, q, n) == Pick(nodes, Kids(p, q, n))
  {
    if n > 0 {
      LinkedIsPick(nodes, p, q, n - 1);
      if p[n - 1] == q {
        assert Pick(nodes, [n - 1]) == [nodes[n - 1]];
      }
    }
  }

  /** The state of the linking pass after the first `i` nodes. */
  ghost predicate ChildrenUpTo(nodes: seq<SpanNode>, p: Parents, i: nat)
    requires |nodes| == |p| && i <= |p|
    reads nodes
  {
    forall k {:trigger nodes[k].children} :: 0 <= k < |nodes| ==> nodes[k].children == Linked(nodes, p, Some(k), i)
  }

  /** `flatten` on the linked nodes; termination comes from the level of the spans listed. */
  method Flatten(ghost all: seq<SpanNode>, ghost p: Parents, ghost ks: seq<nat>, ghost level: nat, nodes: seq<SpanNode>)
    returns (out: seq<SpanNode>)
    requires |all| == |p| && ChildrenUpTo(all, p, |p|) && AtLevel(p, ks, level) && nodes == Pick(all, ks)
    ensures out == Pick(all, Preorder(p, ks, level))
    decreases |p| - level, |ks|
  {
    if nodes == [] {
      assert ks == [];
      out := [];
    } else {
      KidsLinked(all, p, ks, level);
      var below := Flatten(all, p, Kids(p, Some(ks[0]), |p|), level + 1, nodes[0].children);
      var rest := Flatten(all, p, ks[1..], level, nodes[1..]);
      out := [nodes[0]] + below + rest;
      Assembled(all, p, ks, level);
    }
  }

  lemma KidsLinked(all: seq<SpanNode>, p: Parents, ks: seq<nat>, level: nat)
    requires |all| == |p| && AtLevel(p, ks, level) && ks != []
    ensures level < |p| && AtLevel(p, Kids(p, Some(ks[0]), |p|), level + 1)
    ensures Linked(all, p, Some(ks[0]), |p|) == Pick(all, Kids(p, Some(ks[0]), |p|))
  {
    LevelBound(p, ks[0], level);
    LinkedIsPick(all, p, Some(ks[0]), |p|);
  }

  /** The nodes of a preorder: the first span's, those below it, the rest. */
  lemma Assembled(all: seq<SpanNode>, p: Parents, ks: seq<nat>, level: nat)
    requires |all| == |p| && AtLevel(p, ks, level) && ks != [] && AtLevel(p, Kids(p, Some(ks[0]), |p|), level + 1)
    ensures
      Pick(all, Preorder(p, ks, level)) ==
      [all[ks[0]]] + Pick(all, Preorder(p, Kids(p, Some(ks[0]), |p|), level + 1)) +
      Pick(all, Preorder(p, ks[1..], level))
  {
    PreorderStep(p, ks, level);
  }

  method MakeNodes(es: seq<Span>) returns (nodes: seq<SpanNode>)
    ensures |nodes| == |es| && Distinct(nodes) && fresh(set n | n in nodes)
    ensures forall k :: 0 <= k < |es| ==> nodes[k].span == es[k] && nodes[k].children == [] && nodes[k].depth == 0
  {
    nodes := [];
    for i := 0 to |es|
      invariant |nodes| == i && Distinct(nodes) && fresh(set n | n in nodes)
      invariant forall k :: 0 <= k < i ==>
        nodes[k].span == es[k] && nodes[k].children == [] && nodes[k].depth == 0
    {
      var n := new SpanNode(es[i]);
      nodes := nodes + [n];
    }
  }

  ghost predicate DepthsUpTo(nodes: seq<SpanNode>, p: Parents, i: nat)
    requires |nodes| == |p|
    reads nodes
  {
    forall k {:trigger nodes[k].depth} :: 0 <= k < |nodes| ==> nodes[k].depth == if k < i then Depth(p, k) else 0
  }

  /** One step of the linking pass: a node with a parent takes its depth from it so far... */
  method SetDepth(nodes: seq<SpanNode>, p: Parents, i: nat)
    requires Distinct(nodes) && i < |p| == |nodes| && ChildrenUpTo(nodes, p, i) && DepthsUpTo(nodes, p, i)
    modifies nodes
    ensures ChildrenUpTo(nodes, p, i) && DepthsUpTo(nodes, p, i + 1)
  {
    if p[i].Some? {
      nodes[i].depth := nodes[p[i].value].depth + 1;
    }
  }

  /** ... and is pushed onto its children. */
  method PushChild(nodes: seq<SpanNode>, p: Parents, i: nat)
    requires Distinct(nodes) && i < |p| == |nodes| && ChildrenUpTo(nodes, p, i) && DepthsUpTo(nodes, p, i + 1)
    modifies nodes
    ensures ChildrenUpTo(nodes, p, i + 1) && DepthsUpTo(nodes, p, i + 1)
  {
    if p[i].Some? {
      var parent := nodes[p[i].value];
      parent.children := parent.children + [nodes[i]];
    }
  }

  /** The whole pass: children in input order, depths as the order leaves them, roots set aside. */
  method LinkAll(nodes: seq<SpanNode>, p: Parents) returns (roots: seq<SpanNode>)
    requires Distinct(nodes) && |p| == |nodes| && ChildrenUpTo(nodes, p, 0) && DepthsUpTo(nodes, p, 0)
    modifies nodes
    ensures ChildrenUpTo(nodes, p, |p|) && DepthsUpTo(nodes, p, |p|)
    ensures roots == Linked(nodes, p, None, |p|)
  {
    roots := [];
    for i := 0 to |nodes|
      invariant ChildrenUpTo(nodes, p, i) && DepthsUpTo(nodes, p, i)
      invariant roots == Linked(nodes, p, None, i)
    {
      SetDepth(nodes, p, i);
      PushChild(nodes, p, i);
      if p[i].None? {
        roots := roots + [nodes[i]];
      }
    }
  }

  /**
    `buildTree`: nodes, then one pass that links each to its parent and sets
    its depth, then the flattening. The result is the preorder listing of the
    rooted spans, each carrying the depth characterised above.
   */
  method BuildTree(spans: seq<Span>) returns (out: seq<SpanNode>)
    ensures Waterfall(Entries(spans), Shown(out))
    ensures DepthsFromParents(Entries(spans), out)
    ensures |out| == |Listing(Links(Entries(spans)))|
    ensures forall i :: 0 <= i < |out| ==> out[i].span == Entries(spans)[Listing(Links(Entries(spans)))[i]]
    ensures forall i :: 0 <= i < |out| ==>
      out[i].depth == Depth(Links(Entries(spans)), Listing(Links(Entries(spans)))[i])
  {
    var es := Entries(spans);
    var nodes := MakeNodes(es);
    var p := Links(es);
    var roots := LinkAll(nodes, p);
    LinkedIsPick(nodes, p, None, |p|);
    out := Flatten(nodes, p, Kids(p, None, |p|), 0, roots);
    ListingIsWaterfall(es);
    assert Shown(out) == At(es, Listing(p));
    DepthsAre(es, out);
  }

  ghost function Shown(out: seq<SpanNode>): (spans: seq<Span>)
    ensures |spans| == |out| && forall i :: 0 <= i < |out| ==> spans[i] == out[i].span
  {
    seq(|out|, i requires 0 <= i < |out| => out[i].span)
  }

  /** A span without a parent has depth 0; one after its parent in the input one more than it; one before it 1. */
  ghost predicate DepthsFromParents(es: seq<Span>, out: seq<SpanNode>)
    reads out
  {
    (forall j :: 0 <= j < |out| && !HasParentIn(es, out[j].span) ==> out[j].depth == 0) &&
    forall i, j, q, k ::
      0 <= i < |out| && 0 <= j < |out| && 0 <= q < |es| && 0 <= k < |es| && out[i].span == es[q] &&
      out[j].span == es[k] && IsParent(es[q], es[k]) ==>
      out[j].depth == if q < k then out[i].depth + 1 else 1
  }

  lemma {:induction false} DepthsAre(es: seq<Span>, out: seq<SpanNode>)
    requires DistinctIds(es) && |out| == |Listing(Links(es))|
    requires forall i :: 0 <= i < |out| ==>
      out[i].span == es[Listing(Links(es))[i]] && out[i].depth == Depth(Links(es), Listing(Links(es))[i])
    ensures DepthsFromParents(es, out)
  {
    var ks := Listing(Links(es));
    forall j | 0 <= j < |out| && !HasParentIn(es, out[j].span)
      ensures out[j].depth == 0
    {
      LinkedHasParent(es, ks[j]);
    }
    forall i, j, q, k |
      0 <= i < |out| && 0 <= j < |out| && 0 <= q < |es| && 0 <= k < |es| && out[i].span == es[q] &&
      out[j].span == es[k] && IsParent(es[q], es[k])
      ensures out[j].depth == if q < k then out[i].depth + 1 else 1
    {
      SameEntry(es, ks[i], q);
      SameEntry(es, ks[j], k);
      DepthFromParent(es, q, k);
    }
  }

  lemma SameEntry(es: seq<Span>, a: nat, b: nat)
    requires DistinctIds(es) && a < |es| && b < |es| && es[a] == es[b]
    ensures a == b
  {
  }

  lemma DepthFromParent(es: seq<Span>, q: nat, k: nat)
    requires DistinctIds(es) && q < |es| && k < |es| && IsParent(es[q], es[k])
    ensures Depth(Links(es), k) == if q < k then Depth(Links(es), q) + 1 else 1
  {
  }
}
