/** Spend broken down by the value of one allocation tag. */
module Allocation {
  import opened Wrappers
  import opened Sums
  import opened Grouping
  import Billing
  import Tags

  const UNTAGGED := "(untagged)"

  type Row = Billing.Row

  datatype Share = Share(tagValue: string, amount: real)

  datatype Window = Window(from: Option<int>, to: Option<int>)

  /** Without a start the window begins with the month; without an end it has none. */
  predicate InWindow(day: int, win: Window, monthStart: int) {
    (if win.from.Some? then day >= win.from.value else day >= monthStart) &&
    (win.to.Some? ==> day <= win.to.value)
  }

  function Select(rows: seq<Row>, win: Window, monthStart: int): seq<Row> {
    if rows == [] then []
    else
      var n := |rows| - 1;
      var before := Select(rows[..n], win, monthStart);
      if InWindow(rows[n].item.day, win, monthStart) then before + [rows[n]] else before
  }

  function TagOf(r: Row, key: string): string {
    if key in r.item.tags && r.item.tags[key] != "" then r.item.tags[key] else UNTAGGED
  }

  function TagColumn(rows: seq<Row>, key: string): (ts: seq<string>)
    ensures |ts| == |rows| && forall i :: 0 <= i < |rows| ==> ts[i] == TagOf(rows[i], key)
  {
    seq(|rows|, i requires 0 <= i < |rows| => TagOf(rows[i], key))
  }

  function GroupBy(ts: seq<string>, vs: seq<real>, ds: seq<string>): (ss: seq<Share>)
    requires |ts| == |vs|
    ensures |ss| == |ds|
  {
    if ds == [] then []
    else
      var n := |ds| - 1;
      GroupBy(ts, vs, ds[..n]) + [Share(ds[n], Sum(Bucket(ts, vs, ds[n])))]
  }

  /** The GROUP BY of the query, in order of first appearance. */
  function Grouped(rows: seq<Row>, key: string): seq<Share> {
    GroupBy(TagColumn(rows, key), Billing.Amounts(rows), Keys(TagColumn(rows, key)))
  }

  // ---------- ORDER BY amount DESC ----------

  predicate Descending(ss: seq<Share>) {
    forall i, j :: 0 <= i < j < |ss| ==> ss[i].amount >= ss[j].amount
  }

  function Place(ss: seq<Share>, s: Share): seq<Share> {
    if ss == [] then [s]
    else if s.amount >= ss[0].amount then [s] + ss
    else [ss[0]] + Place(ss[1..], s)
  }

  function Sorted(ss: seq<Share>): seq<Share> {
    if ss == [] then [] else Place(Sorted(ss[..|ss| - 1]), ss[|ss| - 1])
  }

  ghost predicate AtMost(ss: seq<Share>, bound: real) {
    forall i :: 0 <= i < |ss| ==> ss[i].amount <= bound
  }

  lemma {:induction false} PlaceKeeps(ss: seq<Share>, s: Share)
    ensures multiset(Place(ss, s)) == multiset(ss) + multiset{s}
  {
    if ss != [] && s.amount < ss[0].amount {
      PlaceKeeps(ss[1..], s);
      assert ss == [ss[0]] + ss[1..];
    }
  }

  lemma {:induction false} PlaceBelow(ss: seq<Share>, s: Share, bound: real)
    requires AtMost(ss, bound) && s.amount <= bound
    ensures AtMost(Place(ss, s), bound)
  {
    if ss != [] && s.amount < ss[0].amount {
      PlaceBelow(ss[1..], s, bound);
    }
  }

  lemma {:induction false} PlaceDescends(ss: seq<Share>, s: Share)
    requires Descending(ss)
    ensures Descending(Place(ss, s))
  {
    if ss != [] && s.amount < ss[0].amount {
      PlaceDescends(ss[1..], s);
      PlaceBelow(ss[1..], s, ss[0].amount);
    }
  }

  /** Largest first, and a permutation. */
  lemma {:induction false} SortedSorts(ss: seq<Share>)
    ensures Descending(Sorted(ss)) && multiset(Sorted(ss)) == multiset(ss)
  {
    if ss != [] {
      var n := |ss| - 1;
      SortedSorts(ss[..n]);
      PlaceDescends(Sorted(ss[..n]), ss[n]);
      PlaceKeeps(Sorted(ss[..n]), ss[n]);
      Unsnoc(ss);
    }
  }

  // ---------- Conservation ----------

  function AmountOf(): Share -> real {
    (s: Share) => s.amount
  }

  lemma {:induction false} GroupsTotal(ts: seq<string>, vs: seq<real>, ds: seq<string>)
    requires |ts| == |vs|
    ensures SumMap(GroupBy(ts, vs, ds), AmountOf()) == TotalOver(ts, vs, ds)
  {
    if ds != [] {
      GroupsTotal(ts, vs, ds[..|ds| - 1]);
      assert GroupBy(ts, vs, ds)[..|ds| - 1] == GroupBy(ts, vs, ds[..|ds| - 1]);
    }
  }

  /** Whatever the tag key, the shares add up to the spend of the window. */
  lemma {:induction false} SharesConserveSpend(rows: seq<Row>, key: string)
    ensures SumMap(Sorted(Grouped(rows, key)), AmountOf()) == Sum(Billing.Amounts(rows))
  {
    var ts, vs := TagColumn(rows, key), Billing.Amounts(rows);
    GroupsTotal(ts, vs, Keys(ts));
    TotalsConserved(ts, vs, Keys(ts));
    SortedSorts(Grouped(rows, key));
    SumMapPermuted(Sorted(Grouped(rows, key)), Grouped(rows, key), AmountOf());
  }

  /** `allocationByTag`: the shares, largest first, and their total. */
  method AllocationByTag(rows: seq<Row>, key: string, win: Window, monthStart: int)
    returns (total: real, shares: seq<Share>)
    ensures shares == Sorted(Grouped(Select(rows, win, monthStart), key)) && Descending(shares)
    ensures total == Sum(Billing.Amounts(Select(rows, win, monthStart)))
  {
    var selected := Select(rows, win, monthStart);
    shares := Sorted(Grouped(selected, key));
    total := 0.0;
    for i := 0 to |shares|
      invariant total == SumMap(shares[..i], AmountOf())
    {
      total := total + shares[i].amount;
      assert shares[..i + 1][..i] == shares[..i];
    }
    assert shares[..|shares|] == shares;
    SharesConserveSpend(selected, key);
    SortedSorts(Grouped(selected, key));
  }

  lemma {:induction false} GroupByAt(ts: seq<string>, vs: seq<real>, ds: seq<string>, i: nat)
    requires |ts| == |vs| && i < |ds|
    ensures GroupBy(ts, vs, ds)[i] == Share(ds[i], Sum(Bucket(ts, vs, ds[i])))
  {
    if i < |ds| - 1 {
      GroupByAt(ts, vs, ds[..|ds| - 1], i);
    }
  }

  /** The shares partition the line items: one share per tag value that occurs, each with its own items' sum. */
  lemma {:induction false} SharesPartition(rows: seq<Row>, key: string)
    ensures
      var ts, vs, g := TagColumn(rows, key), Billing.Amounts(rows), Grouped(rows, key);
      (forall i, j :: 0 <= i < j < |g| ==> g[i].tagValue != g[j].tagValue) &&
      (forall i :: 0 <= i < |g| ==> g[i].tagValue in ts && g[i].amount == Sum(Bucket(ts, vs, g[i].tagValue))) &&
      (forall r :: 0 <= r < |rows| ==> exists i :: 0 <= i < |g| && g[i].tagValue == TagOf(rows[r], key))
  {
    var ts, vs, ds, g := TagColumn(rows, key), Billing.Amounts(rows), Keys(TagColumn(rows, key)), Grouped(rows, key);
    forall i | 0 <= i < |g|
      ensures g[i] == Share(ds[i], Sum(Bucket(ts, vs, ds[i])))
    {
      GroupByAt(ts, vs, ds, i);
    }
    forall r | 0 <= r < |rows|
      ensures exists i :: 0 <= i < |g| && g[i].tagValue == TagOf(rows[r], key)
    {
      assert ts[r] in ds;
      var i :| 0 <= i < |ds| && ds[i] == ts[r];
      assert g[i].tagValue == ts[r];
    }
  }

  // ---------- Reconciliation with the dashboard ----------

  /** The dashboard's month-to-date: everything from the first of the month on. */
  function MonthToDate(rows: seq<Row>, monthStart: int): real {
    if rows == [] then 0.0
    else
      var n := |rows| - 1;
      MonthToDate(rows[..n], monthStart) + if rows[n].item.day >= monthStart then rows[n].item.amount else 0.0
  }

  lemma {:induction false} DefaultWindowIsMonthToDate(rows: seq<Row>, monthStart: int)
    ensures Sum(Billing.Amounts(Select(rows, Window(None, None), monthStart))) == MonthToDate(rows, monthStart)
  {
    if rows != [] {
      var n := |rows| - 1;
      var before := Select(rows[..n], Window(None, None), monthStart);
      DefaultWindowIsMonthToDate(rows[..n], monthStart);
      assert Billing.Amounts(before + [rows[n]]) == Billing.Amounts(before) + [rows[n].item.amount];
      SumSnoc(Billing.Amounts(before), rows[n].item.amount);
    }
  }

  /** On synced rows `(untagged)` means exactly that the key is missing, or that it was literally tagged so. */
  lemma UntaggedExactly(t: seq<Row>, p: nat, key: string)
    requires Billing.TagsClean(t) && p < |t|
    ensures TagOf(t[p], key) == UNTAGGED <==> key !in t[p].item.tags || t[p].item.tags[key] == UNTAGGED
  {
    assert Tags.Clean(t[p].item.tags);
  }

  /** The window keeps every occurrence of an item on its days, counted from the month's start by default. */
  lemma {:induction false} SelectExactly(rows: seq<Row>, win: Window, monthStart: int, r: Row)
    ensures
      var start := if win.from.Some? then win.from.value else monthStart;
      multiset(Select(rows, win, monthStart))[r] ==
      if start <= r.item.day && (win.to.None? || r.item.day <= win.to.value) then multiset(rows)[r] else 0
  {
    if rows != [] {
      SelectExactly(rows[..|rows| - 1], win, monthStart, r);
      Unsnoc(rows);
    }
  }

  /** What an item adds to a tag value: its amount if it carries the value, or lacks one for `(untagged)`. */
  function Contribution(r: Row, key: string, value: string): real {
    if key in r.item.tags && r.item.tags[key] != "" then (if r.item.tags[key] == value then r.item.amount else 0.0)
    else if value == "(untagged)" then r.item.amount
    else 0.0
  }

  function Contributions(rows: seq<Row>, key: string, value: string): real {
    if rows == [] then 0.0
    else Contributions(rows[..|rows| - 1], key, value) + Contribution(rows[|rows| - 1], key, value)
  }

  lemma {:induction false} ShareExactly(rows: seq<Row>, key: string, value: string)
    ensures Sum(Bucket(TagColumn(rows, key), Billing.Amounts(rows), value)) == Contributions(rows, key, value)
  {
    if rows != [] {
      var n := |rows| - 1;
      var ts, vs := TagColumn(rows, key), Billing.Amounts(rows);
      ShareExactly(rows[..n], key, value);
      assert ts[..n] == TagColumn(rows[..n], key) && vs[..n] == Billing.Amounts(rows[..n]);
      SumSnoc(Bucket(ts[..n], vs[..n], value), vs[n]);
    }
  }

  /** Each share is the sum of what the items add to its value, and every item adds its amount to one share. */
  lemma {:induction false} SharesExactly(rows: seq<Row>, key: string, i: nat)
    requires i < |Grouped(rows, key)|
    ensures
      var share := Grouped(rows, key)[i];
      share.amount == Contributions(rows, key, share.tagValue)
  {
    SharesPartition(rows, key);
    ShareExactly(rows, key, Grouped(rows, key)[i].tagValue);
  }
}
