/**
  The billing sync: a provider's line items upserted into `cost_line_items`
  under the unique index on (credential, service, region or '', day).
 */
module Billing {
  import opened Wrappers
  import Tags

  type Id = string

  datatype Item = Item(
    service: string,
    region: Option<string>,
    day: int,
    amount: real,
    currency: string,
    tags: map<string, string>,
    raw: string)

  datatype Row = Row(credential: Id, item: Item, syncedAt: int)

  datatype Key = Key(credential: Id, service: string, region: string, day: int)

  /** The unique index: region compared with null as ''. */
  function IndexKey(credential: Id, service: string, region: Option<string>, day: int): Key {
    Key(credential, service, if region.Some? then region.value else "", day)
  }

  function KeyFor(credential: Id, i: Item): Key {
    IndexKey(credential, i.service, i.region, i.day)
  }

  /** Two items of one credential collide exactly when service, day and region, with none as '', agree. */
  lemma CollideIff(credential: Id, i: Item, j: Item)
    ensures
      KeyFor(credential, i) == KeyFor(credential, j) <==>
      i.service == j.service && i.day == j.day &&
      (i.region == j.region || (i.region in {None, Some("")} && j.region in {None, Some("")}))
  {
  }

  /** Items of different credentials never do. */
  lemma CredentialsApart(a: Id, b: Id, i: Item, j: Item)
    ensures KeyFor(a, i) == KeyFor(b, j) ==> a == b
  {
  }

  function KeyOf(r: Row): Key {
    KeyFor(r.credential, r.item)
  }

  function Amounts(rows: seq<Row>): (vs: seq<real>)
    ensures |vs| == |rows| && forall i :: 0 <= i < |rows| ==> vs[i] == rows[i].item.amount
  {
    seq(|rows|, i requires 0 <= i < |rows| => rows[i].item.amount)
  }

  ghost predicate UniqueKeys(t: seq<Row>) {
    forall i, j :: 0 <= i < j < |t| ==> KeyOf(t[i]) != KeyOf(t[j])
  }

  // ---------- Upsert ----------

  function Find(t: seq<Row>, k: Key): (r: Option<nat>)
    ensures r.Some? ==> r.value < |t| && KeyOf(t[r.value]) == k
    ensures r.None? ==> forall i :: 0 <= i < |t| ==> KeyOf(t[i]) != k
  {
    FindLast(t, r => KeyOf(r) == k)
  }

  lemma FindUnique(t: seq<Row>, p: nat)
    requires UniqueKeys(t) && p < |t|
    ensures Find(t, KeyOf(t[p])) == Some(p)
  {
  }

  /** DO UPDATE: amount, currency, tags and raw change; the key columns, region included, stay as stored. */
  function Refresh(r: Row, i: Item, now: int): Row {
    r.(item := r.item.(amount := i.amount, currency := i.currency, tags := i.tags, raw := i.raw), syncedAt := now)
  }

  function Upsert(t: seq<Row>, credential: Id, i: Item, now: int): seq<Row> {
    match Find(t, KeyFor(credential, i))
    case Some(p) => t[p := Refresh(t[p], i, now)]
    case None => t + [Row(credential, i, now)]
  }

  function Sync(t: seq<Row>, credential: Id, items: seq<Item>, now: int): seq<Row> {
    if items == [] then t
    else Upsert(Sync(t, credential, items[..|items| - 1], now), credential, items[|items| - 1], now)
  }

  // ---------- What a sync means ----------

  /** The last item synced under a key. */
  function Last(credential: Id, items: seq<Item>, k: Key): Option<Item> {
    if items == [] then None
    else
      var i := items[|items| - 1];
      if KeyFor(credential, i) == k then Some(i) else Last(credential, items[..|items| - 1], k)
  }

  /** A stored row after the sync: refreshed by the last item under its key, or untouched. */
  function Overlay(r: Row, credential: Id, items: seq<Item>, now: int): Row {
    match Last(credential, items, KeyOf(r))
    case Some(i) => Refresh(r, i, now)
    case None => r
  }

  lemma UpsertKeeps(t: seq<Row>, credential: Id, i: Item, now: int)
    requires UniqueKeys(t)
    ensures UniqueKeys(Upsert(t, credential, i, now))
  {
  }

  /** Rows that were there stay where they were, each overlaid by the last item under its key. */
  lemma {:induction false} SyncOverlays(t: seq<Row>, credential: Id, items: seq<Item>, now: int)
    requires UniqueKeys(t)
    ensures UniqueKeys(Sync(t, credential, items, now)) && |t| <= |Sync(t, credential, items, now)|
    ensures forall p :: 0 <= p < |t| ==> Sync(t, credential, items, now)[p] == Overlay(t[p], credential, items, now)
  {
    if items != [] {
      var n := |items| - 1;
      SyncOverlays(t, credential, items[..n], now);
      UpsertKeeps(Sync(t, credential, items[..n], now), credential, items[n], now);
    }
  }

  /** What a row holds besides its key. */
  predicate Carries(r: Row, i: Item, now: int) {
    r.item.amount == i.amount && r.item.currency == i.currency && r.item.tags == i.tags && r.item.raw == i.raw &&
    r.syncedAt == now
  }

  lemma UpsertFinds(t: seq<Row>, credential: Id, i: Item, now: int, k: Key)
    requires k == KeyFor(credential, i) || Find(t, k).Some?
    ensures Find(Upsert(t, credential, i, now), k).Some?
  {
    var t' := Upsert(t, credential, i, now);
    var f := Find(t, k);
    var at := if f.Some? then f.value else |t|;
    assert KeyOf(t'[at]) == k;
  }

  /** No key is lost, and every synced key is there. */
  lemma {:induction false} SyncFinds(t: seq<Row>, credential: Id, items: seq<Item>, now: int, k: Key)
    requires Last(credential, items, k).Some? || Find(t, k).Some?
    ensures Find(Sync(t, credential, items, now), k).Some?
  {
    if items != [] {
      var n := |items| - 1;
      if KeyFor(credential, items[n]) != k {
        SyncFinds(t, credential, items[..n], now, k);
      }
      UpsertFinds(Sync(t, credential, items[..n], now), credential, items[n], now, k);
    }
  }

  /** A row that was not there has a key that was missing, and holds the last item synced under it. */
  lemma {:induction false} SyncAdds(t: seq<Row>, credential: Id, items: seq<Item>, now: int, p: nat)
    requires UniqueKeys(t) && |t| <= p < |Sync(t, credential, items, now)|
    ensures
      var r := Sync(t, credential, items, now)[p];
      Find(t, KeyOf(r)).None? && Last(credential, items, KeyOf(r)).Some? &&
      Carries(r, Last(credential, items, KeyOf(r)).value, now)
  {
    var n := |items| - 1;
    var mid := Sync(t, credential, items[..n], now);
    if p < |mid| {
      SyncAdds(t, credential, items[..n], now, p);
      SyncOverlays(t, credential, items[..n], now);
      FindUnique(mid, p);
    } else {
      var f := Find(t, KeyFor(credential, items[n]));
      if f.Some? {
        SyncFinds(t, credential, items[..n], now, KeyFor(credential, items[n]));
      }
    }
  }

  /**
    A keyed last-write-wins fold. After a sync, a key that some item had holds
    its last item's values; every other key holds what it held.
   */
  lemma {:induction false} SyncIsLastWriteWins(t: seq<Row>, credential: Id, items: seq<Item>, now: int, k: Key)
    requires UniqueKeys(t)
    ensures UniqueKeys(Sync(t, credential, items, now))
    ensures
      var t' := Sync(t, credential, items, now);
      var last, f, f' := Last(credential, items, k), Find(t, k), Find(t', k);
      if last.Some? then f'.Some? && Carries(t'[f'.value], last.value, now)
      else if f.Some? then f'.Some? && t'[f'.value] == t[f.value]
      else f'.None?
  {
    SyncOverlays(t, credential, items, now);
    if Last(credential, items, k).Some? || Find(t, k).Some? {
      SyncFinds(t, credential, items, now, k);
    }
    if Find(Sync(t, credential, items, now), k).Some? {
      SyncedAt(t, credential, items, now, k);
    }
  }

  /** The row a key is found in: an overlaid old one or an added one. */
  lemma {:induction false} SyncedAt(t: seq<Row>, credential: Id, items: seq<Item>, now: int, k: Key)
    requires UniqueKeys(t) && Find(Sync(t, credential, items, now), k).Some?
    ensures
      var r, last, f := Sync(t, credential, items, now)[Find(Sync(t, credential, items, now), k).value],
                        Last(credential, items, k), Find(t, k);
      if last.Some? then Carries(r, last.value, now) else f.Some? && r == t[f.value]
  {
    var p := Find(Sync(t, credential, items, now), k).value;
    SyncOverlays(t, credential, items, now);
    if p < |t| {
      FindUnique(t, p);
    } else {
      SyncAdds(t, credential, items, now, p);
    }
  }

  lemma {:induction false} SyncPresent(t: seq<Row>, credential: Id, items: seq<Item>, now: int)
    requires UniqueKeys(t) && forall i :: 0 <= i < |items| ==> Find(t, KeyFor(credential, items[i])).Some?
    ensures |Sync(t, credential, items, now)| == |t|
  {
    if items != [] {
      var n := |items| - 1;
      SyncPresent(t, credential, items[..n], now);
      SyncOverlays(t, credential, items[..n], now);
      var f := Find(t, KeyFor(credential, items[n]));
      assert KeyOf(Sync(t, credential, items[..n], now)[f.value]) == KeyFor(credential, items[n]);
    }
  }

  lemma {:induction false} LastOfItem(credential: Id, items: seq<Item>, i: nat)
    requires i < |items|
    ensures Last(credential, items, KeyFor(credential, items[i])).Some?
  {
    if i < |items| - 1 {
      LastOfItem(credential, items[..|items| - 1], i);
    }
  }

  /** Syncing the same items again changes nothing but the sync time. */
  lemma {:induction false} SyncRepeats(t: seq<Row>, credential: Id, items: seq<Item>, now: int, later: int)
    requires UniqueKeys(t)
    ensures
      var once := Sync(t, credential, items, now);
      var twice := Sync(once, credential, items, later);
      |twice| == |once| && forall p :: 0 <= p < |once| ==> twice[p] == once[p].(syncedAt := twice[p].syncedAt)
  {
    var once := Sync(t, credential, items, now);
    SyncOverlays(t, credential, items, now);
    forall i | 0 <= i < |items|
      ensures Find(once, KeyFor(credential, items[i])).Some?
    {
      LastOfItem(credential, items, i);
      SyncFinds(t, credential, items, now, KeyFor(credential, items[i]));
    }
    SyncPresent(once, credential, items, later);
    SyncOverlays(once, credential, items, later);
    forall p | 0 <= p < |once|
      ensures
        var again := Sync(once, credential, items, later)[p];
        again == once[p].(syncedAt := again.syncedAt)
    {
      if p >= |t| {
        SyncAdds(t, credential, items, now, p);
      }
    }
  }

  // ---------- The service ----------

  /** A line item as the provider returns it, with raw tags. */
  datatype RawItem = RawItem(item: Item, rawTags: Option<seq<Tags.Entry>>)

  function Normalise(raw: RawItem): Item {
    raw.item.(tags := Tags.Normal(if raw.rawTags.Some? then raw.rawTags.value else []))
  }

  function NormaliseAll(raws: seq<RawItem>): seq<Item> {
    if raws == [] then [] else NormaliseAll(raws[..|raws| - 1]) + [Normalise(raws[|raws| - 1])]
  }

  /** Item by item, only the tags change. */
  lemma {:induction false} NormaliseAllExactly(raws: seq<RawItem>, i: nat)
    requires i < |raws|
    ensures
      var items := NormaliseAll(raws);
      |items| == |raws| && items[i] == raws[i].item.(tags := items[i].tags) &&
      items[i].tags == Tags.Normal(if raws[i].rawTags.Some? then raws[i].rawTags.value else [])
    decreases |raws|
  {
    var n := |raws| - 1;
    if n > 0 {
      NormaliseAllExactly(raws[..n], if i < n then i else 0);
    }
  }

  class Store {
    var rows: seq<Row>

    constructor ()
      ensures rows == []
    {
      rows := [];
    }

    /**
      `syncCredential`: in one transaction, upsert every line item with its
      normalised tags. If the transaction fails nothing has changed.
     */
    method SyncCredential(credential: Id, raws: seq<RawItem>, now: int, commits: bool) returns (count: nat)
      modifies this
      ensures rows == if commits then Sync(old(rows), credential, NormaliseAll(raws), now) else old(rows)
      ensures count == if commits then |raws| else 0
    {
      var snapshot := rows;
      for k := 0 to |raws|
        invariant rows == Sync(snapshot, credential, NormaliseAll(raws[..k]), now)
      {
        var tags := Tags.NormalizeAllocationTags(raws[k].rawTags);
        var item := raws[k].item.(tags := tags);
        assert raws[..k + 1][..k] == raws[..k];
        rows := Upsert(rows, credential, item, now);
      }
      assert raws[..|raws|] == raws;
      count := |raws|;
      if !commits {
        rows := snapshot;
        count := 0;
      }
    }
  }

  // ---------- Stored tags are clean ----------

  ghost predicate TagsClean(t: seq<Row>) {
    forall p :: 0 <= p < |t| ==> Tags.Clean(t[p].item.tags)
  }

  lemma NormaliseCleans(raw: RawItem)
    ensures Tags.Clean(Normalise(raw).tags)
  {
    Tags.NormalMeans(if raw.rawTags.Some? then raw.rawTags.value else []);
  }

  lemma {:induction false} SyncKeepsTagsClean(t: seq<Row>, credential: Id, raws: seq<RawItem>, now: int)
    requires TagsClean(t)
    ensures TagsClean(Sync(t, credential, NormaliseAll(raws), now))
  {
    if raws != [] {
      var n := |raws| - 1;
      var items, i := NormaliseAll(raws[..n]), Normalise(raws[n]);
      SyncKeepsTagsClean(t, credential, raws[..n], now);
      NormaliseCleans(raws[n]);
    }
  }
}
