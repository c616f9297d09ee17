/** Daily spend anomalies: the test, the query that feeds it, and the deduplicated record. */
module Anomaly {
  import opened Wrappers
  import opened Sums
  import opened Grouping
  import Billing
  import Pace

  const LOOKBACK_DAYS := 14

  type Id = string
  type Row = Billing.Row

  // ---------- The test ----------

  datatype Thresholds = Thresholds(minDeviationPct: real, minAbsoluteIncrease: real)

  const DEFAULT := Thresholds(50.0, 5.0)

  /** Percentage above the baseline; a baseline of about zero makes any spend a large deviation. */
  function Deviation(baseline: real, actual: real): real {
    if baseline > 0.01 then Times((actual - baseline) / baseline, 100.0)
    else if actual > 0.0 then 1000.0
    else 0.0
  }

  predicate Flagged(baseline: real, actual: real, t: Thresholds) {
    actual - baseline >= t.minAbsoluteIncrease && Deviation(baseline, actual) >= t.minDeviationPct
  }

  /** `Math.round`: halves go up. */
  function Round(x: real): int {
    (x + 0.5).Floor
  }

  /** `detectAnomaly`. */
  function DetectAnomaly(baseline: real, actual: real, t: Thresholds): (bool, int) {
    (Flagged(baseline, actual, t), Round(Deviation(baseline, actual)))
  }

  /**
    The flag in the inputs: the increase reaches the floor, and in percent of
    the baseline the threshold; a baseline of at most a cent counts any spend
    as 1000 percent.
   */
  lemma FlaggedExactly(b: real, a: real, t: Thresholds)
    ensures
      DetectAnomaly(b, a, t).0 <==>
      a - b >= t.minAbsoluteIncrease &&
      if b > 0.01 then 100.0 * (a - b) >= Times(t.minDeviationPct, b)
      else (if a > 0.0 then 1000.0 else 0.0) >= t.minDeviationPct
  {
    if b > 0.01 {
      DivTimes(a - b, b);
      Pace.ScaledAtLeast((a - b) / b, a - b, b, t.minDeviationPct);
    }
  }

  /** The percentage reported, times the baseline, is a hundred times the increase, to the nearest whole. */
  lemma PercentageExactly(b: real, a: real, t: Thresholds)
    ensures
      var pct := DetectAnomaly(b, a, t).1 as real;
      if b > 0.01 then
        Times(pct - 0.5, b) <= 100.0 * (a - b) < Times(pct + 0.5, b)
      else pct == if a > 0.0 then 1000.0 else 0.0
  {
    if b > 0.01 {
      var q := (a - b) / b;
      DivTimes(a - b, b);
      var pct := DetectAnomaly(b, a, t).1 as real;
      Pace.ScaledAtLeast(q, a - b, b, pct - 0.5);
      Pace.ScaledAtLeast(q, a - b, b, pct + 0.5);
    }
  }

  // ---------- Monotonicity ----------

  lemma DeviationInActual(b: real, a: real, a': real)
    requires a <= a'
    ensures Deviation(b, a) <= Deviation(b, a')
  {
  }

  /** More spend on the latest day never clears the flag, whatever the thresholds. */
  lemma MoreSpendStaysFlagged(b: real, a: real, a': real, t: Thresholds)
    requires a <= a' && Flagged(b, a, t)
    ensures Flagged(b, a', t)
  {
    DeviationInActual(b, a, a');
  }

  lemma RatioInBaseline(a: real, b: real, b': real)
    requires a >= 0.0 && 0.0 < b' <= b
    ensures (a - b) / b <= (a - b') / b'
  {
  }

  ghost predicate LessPriorStaysFlagged(t: Thresholds) {
    forall b, b', a :: a >= 0.0 && b' <= b && Flagged(b, a, t) ==> Flagged(b', a, t)
  }

  lemma LowerBaseline(b: real, b': real, a: real, t: Thresholds)
    requires t.minDeviationPct <= 1000.0 && a >= 0.0 && b' <= b && Flagged(b, a, t)
    ensures Flagged(b', a, t)
  {
    if b' > 0.01 {
      RatioInBaseline(a, b, b');
      Pace.TimesMonotone((a - b) / b, (a - b') / b', 100.0);
    } else if b > 0.01 && a == 0.0 {
      assert Deviation(b, a) <= 0.0 by {
        DivTimes(a - b, b);
        assert Times((a - b) / b, b) == -b;
      }
    }
  }

  /**
    Less spend before the latest day never clears the flag, even across the
    near-zero baseline, exactly for thresholds of at most 1000 percent: above
    that the fixed 1000 given to a zero baseline is too small.
   */
  lemma LessPriorStaysFlaggedIff(t: Thresholds)
    ensures LessPriorStaysFlagged(t) <==> t.minDeviationPct <= 1000.0
  {
    if t.minDeviationPct <= 1000.0 {
      forall b, b', a | a >= 0.0 && b' <= b && Flagged(b, a, t)
        ensures Flagged(b', a, t)
      {
        LowerBaseline(b, b', a, t);
      }
    } else {
      var x := if t.minAbsoluteIncrease > t.minDeviationPct then t.minAbsoluteIncrease else t.minDeviationPct;
      assert Deviation(1.0, 1.0 + x) == Times(x, 100.0) by {
        assert (1.0 + x - 1.0) / 1.0 == x;
      }
      assert Times(x, 100.0) >= x;
      assert Flagged(1.0, 1.0 + x, t) && !Flagged(0.0, 1.0 + x, t);
    }
  }

  // ---------- Constant spend ----------

  lemma {:induction false} SumOfConstant(xs: seq<real>, s: real, k: real)
    requires k == |xs| as real && forall i :: 0 <= i < |xs| ==> xs[i] == s
    ensures Sum(xs) == Times(k, s)
  {
    if xs == [] {
      assert Times(0.0, s) == 0.0;
    } else {
      SumOfConstant(xs[..|xs| - 1], s, k - 1.0);
      assert Times(k - 1.0, s) + s == Times(k, s) by {
        assert (k - 1.0) * s == k * s - s;
      }
    }
  }

  lemma ConstantRatio(s: real, k: real, b: real)
    requires b > 0.01 && s > 0.0 && 14.0 * b == Times(k, s)
    ensures Times((s - b) / b, 100.0) >= 50.0 <==> 3.0 * k <= 28.0
  {
    var q := (s - b) / b;
    DivTimes(s - b, b);
    HalfRatio(q, b, s);
    assert 28.0 * s - 3.0 * Times(k, s) == Times(28.0 - 3.0 * k, s) by {
      assert (28.0 - 3.0 * k) * s == 28.0 * s - 3.0 * (k * s);
    }
    if 28.0 - 3.0 * k >= 0.0 {
      Pace.TimesMonotone(0.0, 28.0 - 3.0 * k, s);
      assert Times(0.0, s) == 0.0;
    } else {
      TimesPositive(3.0 * k - 28.0, s);
      assert Times(3.0 * k - 28.0, s) == -Times(28.0 - 3.0 * k, s);
    }
  }

  lemma HalfRatio(q: real, b: real, s: real)
    requires b > 0.0 && Times(q, b) == s - b
    ensures Times(q, 100.0) >= 50.0 <==> 2.0 * s >= 3.0 * b
  {
  }

  /**
    A service that spent `s` on the latest day and `s` on `k` of the days
    before it is flagged exactly when k is at most 9 and s*(14-k) at least 70.
   */
  lemma {:induction false} ConstantSpend(prior: seq<real>, s: real)
    requires forall i :: 0 <= i < |prior| ==> prior[i] == s
    ensures
      Flagged(Sum(prior) / 14.0, s, DEFAULT) <==>
      |prior| <= 9 && Times(s, 14.0 - |prior| as real) >= 70.0
  {
    var k, b := |prior| as real, Sum(prior) / 14.0;
    SumOfConstant(prior, s, k);
    assert Times(s, 14.0 - k) == 14.0 * s - Times(k, s) by {
      assert s * (14.0 - k) == 14.0 * s - k * s;
    }
    if 14.0 * s - Times(k, s) >= 70.0 {
      if b > 0.01 {
        ConstantRatio(s, k, b);
      } else if |prior| == 0 {
        assert Times(0.0, s) == 0.0;
      } else {
        SmallBaseline(s, k, b);
      }
    }
  }

  lemma SmallBaseline(s: real, k: real, b: real)
    requires k >= 1.0 && b <= 0.01 && 14.0 * b == Times(k, s)
    ensures s <= 0.14
    ensures s <= 0.0 ==> k > 9.0 || 14.0 * s - Times(k, s) < 70.0
  {
    if s > 0.0 {
      Pace.TimesMonotone(1.0, k, s);
      assert Times(1.0, s) == s;
    } else {
      assert Times(k - 14.0, s) == Times(k, s) - 14.0 * s by {
        assert (k - 14.0) * s == k * s - 14.0 * s;
      }
      if k <= 9.0 {
        Pace.TimesMonotone(0.0, 14.0 - k, -s);
        assert Times(0.0, -s) == 0.0;
        assert Times(14.0 - k, -s) == Times(k - 14.0, s) by {
          assert (14.0 - k) * (-s) == (k - 14.0) * s;
        }
      }
    }
  }

  // ---------- The query ----------

  datatype Group = Group(credential: Id, service: string, region: Option<string>)

  function GroupOf(r: Row): Group {
    Group(r.credential, r.item.service, r.item.region)
  }

  function OnDays(rows: seq<Row>, lo: int, hi: int): seq<Row> {
    if rows == [] then []
    else
      var n := |rows| - 1;
      var before := OnDays(rows[..n], lo, hi);
      if lo <= rows[n].item.day < hi then before + [rows[n]] else before
  }

  function GroupColumn(rows: seq<Row>): (gs: seq<Group>)
    ensures |gs| == |rows|
  {
    seq(|rows|, i requires 0 <= i < |rows| => GroupOf(rows[i]))
  }

  function Spend(rows: seq<Row>, g: Group): real {
    Sum(Bucket(GroupColumn(rows), Billing.Amounts(rows), g))
  }

  function LatestDay(rows: seq<Row>): (d: int)
    requires rows != []
    ensures exists i :: 0 <= i < |rows| && rows[i].item.day == d
    ensures forall i :: 0 <= i < |rows| ==> rows[i].item.day <= d
  {
    if |rows| == 1 then rows[0].item.day
    else
      var rest, last := LatestDay(rows[..|rows| - 1]), rows[|rows| - 1].item.day;
      assert rows[|rows| - 1].item.day == last;
      assert forall i :: 0 <= i < |rows| - 1 ==> rows[i] == rows[..|rows| - 1][i];
      if last > rest then last else rest
  }

  /** A group's spend on the latest day against the mean of the days before it, missing days counting as zero. */
  datatype Reading = Reading(group: Group, day: int, baseline: real, actual: real)

  function ReadingFor(rows: seq<Row>, d: int, g: Group): Reading {
    var prior, today := OnDays(rows, d - LOOKBACK_DAYS, d), OnDays(rows, d, d + 1);
    Reading(g, d, Spend(prior, g) / LOOKBACK_DAYS as real, Spend(today, g))
  }

  function ReadingsFor(rows: seq<Row>, d: int, gs: seq<Group>): (rs: seq<Reading>)
    ensures |rs| == |gs| && forall i :: 0 <= i < |gs| ==> rs[i] == ReadingFor(rows, d, gs[i])
  {
    seq(|gs|, i requires 0 <= i < |gs| => ReadingFor(rows, d, gs[i]))
  }

  /** One reading per group that spent on day `d`. */
  function ReadingsOn(rows: seq<Row>, d: int): seq<Reading> {
    ReadingsFor(rows, d, Keys(GroupColumn(OnDays(rows, d, d + 1))))
  }

  function Readings(rows: seq<Row>): seq<Reading> {
    if rows == [] then [] else ReadingsOn(rows, LatestDay(rows))
  }

  // ---------- The record ----------

  datatype Record = Record(group: Group, day: int, baseline: real, actual: real, deviationPct: int, dismissed: bool)

  type Key = Billing.Key

  function KeyFor(g: Group, day: int): Key {
    Billing.IndexKey(g.credential, g.service, g.region, day)
  }

  function KeyOf(r: Record): Key {
    KeyFor(r.group, r.day)
  }

  ghost predicate UniqueKeys(t: seq<Record>) {
    forall i, j :: 0 <= i < j < |t| ==> KeyOf(t[i]) != KeyOf(t[j])
  }

  function Find(t: seq<Record>, k: Key): (r: Option<nat>)
    ensures r.Some? ==> r.value < |t| && KeyOf(t[r.value]) == k
    ensures r.None? ==> forall i :: 0 <= i < |t| ==> KeyOf(t[i]) != k
  {
    FindLast(t, r => KeyOf(r) == k)
  }

  /** ON CONFLICT DO UPDATE refreshes the figures and leaves the status as it is. */
  function Recorded(t: seq<Record>, m: Reading): seq<Record> {
    var (flagged, pct) := DetectAnomaly(m.baseline, m.actual, DEFAULT);
    if !flagged then t
    else
      match Find(t, KeyFor(m.group, m.day))
      case Some(i) => t[i := t[i].(baseline := m.baseline, actual := m.actual, deviationPct := pct)]
      case None => t + [Record(m.group, m.day, m.baseline, m.actual, pct, false)]
  }

  function RecordedAll(t: seq<Record>, ms: seq<Reading>): seq<Record> {
    if ms == [] then t else Recorded(RecordedAll(t, ms[..|ms| - 1]), ms[|ms| - 1])
  }

  /** The readings among the first `n` that are flagged. */
  function FlaggedIn(ms: seq<Reading>, n: nat): set<int>
    requires n <= |ms|
  {
    set i | 0 <= i < n && Flagged(ms[i].baseline, ms[i].actual, DEFAULT)
  }

  lemma FlaggedMore(ms: seq<Reading>, n: nat)
    requires n < |ms|
    ensures
      |FlaggedIn(ms, n + 1)| ==
      |FlaggedIn(ms, n)| + if Flagged(ms[n].baseline, ms[n].actual, DEFAULT) then 1 else 0
  {
    if Flagged(ms[n].baseline, ms[n].actual, DEFAULT) {
      assert FlaggedIn(ms, n + 1) == FlaggedIn(ms, n) + {n};
    } else {
      assert FlaggedIn(ms, n + 1) == FlaggedIn(ms, n);
    }
  }

  class Anomalies {
    var records: seq<Record>

    constructor ()
      ensures records == []
    {
      records := [];
    }

    /** `checkTenant`: read every group of the latest day, record the flagged ones. */
    method CheckTenant(rows: seq<Row>) returns (recorded: nat)
      modifies this
      ensures records == RecordedAll(old(records), Readings(rows)) && records == Apply(old(records), Sweep(rows))
      ensures recorded == |FlaggedIn(Readings(rows), |Readings(rows)|)|
    {
      recorded := RecordFlagged(Readings(rows));
    }

    method RecordFlagged(ms: seq<Reading>) returns (recorded: nat)
      modifies this
      ensures records == RecordedAll(old(records), ms) && recorded == |FlaggedIn(ms, |ms|)|
    {
      recorded := 0;
      for k := 0 to |ms|
        invariant records == RecordedAll(old(records), ms[..k]) && recorded == |FlaggedIn(ms, k)|
      {
        assert ms[..k + 1][..k] == ms[..k];
        FlaggedMore(ms, k);
        var (flagged, _) := DetectAnomaly(ms[k].baseline, ms[k].actual, DEFAULT);
        records := Recorded(records, ms[k]);
        if flagged {
          recorded := recorded + 1;
        }
      }
      assert ms[..|ms|] == ms;
    }

    /** Dismissal by hand. */
    method Dismiss(i: nat) returns (found: bool)
      modifies this
      ensures found <==> i < |old(records)|
      ensures records == if found then old(records)[i := old(records)[i].(dismissed := true)] else old(records)
      ensures records == Apply(old(records), DismissStep(i))
    {
      found := i < |records|;
      if found {
        records := records[i := records[i].(dismissed := true)];
      }
    }
  }

  // ---------- Runs of sweeps and dismissals ----------

  datatype Step = Sweep(rows: seq<Row>) | DismissStep(i: nat)

  function Apply(t: seq<Record>, s: Step): seq<Record> {
    match s
    case Sweep(rows) => RecordedAll(t, Readings(rows))
    case DismissStep(i) => if i < |t| then t[i := t[i].(dismissed := true)] else t
  }

  function Run(t: seq<Record>, ss: seq<Step>): seq<Record> {
    if ss == [] then t else Apply(Run(t, ss[..|ss| - 1]), ss[|ss| - 1])
  }

  /** Records keep their place and key, and a dismissal stands. */
  ghost predicate Grows(t: seq<Record>, t': seq<Record>) {
    |t| <= |t'| && forall i :: 0 <= i < |t| ==> KeyOf(t'[i]) == KeyOf(t[i]) && (t[i].dismissed ==> t'[i].dismissed)
  }

  lemma RecordedGrows(t: seq<Record>, m: Reading)
    requires UniqueKeys(t)
    ensures UniqueKeys(Recorded(t, m)) && Grows(t, Recorded(t, m))
  {
  }

  lemma {:induction false} RecordedAllGrows(t: seq<Record>, ms: seq<Reading>)
    requires UniqueKeys(t)
    ensures UniqueKeys(RecordedAll(t, ms)) && Grows(t, RecordedAll(t, ms))
  {
    if ms != [] {
      var n := |ms| - 1;
      RecordedAllGrows(t, ms[..n]);
      RecordedGrows(RecordedAll(t, ms[..n]), ms[n]);
    }
  }

  lemma {:induction false} ApplyGrows(t: seq<Record>, s: Step)
    requires UniqueKeys(t)
    ensures UniqueKeys(Apply(t, s)) && Grows(t, Apply(t, s))
  {
    if s.Sweep? {
      RecordedAllGrows(t, Readings(s.rows));
    }
  }

  /** Over any run there is one record per key, and a dismissed anomaly stays dismissed however often it is swept. */
  lemma {:induction false} DismissedForGood(t: seq<Record>, ss: seq<Step>)
    requires UniqueKeys(t)
    ensures UniqueKeys(Run(t, ss)) && Grows(t, Run(t, ss))
  {
    if ss != [] {
      var n := |ss| - 1;
      DismissedForGood(t, ss[..n]);
      ApplyGrows(Run(t, ss[..n]), ss[n]);
    }
  }

  // ---------- What a sweep leaves under a key ----------

  predicate FlaggedReading(m: Reading) {
    Flagged(m.baseline, m.actual, DEFAULT)
  }

  /** The last flagged reading under a key. */
  function LastFlagged(ms: seq<Reading>, k: Key): Option<Reading> {
    if ms == [] then None
    else
      var m := ms[|ms| - 1];
      if FlaggedReading(m) && KeyFor(m.group, m.day) == k then Some(m) else LastFlagged(ms[..|ms| - 1], k)
  }

  predicate Figures(r: Record, m: Reading) {
    r.baseline == m.baseline && r.actual == m.actual && r.deviationPct == Round(Deviation(m.baseline, m.actual))
  }

  /** What a key holds after readings have been recorded, from what it held before. */
  ghost predicate Settles(t: seq<Record>, t': seq<Record>, last: Option<Reading>, k: Key) {
    var f, f' := Find(t, k), Find(t', k);
    if last.Some? then
      f'.Some? && Figures(t'[f'.value], last.value) &&
      t'[f'.value].dismissed == (f.Some? && t[f.value].dismissed)
    else if f.Some? then f'.Some? && t'[f'.value] == t[f.value]
    else f'.None?
  }

  lemma FindUnique(t: seq<Record>, p: nat)
    requires UniqueKeys(t) && p < |t|
    ensures Find(t, KeyOf(t[p])) == Some(p)
  {
  }

  lemma RecordedSettles(t: seq<Record>, m: Reading, k: Key)
    requires UniqueKeys(t)
    ensures Settles(t, Recorded(t, m), LastFlagged([m], k), k)
  {
    var t' := Recorded(t, m);
    RecordedGrows(t, m);
    assert LastFlagged([m], k) == if FlaggedReading(m) && KeyFor(m.group, m.day) == k then Some(m) else None by {
      assert [m][..0] == [];
    }
    var f := Find(t, k);
    if f.Some? {
      FindUnique(t', f.value);
    } else if FlaggedReading(m) && KeyFor(m.group, m.day) == k {
      FindUnique(t', |t|);
    }
  }

  lemma SettlesOn(
    t: seq<Record>, u: seq<Record>, v: seq<Record>, first: Option<Reading>, then_: Option<Reading>, k: Key)
    requires Settles(t, u, first, k) && Settles(u, v, then_, k)
    ensures Settles(t, v, if then_.Some? then then_ else first, k)
  {
  }

  /**
    A keyed last-write-wins fold: after a sweep the key of a flagged reading
    holds the figures of the last one, dismissed if it was before; every other
    key holds what it held.
   */
  lemma {:induction false} SweepIsLastWriteWins(t: seq<Record>, ms: seq<Reading>, k: Key)
    requires UniqueKeys(t)
    ensures Settles(t, RecordedAll(t, ms), LastFlagged(ms, k), k)
  {
    if ms != [] {
      var n := |ms| - 1;
      SweepIsLastWriteWins(t, ms[..n], k);
      RecordedAllGrows(t, ms[..n]);
      RecordedSettles(RecordedAll(t, ms[..n]), ms[n], k);
      SettlesOn(t, RecordedAll(t, ms[..n]), RecordedAll(t, ms), LastFlagged(ms[..n], k), LastFlagged([ms[n]], k), k);
    }
  }

  // ---------- What the query reads ----------

  ghost predicate SpentOn(rows: seq<Row>, d: int, g: Group) {
    exists i :: 0 <= i < |rows| && rows[i].item.day == d && GroupOf(rows[i]) == g
  }

  /** Selecting a day keeps exactly the groups that have a row on it. */
  lemma {:induction false} DayHasGroup(rows: seq<Row>, d: int, g: Group)
    ensures g in GroupColumn(OnDays(rows, d, d + 1)) <==> SpentOn(rows, d, g)
  {
    if rows == [] {
      assert GroupColumn([]) == [];
    } else {
      var n := |rows| - 1;
      var before := OnDays(rows[..n], d, d + 1);
      DayHasGroup(rows[..n], d, g);
      assert SpentOn(rows, d, g) <==> SpentOn(rows[..n], d, g) || (rows[n].item.day == d && GroupOf(rows[n]) == g) by {
        if SpentOn(rows[..n], d, g) {
          var i :| 0 <= i < n && rows[..n][i].item.day == d && GroupOf(rows[..n][i]) == g;
          assert rows[i] == rows[..n][i];
        }
        if i :| 0 <= i < n && rows[i].item.day == d && GroupOf(rows[i]) == g {
          assert rows[..n][i] == rows[i];
        }
      }
      if rows[n].item.day == d {
        assert GroupColumn(before + [rows[n]]) == GroupColumn(before) + [GroupOf(rows[n])];
      }
    }
  }

  ghost predicate Read(ms: seq<Reading>, g: Group) {
    exists i :: 0 <= i < |ms| && ms[i].group == g
  }

  lemma ReadOnDay(rows: seq<Row>, d: int, g: Group)
    ensures Read(ReadingsOn(rows, d), g) <==> SpentOn(rows, d, g)
  {
    DayHasGroup(rows, d, g);
    var column := GroupColumn(OnDays(rows, d, d + 1));
    ReadListed(rows, d, Keys(column), g);
  }

  /** A group is read exactly when it spent on the latest day. */
  lemma {:induction false} ReadIffSpent(rows: seq<Row>, g: Group)
    requires rows != []
    ensures Read(Readings(rows), g) <==> SpentOn(rows, LatestDay(rows), g)
  {
    ReadOnDay(rows, LatestDay(rows), g);
  }

  lemma ReadListed(rows: seq<Row>, d: int, gs: seq<Group>, g: Group)
    ensures Read(ReadingsFor(rows, d, gs), g) <==> g in gs
  {
  }

  /** The amounts a group spent on the days in `[lo, hi)`, row by row. */
  function AmountsIn(rows: seq<Row>, lo: int, hi: int, g: Group): seq<real> {
    Bucket(GroupColumn(OnDays(rows, lo, hi)), Billing.Amounts(OnDays(rows, lo, hi)), g)
  }

  ghost predicate All(xs: seq<real>, s: real) {
    forall i :: 0 <= i < |xs| ==> xs[i] == s
  }

  lemma AmountsOneMore(rows: seq<Row>, lo: int, hi: int, g: Group)
    requires rows != []
    ensures
      var n := |rows| - 1;
      var was := AmountsIn(rows[..n], lo, hi, g);
      AmountsIn(rows, lo, hi, g) ==
      if lo <= rows[n].item.day < hi && GroupOf(rows[n]) == g then was + [rows[n].item.amount] else was
  {
    var n := |rows| - 1;
    if lo <= rows[n].item.day < hi {
      BucketOneMore(OnDays(rows[..n], lo, hi), rows[n], g);
    }
  }

  lemma {:induction false} AmountsAre(rows: seq<Row>, lo: int, hi: int, g: Group, s: real)
    requires forall i :: 0 <= i < |rows| && lo <= rows[i].item.day < hi && GroupOf(rows[i]) == g ==>
      rows[i].item.amount == s
    ensures All(AmountsIn(rows, lo, hi, g), s)
  {
    if rows != [] {
      var n := |rows| - 1;
      AmountsAre(rows[..n], lo, hi, g, s);
      AmountsOneMore(rows, lo, hi, g);
    }
  }

  lemma BucketOneMore(before: seq<Row>, r: Row, g: Group)
    ensures
      var was := Bucket(GroupColumn(before), Billing.Amounts(before), g);
      Bucket(GroupColumn(before + [r]), Billing.Amounts(before + [r]), g) ==
      if GroupOf(r) == g then was + [r.item.amount] else was
  {
    var rows, n := before + [r], |before|;
    assert GroupColumn(rows)[..n] == GroupColumn(before);
    assert Billing.Amounts(rows)[..n] == Billing.Amounts(before);
  }

  /**
    A group whose every row of the window carries the same amount `s`, one of
    them on the latest day, is flagged exactly when the earlier ones number at
    most 9 and s*(14-k) is at least 70.
   */
  lemma SteadySpendFlagged(rows: seq<Row>, d: int, g: Group, s: real)
    requires forall i :: 0 <= i < |rows| && d - LOOKBACK_DAYS <= rows[i].item.day <= d && GroupOf(rows[i]) == g ==>
      rows[i].item.amount == s
    requires |AmountsIn(rows, d, d + 1, g)| == 1
    ensures
      var m, k := ReadingFor(rows, d, g), |AmountsIn(rows, d - LOOKBACK_DAYS, d, g)|;
      Flagged(m.baseline, m.actual, DEFAULT) <==> k <= 9 && Times(s, 14.0 - k as real) >= 70.0
  {
    AmountsAre(rows, d, d + 1, g, s);
    AmountsAre(rows, d - LOOKBACK_DAYS, d, g, s);
    assert AmountsIn(rows, d, d + 1, g) == [s];
    assert Sum([s]) == s;
    ConstantSpend(AmountsIn(rows, d - LOOKBACK_DAYS, d, g), s);
  }
}
