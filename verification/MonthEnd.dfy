/**
  The month-end forecast: a flat rate in the first week, then each remaining
  day at the average of its own weekday.
 */
module MonthEnd {
  import opened Sums
  import opened Grouping
  import Pace

  const MIN_DAYS := 7

  datatype MonthEnd =
    | NoData
    | MonthEnd(mtdSpend: real, projectedFullMonth: real, low: real, high: real, weekdayWeighted: bool)

  // ---------- What is projected ----------

  /** The average of weekday `d`, or of all days when none has fallen on it. */
  function Rate(spend: seq<real>, dow: seq<int>, d: int): real
    requires |spend| == |dow| && spend != []
  {
    if d in dow then
      BucketNonEmpty(dow, spend, d);
      Mean(Bucket(dow, spend, d))
    else Mean(spend)
  }

  function Rates(spend: seq<real>, dow: seq<int>, rem: seq<int>): (rs: seq<real>)
    requires |spend| == |dow| && spend != []
    ensures |rs| == |rem|
  {
    if rem == [] then []
    else
      var n := |rem| - 1;
      Rates(spend, dow, rem[..n]) + [Rate(spend, dow, rem[n])]
  }

  function Remaining(spend: seq<real>, dow: seq<int>, rem: seq<int>): real
    requires |spend| == |dow| && spend != []
  {
    if |spend| < MIN_DAYS then Times(Mean(spend), |rem| as real)
    else Sum(Rates(spend, dow, rem))
  }

  function Band(spend: seq<real>, days: nat, sqrt: real -> real): real
    requires spend != []
  {
    Times(StdDev(spend, Mean(spend), sqrt), sqrt(days as real))
  }

  function Forecast(spend: seq<real>, dow: seq<int>, rem: seq<int>, sqrt: real -> real): MonthEnd
    requires |spend| == |dow|
  {
    if spend == [] then NoData
    else
      var mtd := Sum(spend);
      var projected := mtd + Remaining(spend, dow, rem);
      var band := Band(spend, |rem|, sqrt);
      MonthEnd(mtd, projected, Max(mtd, projected - band), projected + band, |spend| >= MIN_DAYS)
  }

  // ---------- The code ----------

  /** Pushing each day's spend onto its weekday's bucket; `order` is the map's insertion order. */
  method FillBuckets(spend: seq<real>, dow: seq<int>) returns (buckets: map<int, seq<real>>, order: seq<int>)
    requires |spend| == |dow|
    ensures order == Keys(dow)
    ensures forall d :: d in buckets <==> d in dow
    ensures forall d :: d in buckets ==> buckets[d] == Bucket(dow, spend, d)
  {
    buckets, order := map[], [];
    for i := 0 to |spend|
      invariant order == Keys(dow[..i])
      invariant forall d :: d in buckets <==> d in dow[..i]
      invariant forall d :: d in buckets ==> buckets[d] == Bucket(dow[..i], spend[..i], d)
    {
      var d := dow[i];
      BucketNonEmpty(dow[..i], spend[..i], d);
      assert dow[..i + 1][..i] == dow[..i] && spend[..i + 1][..i] == spend[..i];
      if d !in buckets {
        order := order + [d];
      }
      buckets := buckets[d := (if d in buckets then buckets[d] else []) + [spend[i]]];
    }
    assert dow[..|spend|] == dow && spend[..|spend|] == spend;
  }

  /** Averaging the buckets in that order. */
  method AverageBuckets(buckets: map<int, seq<real>>, order: seq<int>) returns (avg: map<int, real>)
    requires forall i :: 0 <= i < |order| ==> order[i] in buckets && buckets[order[i]] != []
    ensures forall d :: d in avg <==> d in order
    ensures forall d :: d in avg ==> d in buckets && buckets[d] != [] && avg[d] == Mean(buckets[d])
  {
    avg := map[];
    for i := 0 to |order|
      invariant forall d :: d in avg <==> d in order[..i]
      invariant forall d :: d in avg ==> d in buckets && buckets[d] != [] && avg[d] == Mean(buckets[d])
    {
      avg := avg[order[i] := Mean(buckets[order[i]])];
      assert order[..i + 1] == order[..i] + [order[i]];
    }
    assert order[..|order|] == order;
  }

  /** Each remaining day at its weekday's average, or at the overall one. */
  method ProjectWeekdays(spend: seq<real>, dow: seq<int>, rem: seq<int>) returns (remaining: real)
    requires |spend| == |dow| && spend != []
    ensures remaining == Sum(Rates(spend, dow, rem))
  {
    var overall := Mean(spend);
    var buckets, order := FillBuckets(spend, dow);
    forall i | 0 <= i < |order|
      ensures order[i] in buckets && buckets[order[i]] != []
    {
      assert order[i] in dow;
      BucketNonEmpty(dow, spend, order[i]);
    }
    var avg := AverageBuckets(buckets, order);
    remaining := 0.0;
    for i := 0 to |rem|
      invariant remaining == Sum(Rates(spend, dow, rem[..i]))
    {
      assert rem[i] in order <==> rem[i] in dow;
      remaining := remaining + if rem[i] in avg then avg[rem[i]] else overall;
      assert rem[..i + 1][..i] == rem[..i];
      SumSnoc(Rates(spend, dow, rem[..i]), Rate(spend, dow, rem[i]));
    }
    assert rem[..|rem|] == rem;
  }

  /** `forecastMonthEnd`. */
  method ForecastMonthEnd(spend: seq<real>, dow: seq<int>, rem: seq<int>, sqrt: real -> real) returns (f: MonthEnd)
    requires |spend| == |dow|
    ensures f == Forecast(spend, dow, rem, sqrt)
  {
    if |spend| == 0 {
      return NoData;
    }
    var mtd := Sum(spend);
    var overall := Mean(spend);
    var spread := StdDev(spend, overall, sqrt);
    var remaining: real;
    if |spend| < MIN_DAYS {
      remaining := Times(overall, |rem| as real);
    } else {
      remaining := ProjectWeekdays(spend, dow, rem);
    }
    var projected := mtd + remaining;
    var band := Times(spread, sqrt(|rem| as real));
    f := MonthEnd(mtd, projected, Max(mtd, projected - band), projected + band, |spend| >= MIN_DAYS);
  }

  // ---------- Conservation and proportion ----------

  /** Every dollar of the month so far is in exactly one weekday bucket. */
  lemma {:induction false} BucketsHoldTheMonth(spend: seq<real>, dow: seq<int>)
    requires |spend| == |dow|
    ensures TotalOver(dow, spend, Keys(dow)) == Sum(spend)
  {
    TotalsConserved(dow, spend, Keys(dow));
  }

  /** Of the remaining days, those on weekday `d` contribute their number times its rate. */
  lemma {:induction false} RatesByWeekday(
    spend: seq<real>, dow: seq<int>, rem: seq<int>, d: int, count: real, rate: real)
    requires |spend| == |dow| && spend != []
    requires count == |Bucket(rem, Rates(spend, dow, rem), d)| as real && rate == Rate(spend, dow, d)
    ensures Sum(Bucket(rem, Rates(spend, dow, rem), d)) == Times(count, rate)
  {
    if rem != [] {
      var n := |rem| - 1;
      var rs := Rates(spend, dow, rem);
      assert rs[..n] == Rates(spend, dow, rem[..n]);
      var before := Bucket(rem[..n], rs[..n], d);
      RatesByWeekday(spend, dow, rem[..n], d, |before| as real, rate);
      SumSnoc(before, rs[n]);
      OneMore(|before| as real, rate);
    }
  }

  lemma OneMore(count: real, rate: real)
    ensures Times(count, rate) + rate == Times(count + 1.0, rate)
    ensures Times(0.0, rate) == 0.0
  {
  }

  /** How many entries of `days` are `d`. */
  function Occurrences(days: seq<int>, d: int): nat {
    multiset(days)[d]
  }

  lemma {:induction false} BucketSize(ks: seq<int>, vs: seq<real>, d: int)
    requires |ks| == |vs|
    ensures |Bucket(ks, vs, d)| == Occurrences(ks, d)
  {
    if ks != [] {
      var n := |ks| - 1;
      BucketSize(ks[..n], vs[..n], d);
      assert ks == ks[..n] + [ks[n]];
    }
  }

  ghost predicate Proportional(dow: seq<int>, rem: seq<int>, k: real) {
    forall d :: Occurrences(rem, d) as real == Times(k, Occurrences(dow, d) as real)
  }

  /** On one weekday, `k` times as many days project `k` times what was spent. */
  lemma WeekdayProportion(spend: seq<real>, dow: seq<int>, rem: seq<int>, k: real, d: int)
    requires |spend| == |dow| && spend != [] && Proportional(dow, rem, k)
    ensures Sum(Bucket(rem, Rates(spend, dow, rem), d)) == Times(k, Sum(Bucket(dow, spend, d)))
  {
    var b := Bucket(dow, spend, d);
    var there, here := Occurrences(rem, d) as real, Occurrences(dow, d) as real;
    BucketSize(rem, Rates(spend, dow, rem), d);
    BucketSize(dow, spend, d);
    BucketNonEmpty(dow, spend, d);
    var rate := Rate(spend, dow, d);
    RatesByWeekday(spend, dow, rem, d, there, rate);
    assert there == Times(k, here);
    if b == [] {
      OneMore(there, rate);
      ZeroTotal(k, here, there, rate);
    } else {
      MeanTimesCount(b, here, rate);
      Regroup(k, here, rate);
    }
  }

  lemma ZeroTotal(k: real, here: real, there: real, rate: real)
    requires here == 0.0 && there == Times(k, here)
    ensures Times(there, rate) == Times(k, 0.0)
  {
  }

  lemma Regroup(k: real, here: real, rate: real)
    ensures Times(Times(k, here), rate) == Times(k, Times(rate, here))
  {
  }

  lemma {:induction false} TotalsProportional(
    spend: seq<real>, dow: seq<int>, rem: seq<int>, k: real, ds: seq<int>, spent: real)
    requires |spend| == |dow| && spend != [] && Proportional(dow, rem, k)
    requires spent == TotalOver(dow, spend, ds)
    ensures TotalOver(rem, Rates(spend, dow, rem), ds) == Times(k, spent)
  {
    if ds == [] {
      assert Times(k, 0.0) == 0.0;
    } else {
      var n := |ds| - 1;
      var before := TotalOver(dow, spend, ds[..n]);
      TotalsProportional(spend, dow, rem, k, ds[..n], before);
      WeekdayProportion(spend, dow, rem, k, ds[n]);
      TimesSum(k, before, Sum(Bucket(dow, spend, ds[n])));
    }
  }

  lemma TimesSum(k: real, a: real, b: real)
    ensures Times(k, a + b) == Times(k, a) + Times(k, b)
  {
  }

  /**
    When the remaining days hold every weekday `k` times as often as the
    elapsed days, the projected remainder is `k` times the month so far.
   */
  lemma ProportionalMonth(spend: seq<real>, dow: seq<int>, rem: seq<int>, k: real)
    requires |spend| == |dow| && |spend| >= MIN_DAYS && Proportional(dow, rem, k)
    ensures Remaining(spend, dow, rem) == Times(k, Sum(spend))
  {
    var ds := Keys(dow + rem);
    assert Covers(ds, dow) && Covers(ds, rem) by {
      forall i | 0 <= i < |dow| ensures dow[i] in ds { assert (dow + rem)[i] == dow[i]; }
      forall i | 0 <= i < |rem| ensures rem[i] in ds { assert (dow + rem)[|dow| + i] == rem[i]; }
    }
    TotalsConserved(dow, spend, ds);
    TotalsConserved(rem, Rates(spend, dow, rem), ds);
    TotalsProportional(spend, dow, rem, k, ds, Sum(spend));
  }

  // ---------- Order ----------

  lemma {:induction false} RatePermuted(spend: seq<real>, dow: seq<int>, spend': seq<real>, dow': seq<int>, d: int)
    requires |spend| == |dow| && |spend'| == |dow'| && spend != [] && spend' != []
    requires multiset(Zip(dow, spend)) == multiset(Zip(dow', spend'))
    ensures Rate(spend, dow, d) == Rate(spend', dow', d)
  {
    BucketPermuted(dow, spend, dow', spend', d);
    SumPermuted(Bucket(dow, spend, d), Bucket(dow', spend', d));
    PairsPermuted(dow, spend, dow', spend', 0.0);
    BucketNonEmpty(dow, spend, d);
    BucketNonEmpty(dow', spend', d);
  }

  lemma {:induction false} RatesPermuted(
    spend: seq<real>, dow: seq<int>, spend': seq<real>, dow': seq<int>, rem: seq<int>)
    requires |spend| == |dow| && |spend'| == |dow'| && spend != [] && spend' != []
    requires multiset(Zip(dow, spend)) == multiset(Zip(dow', spend'))
    ensures Rates(spend, dow, rem) == Rates(spend', dow', rem)
  {
    if rem != [] {
      var n := |rem| - 1;
      RatesPermuted(spend, dow, spend', dow', rem[..n]);
      RatePermuted(spend, dow, spend', dow', rem[n]);
    }
  }

  /** The whole forecast depends only on which (weekday, spend) pairs occurred, not on their order. */
  lemma {:induction false} ForecastPermuted(
    spend: seq<real>, dow: seq<int>, spend': seq<real>, dow': seq<int>, rem: seq<int>, sqrt: real -> real)
    requires |spend| == |dow| && |spend'| == |dow'|
    requires multiset(Zip(dow, spend)) == multiset(Zip(dow', spend'))
    ensures Forecast(spend, dow, rem, sqrt) == Forecast(spend', dow', rem, sqrt)
  {
    PairsPermuted(dow, spend, dow', spend', 0.0);
    if spend != [] {
      PairsPermuted(dow, spend, dow', spend', Mean(spend));
      RatesPermuted(spend, dow, spend', dow', rem);
    }
  }

  // ---------- Bounds ----------

  ghost predicate NonNegative(xs: seq<real>) {
    forall i :: 0 <= i < |xs| ==> xs[i] >= 0.0
  }

  lemma MeanNonNegative(xs: seq<real>)
    requires xs != [] && NonNegative(xs)
    ensures Mean(xs) >= 0.0
  {
    SumNonNegative(xs);
    DivTimes(Sum(xs), |xs| as real);
  }

  lemma {:induction false} BucketFrom(ks: seq<int>, vs: seq<real>, d: int)
    requires |ks| == |vs| && NonNegative(vs)
    ensures NonNegative(Bucket(ks, vs, d))
  {
    if ks != [] {
      BucketFrom(ks[..|ks| - 1], vs[..|ks| - 1], d);
    }
  }

  lemma {:induction false} RatesNonNegative(spend: seq<real>, dow: seq<int>, rem: seq<int>)
    requires |spend| == |dow| && spend != [] && NonNegative(spend)
    ensures NonNegative(Rates(spend, dow, rem))
  {
    if rem != [] {
      var n := |rem| - 1;
      RatesNonNegative(spend, dow, rem[..n]);
      BucketNonEmpty(dow, spend, rem[n]);
      BucketFrom(dow, spend, rem[n]);
      if rem[n] in dow {
        MeanNonNegative(Bucket(dow, spend, rem[n]));
      } else {
        MeanNonNegative(spend);
      }
    }
  }

  lemma TimesNonNegative(a: real, b: real)
    requires a >= 0.0 && b >= 0.0
    ensures Times(a, b) >= 0.0
  {
  }

  /** With non-negative daily spend, `mtdSpend <= low <= projectedFullMonth <= high` in both branches. */
  lemma ForecastBounds(spend: seq<real>, dow: seq<int>, rem: seq<int>, sqrt: real -> real)
    requires |spend| == |dow| && spend != [] && NonNegative(spend) && IsSqrt(sqrt)
    ensures var f := Forecast(spend, dow, rem, sqrt); f.mtdSpend <= f.low <= f.projectedFullMonth <= f.high
  {
    MeanNonNegative(spend);
    TimesNonNegative(Mean(spend), |rem| as real);
    RatesNonNegative(spend, dow, rem);
    SumNonNegative(Rates(spend, dow, rem));
    var spread := StdDev(spend, Mean(spend), sqrt);
    StdDevIs(spend, Mean(spend), sqrt, |spend| as real, spread);
    TimesNonNegative(spread, sqrt(|rem| as real));
  }

  // ---------- Agreement with the pace calculation ----------

  /** Under a week the forecast is the projection of the pace calculation for the same month, whatever its baseline. */
  lemma AgreesWithPace(spend: seq<real>, dow: seq<int>, rem: seq<int>, sqrt: real -> real, input: Pace.PaceInput)
    requires |spend| == |dow| && 0 < |spend| < MIN_DAYS
    requires input.mtdSpend == Sum(spend) && input.daysElapsed == |spend| && input.daysInMonth == |spend| + |rem|
    ensures
      var pace := Pace.CalculateBudgetPace(input);
      pace.Some? ==> Forecast(spend, dow, rem, sqrt).projectedFullMonth == pace.value.projectedFullMonth
  {
    var n := |spend| as real;
    MeanTimesCount(spend, n, Mean(spend));
    assert (|spend| + |rem|) as real == n + |rem| as real;
    TimesSum(Mean(spend), n, |rem| as real);
  }

  // ---------- Calendar months ----------

  /** The weekday of the day `i` days after one that falls on `first`. */
  function WeekdayAfter(first: int, i: int): int {
    (first + i) % 7
  }

  /** The weekday lists of the dashboard for a month whose day 1 falls on `first`. */
  method MonthWeekdays(first: int, elapsed: nat, daysInMonth: nat) returns (dow: seq<int>, rem: seq<int>)
    ensures |dow| == elapsed && forall i :: 0 <= i < elapsed ==> dow[i] == WeekdayAfter(first, i)
    ensures |rem| == if elapsed <= daysInMonth then daysInMonth - elapsed else 0
    ensures forall i :: 0 <= i < |rem| ==> rem[i] == WeekdayAfter(first, elapsed + i)
  {
    dow := seq(elapsed, i => WeekdayAfter(first, i));
    rem := [];
    var day := elapsed + 1;
    while day <= daysInMonth
      invariant |rem| == day - elapsed - 1
      invariant elapsed <= daysInMonth ==> day <= daysInMonth + 1
      invariant elapsed > daysInMonth ==> rem == []
      invariant forall i :: 0 <= i < |rem| ==> rem[i] == WeekdayAfter(first, elapsed + i)
    {
      rem := rem + [WeekdayAfter(first, day - 1)];
      day := day + 1;
    }
  }

  lemma WeekdaySeen(first: int, elapsed: nat, dow: seq<int>, day: nat)
    requires elapsed >= MIN_DAYS && |dow| == elapsed
    requires forall i :: 0 <= i < elapsed ==> dow[i] == WeekdayAfter(first, i)
    ensures WeekdayAfter(first, day) in dow
  {
    var i := day % 7;
    assert (first + day) % 7 == (first + i) % 7;
    assert dow[i] == WeekdayAfter(first, day);
  }

  lemma {:induction false} RatesAt(spend: seq<real>, dow: seq<int>, rem: seq<int>, i: nat)
    requires |spend| == |dow| && spend != [] && i < |rem|
    ensures Rates(spend, dow, rem)[i] == Rate(spend, dow, rem[i])
  {
    var n := |rem| - 1;
    if i < n {
      RatesAt(spend, dow, rem[..n], i);
    }
  }

  /**
    From day 7 on, every remaining calendar day is projected at the average
    of its own weekday: the overall average is never fallen back on.
   */
  lemma {:induction false} NoFallback(first: int, spend: seq<real>, dow: seq<int>, rem: seq<int>, i: nat)
    requires |spend| == |dow| && |spend| >= MIN_DAYS && i < |rem|
    requires forall j :: 0 <= j < |dow| ==> dow[j] == WeekdayAfter(first, j)
    requires forall j :: 0 <= j < |rem| ==> rem[j] == WeekdayAfter(first, |dow| + j)
    ensures Bucket(dow, spend, rem[i]) != []
    ensures Rates(spend, dow, rem)[i] == Mean(Bucket(dow, spend, rem[i]))
  {
    WeekdaySeen(first, |dow|, dow, |dow| + i);
    BucketNonEmpty(dow, spend, rem[i]);
    RatesAt(spend, dow, rem, i);
  }

  // ---------- The figures, without the code's own steps ----------

  /** A weekday's rate times its days is what was spent on them; an unseen weekday takes the rate of all days. */
  lemma {:induction false} RateExactly(spend: seq<real>, dow: seq<int>, d: int)
    requires |spend| == |dow| && spend != []
    ensures
      if Occurrences(dow, d) > 0
      then Times(Rate(spend, dow, d), Occurrences(dow, d) as real) == Sum(Bucket(dow, spend, d))
      else Times(Rate(spend, dow, d), |spend| as real) == Sum(spend)
  {
    BucketSize(dow, spend, d);
    BucketNonEmpty(dow, spend, d);
    if Occurrences(dow, d) > 0 {
      MeanTimesCount(Bucket(dow, spend, d), Occurrences(dow, d) as real, Rate(spend, dow, d));
    } else {
      MeanTimesCount(spend, |spend| as real, Rate(spend, dow, d));
    }
  }

  lemma SquareOfProduct(a: real, b: real, n: real)
    ensures Times(Times(Times(a, b), Times(a, b)), n) == Times(Times(Times(a, a), n), Times(b, b))
  {
    assert ((a * b) * (a * b)) * n == ((a * a) * n) * (b * b);
  }

  /** The band is the daily deviation times the root of the days left: its square is their variances' sum. */
  lemma BandExactly(spend: seq<real>, days: nat, sqrt: real -> real)
    requires spend != [] && IsSqrt(sqrt)
    ensures
      var band := Band(spend, days, sqrt);
      band >= 0.0 &&
      Times(Times(band, band), |spend| as real) == Times(Scatter(spend, Mean(spend)), days as real)
  {
    var spread := StdDev(spend, Mean(spend), sqrt);
    var root := sqrt(days as real);
    StdDevIs(spend, Mean(spend), sqrt, |spend| as real, spread);
    SquareOfProduct(spread, root, |spend| as real);
    TimesNonNegative(spread, root);
  }

  /**
    What a forecast consists of: the sum so far, that sum plus each remaining
    day at its rate (at the flat mean within the first week), and the band on
    either side, the lower edge never below the sum so far.
   */
  lemma ForecastExactly(spend: seq<real>, dow: seq<int>, rem: seq<int>, sqrt: real -> real)
    requires |spend| == |dow|
    ensures
      var f := Forecast(spend, dow, rem, sqrt);
      if |spend| == 0 then f == NoData
      else
        var band := Band(spend, |rem|, sqrt);
        f.MonthEnd? && f.mtdSpend == Sum(spend) && (f.weekdayWeighted <==> |spend| >= 7) &&
        f.projectedFullMonth - f.mtdSpend ==
          (if |spend| >= 7 then Sum(Rates(spend, dow, rem)) else Times(Mean(spend), |rem| as real)) &&
        f.high - f.projectedFullMonth == band &&
        f.low == (if f.projectedFullMonth - band >= f.mtdSpend then f.projectedFullMonth - band else f.mtdSpend)
  {
  }
}
