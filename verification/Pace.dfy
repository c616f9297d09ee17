/** Month-to-date pace against a baseline, and its severity tiers. */
module Pace {
  import opened Wrappers
  import opened Sums

  datatype Severity = Info | Warning | Critical

  const INFO_THRESHOLD_PCT := 10.0

  datatype PaceInput = PaceInput(
    mtdSpend: real,
    previousMonthTotal: Option<real>,
    monthlyBudgetAmount: Option<real>,
    daysElapsed: int,
    daysInMonth: nat,
    warningThresholdPct: real,
    criticalThresholdPct: real)

  datatype PaceResult = PaceResult(
    projectedFullMonth: real,
    baseline: real,
    fromBudget: bool,
    pctOverPace: real,
    severity: Option<Severity>,
    hardCapBreached: bool)

  function Baseline(input: PaceInput): Option<real> {
    if input.monthlyBudgetAmount.Some? then input.monthlyBudgetAmount else input.previousMonthTotal
  }

  function Project(mtdSpend: real, daysElapsed: int, daysInMonth: nat): real
    requires daysElapsed > 0
  {
    Times(mtdSpend / daysElapsed as real, daysInMonth as real)
  }

  function PctOver(projected: real, baseline: real): real
    requires baseline > 0.0
  {
    Times((projected - baseline) / baseline, 100.0)
  }

  /** No elapsed day, no baseline, or a baseline that is not positive gives no result. */
  function CalculateBudgetPace(input: PaceInput): Option<PaceResult> {
    if input.daysElapsed <= 0 then None
    else if Baseline(input).None? || Baseline(input).value <= 0.0 then None
    else
      var baseline := Baseline(input).value;
      var projected := Project(input.mtdSpend, input.daysElapsed, input.daysInMonth);
      var pct := PctOver(projected, baseline);
      var breached := input.monthlyBudgetAmount.Some? && input.mtdSpend > input.monthlyBudgetAmount.value;
      var severity :=
        if breached || pct >= input.criticalThresholdPct then Some(Critical)
        else if pct >= input.warningThresholdPct then Some(Warning)
        else if pct >= INFO_THRESHOLD_PCT then Some(Info)
        else None;
      Some(PaceResult(projected, baseline, input.monthlyBudgetAmount.Some?, pct, severity, breached))
  }

  /** 0 for no alert, then 1, 2, 3: the order `SEVERITY_RANK` gives the tiers. */
  function Rank(s: Option<Severity>): nat {
    match s
    case None => 0
    case Some(Info) => 1
    case Some(Warning) => 2
    case Some(Critical) => 3
  }

  /** No alert ranks below info, info below warning, warning below critical. */
  lemma RanksRise()
    ensures Rank(None) < Rank(Some(Info)) < Rank(Some(Warning)) < Rank(Some(Critical))
  {
  }

  function SeverityOf(input: PaceInput): Option<Severity> {
    match CalculateBudgetPace(input)
    case None => None
    case Some(r) => r.severity
  }

  lemma TimesMonotone(a: real, b: real, k: real)
    requires a <= b && k >= 0.0
    ensures Times(a, k) <= Times(b, k)
  {
  }

  lemma ProjectMonotone(less: real, more: real, daysElapsed: int, daysInMonth: nat)
    requires less <= more && daysElapsed > 0
    ensures Project(less, daysElapsed, daysInMonth) <= Project(more, daysElapsed, daysInMonth)
  {
  }

  lemma PctMonotone(less: real, more: real, baseline: real)
    requires less <= more && baseline > 0.0
    ensures PctOver(less, baseline) <= PctOver(more, baseline)
  {
  }

  /** Spending more never lowers the severity, however the thresholds are ordered. */
  lemma SeverityMonotone(input: PaceInput, more: real)
    requires input.mtdSpend <= more
    ensures Rank(SeverityOf(input)) <= Rank(SeverityOf(input.(mtdSpend := more)))
  {
    if input.daysElapsed > 0 && Baseline(input).Some? && Baseline(input).value > 0.0 {
      var baseline := Baseline(input).value;
      assert Baseline(input.(mtdSpend := more)) == Baseline(input);
      ProjectMonotone(input.mtdSpend, more, input.daysElapsed, input.daysInMonth);
      PctMonotone(Project(input.mtdSpend, input.daysElapsed, input.daysInMonth),
                  Project(more, input.daysElapsed, input.daysInMonth), baseline);
    }
  }

  lemma PctAtLeast(projected: real, baseline: real, pct: real)
    requires baseline > 0.0
    ensures PctOver(projected, baseline) >= pct <==> 100.0 * (projected - baseline) >= Times(pct, baseline)
  {
    var q := (projected - baseline) / baseline;
    DivTimes(projected - baseline, baseline);
    ScaledAtLeast(q, projected - baseline, baseline, pct);
  }

  lemma ScaledAtLeast(q: real, over: real, baseline: real, pct: real)
    requires baseline > 0.0 && Times(q, baseline) == over
    ensures Times(q, 100.0) >= pct <==> 100.0 * over >= Times(pct, baseline)
  {
    var gap := 100.0 * q - pct;
    assert Times(gap, baseline) == 100.0 * over - Times(pct, baseline) by {
      assert (100.0 * q - pct) * baseline == 100.0 * (q * baseline) - pct * baseline;
    }
    if gap >= 0.0 {
      TimesMonotone(0.0, gap, baseline);
      assert Times(0.0, baseline) == 0.0;
    } else {
      TimesPositive(-gap, baseline);
      assert Times(-gap, baseline) == -Times(gap, baseline);
    }
  }

  /** The full month at the average of the days so far. */
  lemma ProjectExactly(mtdSpend: real, daysElapsed: int, daysInMonth: nat)
    requires daysElapsed > 0
    ensures
      Times(Project(mtdSpend, daysElapsed, daysInMonth), daysElapsed as real) == Times(mtdSpend, daysInMonth as real)
  {
    var rate, n, d := mtdSpend / daysElapsed as real, daysElapsed as real, daysInMonth as real;
    DivTimes(mtdSpend, n);
    Exchange(rate, n, d);
  }

  lemma Exchange(rate: real, n: real, d: real)
    ensures Times(Times(rate, d), n) == Times(Times(rate, n), d)
  {
  }

  /** There is a result exactly when a day has elapsed and the budget, or else last month, is positive. */
  lemma ResultExactly(input: PaceInput)
    ensures
      CalculateBudgetPace(input).Some? <==>
      input.daysElapsed > 0 &&
      if input.monthlyBudgetAmount.Some? then input.monthlyBudgetAmount.value > 0.0
      else input.previousMonthTotal.Some? && input.previousMonthTotal.value > 0.0
  {
  }

  /**
    The tiers, in the inputs: critical when a set budget is already spent or
    the projection is over the baseline by the critical percentage, else
    warning by the warning percentage, else info by ten, else none.
   */
  lemma TiersExactly(input: PaceInput)
    requires CalculateBudgetPace(input).Some?
    ensures
      var r := CalculateBudgetPace(input).value;
      var baseline :=
        if input.monthlyBudgetAmount.Some? then input.monthlyBudgetAmount.value else input.previousMonthTotal.value;
      var over := 100.0 * (r.projectedFullMonth - baseline);
      var breached := input.monthlyBudgetAmount.Some? && input.mtdSpend > input.monthlyBudgetAmount.value;
      var critical := breached || over >= Times(input.criticalThresholdPct, baseline);
      var warning := over >= Times(input.warningThresholdPct, baseline);
      var info := over >= 10.0 * baseline;
      Times(r.projectedFullMonth, input.daysElapsed as real) == Times(input.mtdSpend, input.daysInMonth as real) &&
      r.baseline == baseline && r.fromBudget == input.monthlyBudgetAmount.Some? && r.hardCapBreached == breached &&
      Times(r.pctOverPace, baseline) == over &&
      (r.severity == Some(Critical) <==> critical) &&
      (r.severity == Some(Warning) <==> !critical && warning) &&
      (r.severity == Some(Info) <==> !critical && !warning && info) &&
      (r.severity == None <==> !critical && !warning && !info)
  {
    var r := CalculateBudgetPace(input).value;
    ProjectExactly(input.mtdSpend, input.daysElapsed, input.daysInMonth);
    PctAtLeast(r.projectedFullMonth, r.baseline, input.criticalThresholdPct);
    PctAtLeast(r.projectedFullMonth, r.baseline, input.warningThresholdPct);
    PctAtLeast(r.projectedFullMonth, r.baseline, 10.0);
    assert Times(10.0, r.baseline) == 10.0 * r.baseline;
    DivTimes(r.projectedFullMonth - r.baseline, r.baseline);
    Exchange((r.projectedFullMonth - r.baseline) / r.baseline, r.baseline, 100.0);
    assert Times(r.projectedFullMonth - r.baseline, 100.0) == 100.0 * (r.projectedFullMonth - r.baseline);
  }
}
