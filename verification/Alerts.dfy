/** The alerts of cost budgets: at most one active per budget, and what a check writes. */
module Alerts {
  import opened Wrappers
  import opened Pace

  type Id = string

  datatype AlertStatus = Open | Acknowledged | Resolved

  datatype Alert = Alert(budget: Id, severity: Severity, status: AlertStatus)

  predicate Active(a: Alert) {
    a.status != Resolved
  }

  predicate ActiveFor(a: Alert, b: Id) {
    a.budget == b && Active(a)
  }

  /** The partial unique index: one active alert per budget. */
  ghost predicate OneActive(alerts: seq<Alert>) {
    forall i, j :: 0 <= i < j < |alerts| && alerts[i].budget == alerts[j].budget && Active(alerts[i]) ==>
      !Active(alerts[j])
  }

  /** The row the SELECT finds, if any. */
  function FindActive(alerts: seq<Alert>, b: Id): (r: Option<nat>)
    ensures r.Some? ==> r.value < |alerts| && ActiveFor(alerts[r.value], b)
    ensures r.None? ==> forall i :: 0 <= i < |alerts| ==> !ActiveFor(alerts[i], b)
  {
    FindLast(alerts, a => ActiveFor(a, b))
  }

  /** How bad budget `b` currently stands: 0 without an active alert, else the rank of its severity. */
  function Standing(alerts: seq<Alert>, b: Id): nat {
    match FindActive(alerts, b)
    case None => 0
    case Some(i) => Rank(Some(alerts[i].severity))
  }

  // ---------- What a check writes ----------

  /** `seen` is the severity the alert had when the check read it. */
  datatype Plan =
    | Nothing
    | Close(id: nat)
    | Insert(severity: Severity)
    | Revise(id: nat, severity: Severity, seen: Severity)

  function Decide(alerts: seq<Alert>, b: Id, verdict: Option<Severity>): Plan {
    match (FindActive(alerts, b), verdict)
    case (None, None) => Nothing
    case (Some(i), None) => Close(i)
    case (None, Some(s)) => Insert(s)
    case (Some(i), Some(s)) => Revise(i, s, alerts[i].severity)
  }

  function Verdict(plan: Plan): Option<Severity> {
    if plan.Insert? || plan.Revise? then Some(plan.severity) else None
  }

  /** A new alert, or a severity above the one that was read. */
  predicate Announces(plan: Plan) {
    plan.Insert? || (plan.Revise? && Rank(Some(plan.severity)) > Rank(Some(plan.seen)))
  }

  /** The row a plan updates, if it updates one. */
  predicate Updates(plan: Plan, i: nat) {
    (plan.Close? || plan.Revise?) && plan.id == i
  }

  /** The row a plan updates is an alert of the budget. */
  predicate Fits(alerts: seq<Alert>, b: Id, plan: Plan) {
    plan.Close? || plan.Revise? ==> plan.id < |alerts| && alerts[plan.id].budget == b
  }

  function Write(alerts: seq<Alert>, b: Id, plan: Plan): seq<Alert>
    requires Fits(alerts, b, plan)
  {
    match plan
    case Nothing => alerts
    case Close(i) => alerts[i := alerts[i].(status := Resolved)]
    case Insert(s) => alerts + [Alert(b, s, Open)]
    case Revise(i, s, _) => alerts[i := alerts[i].(severity := s)]
  }

  // ---------- How writes move the standing ----------

  lemma StandingIs(alerts: seq<Alert>, b: Id, i: nat)
    requires OneActive(alerts) && i < |alerts| && ActiveFor(alerts[i], b)
    ensures FindActive(alerts, b) == Some(i) && Standing(alerts, b) == Rank(Some(alerts[i].severity))
  {
  }

  /** Budgets never change and rows are never removed. */
  ghost predicate Extends(alerts: seq<Alert>, alerts': seq<Alert>) {
    |alerts| <= |alerts'| && forall i :: 0 <= i < |alerts| ==> alerts'[i].budget == alerts[i].budget
  }

  lemma ResolveMoves(alerts: seq<Alert>, i: nat, b: Id)
    requires OneActive(alerts) && i < |alerts|
    ensures
      var alerts' := alerts[i := alerts[i].(status := Resolved)];
      OneActive(alerts') && Extends(alerts, alerts') &&
      Standing(alerts', b) == if ActiveFor(alerts[i], b) then 0 else Standing(alerts, b)
  {
    var alerts' := alerts[i := alerts[i].(status := Resolved)];
    if ActiveFor(alerts[i], b) {
      forall j | 0 <= j < |alerts'|
        ensures !ActiveFor(alerts'[j], b)
      {
        assert j != i ==> alerts'[j] == alerts[j];
      }
    }
  }

  /** Acknowledging an alert that is not active any more reactivates it. */
  lemma AcknowledgeMoves(alerts: seq<Alert>, i: nat, b: Id)
    requires OneActive(alerts) && i < |alerts|
    requires Active(alerts[i]) || FindActive(alerts, alerts[i].budget).None?
    ensures
      var alerts' := alerts[i := alerts[i].(status := Acknowledged)];
      OneActive(alerts') && Extends(alerts, alerts') &&
      Standing(alerts', b) == if alerts[i].budget == b then Rank(Some(alerts[i].severity)) else Standing(alerts, b)
  {
    var alerts' := alerts[i := alerts[i].(status := Acknowledged)];
    if alerts[i].budget == b {
      StandingIs(alerts', b, i);
    }
  }

  lemma ReviseMoves(alerts: seq<Alert>, i: nat, sev: Severity, b: Id)
    requires OneActive(alerts) && i < |alerts|
    ensures
      var alerts' := alerts[i := alerts[i].(severity := sev)];
      OneActive(alerts') && Extends(alerts, alerts') &&
      Standing(alerts', b) == if ActiveFor(alerts[i], b) then Rank(Some(sev)) else Standing(alerts, b)
  {
    var alerts' := alerts[i := alerts[i].(severity := sev)];
    if ActiveFor(alerts[i], b) {
      StandingIs(alerts', b, i);
    }
  }

  lemma InsertMoves(alerts: seq<Alert>, owner: Id, sev: Severity, b: Id)
    requires OneActive(alerts) && FindActive(alerts, owner).None?
    ensures
      var alerts' := alerts + [Alert(owner, sev, Open)];
      OneActive(alerts') && Extends(alerts, alerts') &&
      Standing(alerts', b) == if b == owner then Rank(Some(sev)) else Standing(alerts, b)
  {
    var alerts' := alerts + [Alert(owner, sev, Open)];
    if b == owner {
      StandingIs(alerts', b, |alerts|);
    }
  }

  /** What the plan was made on still holds: no alert yet, or the alert that was read is still active. */
  predicate UpToDate(alerts: seq<Alert>, b: Id, plan: Plan)
    requires Fits(alerts, b, plan)
  {
    match plan
    case Nothing => FindActive(alerts, b).None?
    case Insert(_) => FindActive(alerts, b).None?
    case Close(i) => Active(alerts[i])
    case Revise(i, _, _) => Active(alerts[i])
  }

  /** A write that is up to date puts the budget where the verdict says; one that is not leaves every standing alone. */
  lemma WriteMoves(alerts: seq<Alert>, owner: Id, plan: Plan, b: Id)
    requires OneActive(alerts) && Fits(alerts, owner, plan) && (plan.Insert? ==> FindActive(alerts, owner).None?)
    ensures
      var alerts' := Write(alerts, owner, plan);
      OneActive(alerts') && Extends(alerts, alerts') &&
      Standing(alerts', b) ==
      if b == owner && UpToDate(alerts, owner, plan) then Rank(Verdict(plan)) else Standing(alerts, b)
  {
    match plan
    case Nothing =>
    case Close(i) => ResolveMoves(alerts, i, b);
    case Insert(sev) => InsertMoves(alerts, owner, sev, b);
    case Revise(i, sev, _) => ReviseMoves(alerts, i, sev, b);
  }

  lemma DecideIsUpToDate(alerts: seq<Alert>, b: Id, verdict: Option<Severity>)
    ensures
      var plan := Decide(alerts, b, verdict);
      Fits(alerts, b, plan) && UpToDate(alerts, b, plan) && Verdict(plan) == verdict &&
      (Announces(plan) <==> Rank(verdict) > Standing(alerts, b))
  {
  }

  /** After an uninterrupted check the budget stands exactly as its verdict says, and no other budget has moved. */
  lemma CheckSettles(alerts: seq<Alert>, b: Id, verdict: Option<Severity>, other: Id)
    requires OneActive(alerts)
    ensures
      var plan := Decide(alerts, b, verdict);
      Fits(alerts, b, plan) &&
      var alerts' := Write(alerts, b, plan);
      OneActive(alerts') && Standing(alerts', b) == Rank(verdict) &&
      (other != b ==> Standing(alerts', other) == Standing(alerts, other)) &&
      (Announces(plan) <==> Standing(alerts', b) > Standing(alerts, b))
  {
    DecideIsUpToDate(alerts, b, verdict);
    WriteMoves(alerts, b, Decide(alerts, b, verdict), b);
    WriteMoves(alerts, b, Decide(alerts, b, verdict), other);
  }

  /**
    What a check writes, row by row: the budget's active alert is resolved, or
    takes the new severity; without one a new open alert is added if there is a
    severity; every other row stays.
   */
  ghost predicate Rewrites(alerts: seq<Alert>, alerts': seq<Alert>, b: Id, verdict: Option<Severity>) {
    var active := exists i :: 0 <= i < |alerts| && ActiveFor(alerts[i], b);
    |alerts'| == (if verdict.Some? && !active then |alerts| + 1 else |alerts|) &&
    (forall i :: 0 <= i < |alerts| ==>
      alerts'[i] ==
      if !ActiveFor(alerts[i], b) then alerts[i]
      else if verdict.None? then alerts[i].(status := Resolved)
      else alerts[i].(severity := verdict.value)) &&
    (verdict.Some? && !active ==> alerts'[|alerts|] == Alert(b, verdict.value, Open))
  }

  lemma CheckRewrites(alerts: seq<Alert>, b: Id, verdict: Option<Severity>)
    requires OneActive(alerts)
    ensures
      var plan := Decide(alerts, b, verdict);
      Fits(alerts, b, plan) && Rewrites(alerts, Write(alerts, b, plan), b, verdict)
  {
    DecideIsUpToDate(alerts, b, verdict);
    var f := FindActive(alerts, b);
    if f.Some? {
      assert ActiveFor(alerts[f.value], b);
      forall i | 0 <= i < |alerts| && ActiveFor(alerts[i], b)
        ensures i == f.value
      {
        StandingIs(alerts, b, i);
      }
    }
  }
}
