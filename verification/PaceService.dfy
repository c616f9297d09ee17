/** Whole budget checks: what each leaves, that it is a run of its steps, and the service that does them. */
module PaceService {
  import opened Wrappers
  import opened Pace
  import opened Alerts
  import opened PaceCheck

  lemma {:induction false} RunSnoc(s: State, steps: seq<Step>, step: Step)
    ensures Run(s, steps + [step]) == Apply(Run(s, steps), step)
  {
    assert (steps + [step])[..|steps|] == steps;
  }

  lemma {:induction false} RunAppend(s: State, a: seq<Step>, b: seq<Step>)
    ensures Run(s, a + b) == Run(Run(s, a), b)
  {
    if b == [] {
      assert a + b == a;
    } else {
      var front, last := b[..|b| - 1], b[|b| - 1];
      RunAppend(s, a, front);
      RunSnoc(s, a + front, last);
      RunSnoc(Run(s, a), front, last);
      AppendSnoc(a, front, last);
      Unsnoc(b);
    }
  }

  lemma RunOne(s: State, step: Step)
    ensures Run(s, [step]) == Apply(s, step)
  {
    RunSnoc(s, [], step);
    assert [] + [step] == [step];
  }

  /** Where a check stops: it commits, or it fails having reached some stage. */
  datatype Fate = Commits | Fails(stage: Stage)

  datatype Tables = Tables(alerts: seq<Alert>, requests: seq<Id>)

  /** The check puts a request in the stream, whether or not it goes on to commit. */
  predicate Publishes(t: Tables, budget: Budget, verdict: Option<Severity>, fate: Fate) {
    budget.notifiable && Announces(Decide(t.alerts, budget.id, verdict)) && (fate == Commits || fate.stage == InStream)
  }

  function Checked(t: Tables, budget: Budget, verdict: Option<Severity>, fate: Fate): Tables {
    DecideIsUpToDate(t.alerts, budget.id, verdict);
    Tables(
      if fate == Commits then Write(t.alerts, budget.id, Decide(t.alerts, budget.id, verdict)) else t.alerts,
      if Publishes(t, budget, verdict, fate) then t.requests + [budget.id] else t.requests)
  }

  /** What a check leaves, in terms of standings, rows and requests. */
  lemma {:induction false} CheckedExactly(t: Tables, budget: Budget, verdict: Option<Severity>, fate: Fate)
    requires OneActive(t.alerts)
    ensures
      var t', b := Checked(t, budget, verdict, fate), budget.id;
      OneActive(t'.alerts) &&
      (if fate == Commits then Standing(t'.alerts, b) == Rank(verdict) && Rewrites(t.alerts, t'.alerts, b, verdict)
       else t'.alerts == t.alerts) &&
      (forall other :: other != b ==> Standing(t'.alerts, other) == Standing(t.alerts, other)) &&
      t'.requests ==
        if budget.notifiable && Rank(verdict) > Standing(t.alerts, b) && (fate == Commits || fate.stage == InStream)
        then t.requests + [b] else t.requests
  {
    DecideIsUpToDate(t.alerts, budget.id, verdict);
    CheckSettles(t.alerts, budget.id, verdict, budget.id);
    CheckRewrites(t.alerts, budget.id, verdict);
    forall other | other != budget.id
      ensures Standing(Checked(t, budget, verdict, fate).alerts, other) == Standing(t.alerts, other)
    {
      CheckSettles(t.alerts, budget.id, verdict, other);
    }
  }

  /** The stage a check reaches: one with nothing to announce goes no further than its write. */
  function Reached(tx: Tx, fate: Fate): Stage {
    var stage := if fate == Commits then InStream else fate.stage;
    if NeedsNotice(tx) || stage == Decided then stage else Written
  }

  function Order(stage: Stage): nat {
    match stage
    case Decided => 0
    case Written => 1
    case RowCommitted => 2
    case EventCommitted => 3
    case InStream => 4
  }

  /** The stage before, and the step from there. */
  function Before(p: Id, stage: Stage): (Stage, Step)
    requires stage != Decided
  {
    match stage
    case Written => (Decided, WriteAlert(p))
    case RowCommitted => (Written, CommitRow(p))
    case EventCommitted => (RowCommitted, CommitEvent(p))
    case InStream => (EventCommitted, Append(p))
  }

  function StepsTo(p: Id, stage: Stage): seq<Step>
    decreases Order(stage)
  {
    if stage == Decided then [] else StepsTo(p, Before(p, stage).0) + [Before(p, stage).1]
  }

  function At(s: State, p: Id, tx: Tx, stage: Stage): State {
    s.(txs := s.txs[p := tx.(stage := stage)],
       requests := if stage == InStream then s.requests + [tx.budget.id] else s.requests)
  }

  lemma OneStage(s: State, p: Id, tx: Tx, stage: Stage)
    requires stage != Decided && (stage == Written || NeedsNotice(tx))
    requires stage == Written ==> CanWrite(At(s, p, tx, Decided), tx)
    ensures Apply(At(s, p, tx, Before(p, stage).0), Before(p, stage).1) == At(s, p, tx, stage)
  {
    var from := Before(p, stage).0;
    assert s.txs[p := tx.(stage := from)][p := tx.(stage := stage)] == s.txs[p := tx.(stage := stage)];
  }

  /** The steps of one check, with nobody in the way, lead from stage to stage. */
  lemma {:induction false} StepsReach(s: State, p: Id, tx: Tx, stage: Stage)
    requires CanWrite(At(s, p, tx, Decided), tx)
    requires stage == Decided || stage == Written || NeedsNotice(tx)
    ensures Run(At(s, p, tx, Decided), StepsTo(p, stage)) == At(s, p, tx, stage)
    decreases Order(stage)
  {
    if stage != Decided {
      var (from, step) := Before(p, stage);
      StepsReach(s, p, tx, from);
      OneStage(s, p, tx, stage);
      RunAppend(At(s, p, tx, Decided), StepsTo(p, from), [step]);
      RunOne(At(s, p, tx, from), step);
    }
  }

  function CheckSteps(alerts: seq<Alert>, p: Id, budget: Budget, verdict: Option<Severity>, fate: Fate): seq<Step> {
    var tx := Tx(budget, Decide(alerts, budget.id, verdict), Decided);
    [Begin(p, budget, verdict)] + StepsTo(p, Reached(tx, fate)) + [if fate == Commits then Commit(p) else Abort(p)]
  }

  /** A check that nobody gets in the way of, whatever other checks are open, is its steps one after the other. */
  lemma CheckIsRun(s: State, p: Id, budget: Budget, verdict: Option<Severity>, fate: Fate)
    requires p !in s.txs
    requires CanWrite(s, Tx(budget, Decide(s.alerts, budget.id, verdict), Decided))
    ensures
      var t := Checked(Tables(s.alerts, s.requests), budget, verdict, fate);
      Run(s, CheckSteps(s.alerts, p, budget, verdict, fate)) == s.(alerts := t.alerts, requests := t.requests)
  {
    var tx := Tx(budget, Decide(s.alerts, budget.id, verdict), Decided);
    var stage, begin := Reached(tx, fate), Begin(p, budget, verdict);
    var last := if fate == Commits then Commit(p) else Abort(p);
    DecideIsUpToDate(s.alerts, budget.id, verdict);
    RunOne(s, begin);
    assert Apply(s, begin) == At(s, p, tx, Decided);
    StepsReach(s, p, tx, stage);
    RunAppend(s, [begin], StepsTo(p, stage));
    RunAppend(s, [begin] + StepsTo(p, stage), [last]);
    RunOne(At(s, p, tx, stage), last);
    LastStep(s, p, tx, verdict, fate);
  }

  lemma LastStep(s: State, p: Id, tx: Tx, verdict: Option<Severity>, fate: Fate)
    requires p !in s.txs && tx.plan == Decide(s.alerts, tx.budget.id, verdict)
    ensures
      var t := Checked(Tables(s.alerts, s.requests), tx.budget, verdict, fate);
      Apply(At(s, p, tx, Reached(tx, fate)), if fate == Commits then Commit(p) else Abort(p)) ==
      s.(alerts := t.alerts, requests := t.requests)
  {
    DecideIsUpToDate(s.alerts, tx.budget.id, verdict);
    assert s.txs[p := tx.(stage := Reached(tx, fate))] - {p} == s.txs;
  }

  // ---------- The service ----------

  datatype Task = Task(budget: Budget, input: PaceInput, fate: Fate)

  class Service {
    var alerts: seq<Alert>
    var requests: seq<Id>

    constructor ()
      ensures alerts == [] && requests == []
    {
      alerts, requests := [], [];
    }

    /** `notify`: nothing without a channel and recipient; otherwise the enqueue either completes or throws. */
    method Notify(budget: Budget, fate: Fate) returns (ok: bool)
      modifies this`requests
      ensures ok <==> !budget.notifiable || fate == Commits || fate.stage == InStream
      ensures requests == if ok && budget.notifiable then old(requests) + [budget.id] else old(requests)
    {
      if !budget.notifiable {
        return true;
      }
      if fate != Commits && fate.stage != InStream {
        return false;
      }
      requests := requests + [budget.id];
      ok := true;
    }

    /**
      `checkBudget`. If it commits, the budget stands as the pace says and no
      other budget has moved; if it fails, the alert table is as before.
     */
    method CheckBudget(budget: Budget, input: PaceInput, fate: Fate) returns (alerted: Option<bool>)
      requires OneActive(alerts)
      modifies this
      ensures Tables(alerts, requests) == Checked(Tables(old(alerts), old(requests)), budget, SeverityOf(input), fate)
      ensures alerted == if fate == Commits then Some(SeverityOf(input).Some?) else None
      ensures OneActive(alerts)
      ensures alerted.Some? ==> Standing(alerts, budget.id) == Rank(SeverityOf(input))
      ensures alerted.None? ==> alerts == old(alerts)
      ensures alerted.Some? ==> Rewrites(old(alerts), alerts, budget.id, SeverityOf(input))
      ensures requests ==
        if budget.notifiable && Rank(SeverityOf(input)) > Standing(old(alerts), budget.id) &&
           (fate == Commits || fate.stage == InStream)
        then old(requests) + [budget.id] else old(requests)
      ensures forall b :: b != budget.id ==> Standing(alerts, b) == Standing(old(alerts), b)
    {
      var result := CalculateBudgetPace(input);
      CheckedExactly(Tables(alerts, requests), budget, SeverityOf(input), fate);
      alerted := WriteVerdict(budget, if result.Some? then result.value.severity else None, fate);
    }

    /** The transaction of a check: the alert is closed, opened or revised, and announced before the commit. */
    method WriteVerdict(budget: Budget, verdict: Option<Severity>, fate: Fate) returns (alerted: Option<bool>)
      modifies this
      ensures Tables(alerts, requests) == Checked(Tables(old(alerts), old(requests)), budget, verdict, fate)
      ensures alerted == if fate == Commits then Some(verdict.Some?) else None
    {
      var snapshot := alerts;
      var open := FindActive(alerts, budget.id);
      var ok := true;
      if verdict.None? {
        if open.Some? {
          alerts := alerts[open.value := alerts[open.value].(status := Resolved)];
        }
        alerted := Some(false);
      } else {
        var severity := verdict.value;
        if open.None? {
          alerts := alerts + [Alert(budget.id, severity, Open)];
          ok := Notify(budget, fate);
        } else {
          var worse := Rank(Some(severity)) > Rank(Some(alerts[open.value].severity));
          alerts := alerts[open.value := alerts[open.value].(severity := severity)];
          if worse {
            ok := Notify(budget, fate);
          }
        }
        alerted := Some(true);
      }
      if !ok || fate != Commits {
        alerts := snapshot;
        alerted := None;
      }
    }

    /** The same, told by how the budgets stand. */
    method CheckOne(task: Task) returns (alerted: bool)
      requires OneActive(alerts)
      modifies this
      ensures OneActive(alerts)
      ensures alerted <==> task.fate == Commits && SeverityOf(task.input).Some?
      ensures Standing(alerts, task.budget.id) ==
        if task.fate == Commits then Rank(SeverityOf(task.input)) else Standing(old(alerts), task.budget.id)
      ensures forall b :: b != task.budget.id ==> Standing(alerts, b) == Standing(old(alerts), b)
    {
      var result := CheckBudget(task.budget, task.input, task.fate);
      alerted := result == Some(true);
    }

    /**
      `checkTenant`: every active budget in turn, a failing one logged and
      skipped. Afterwards each budget whose check committed stands as its pace
      says, and the count is of those that came out with a severity.
     */
    method CheckTenant(tasks: seq<Task>) returns (count: nat)
      requires OneActive(alerts)
      requires forall i, j :: 0 <= i < j < |tasks| ==> tasks[i].budget.id != tasks[j].budget.id
      modifies this
      ensures OneActive(alerts)
      ensures forall i :: 0 <= i < |tasks| ==>
        Standing(alerts, tasks[i].budget.id) ==
        if tasks[i].fate == Commits then Rank(SeverityOf(tasks[i].input)) else Standing(old(alerts), tasks[i].budget.id)
      ensures count == |AlertedIn(tasks, |tasks|)|
    {
      count := 0;
      for k := 0 to |tasks|
        invariant OneActive(alerts) && StandSoFar(old(alerts), alerts, tasks, k) && count == |AlertedIn(tasks, k)|
      {
        AlertedMore(tasks, k);
        ghost var before := alerts;
        var alerted := CheckOne(tasks[k]);
        if alerted {
          count := count + 1;
        }
      }
    }
  }

  /** The budgets of the first `n` checks stand as those left them, the others as they were. */
  ghost predicate StandSoFar(alerts: seq<Alert>, alerts': seq<Alert>, tasks: seq<Task>, n: nat) {
    forall i :: 0 <= i < |tasks| ==>
      Standing(alerts', tasks[i].budget.id) ==
      if i < n && tasks[i].fate == Commits then Rank(SeverityOf(tasks[i].input))
      else Standing(alerts, tasks[i].budget.id)
  }

  /** The checks among the first `n` that commit with a severity. */
  function AlertedIn(tasks: seq<Task>, n: nat): set<int>
    requires n <= |tasks|
  {
    set i | 0 <= i < n && tasks[i].fate == Commits && SeverityOf(tasks[i].input).Some?
  }

  lemma AlertedMore(tasks: seq<Task>, n: nat)
    requires n < |tasks|
    ensures
      |AlertedIn(tasks, n + 1)| ==
      |AlertedIn(tasks, n)| + if tasks[n].fate == Commits && SeverityOf(tasks[n].input).Some? then 1 else 0
  {
    if tasks[n].fate == Commits && SeverityOf(tasks[n].input).Some? {
      assert AlertedIn(tasks, n + 1) == AlertedIn(tasks, n) + {n};
    } else {
      assert AlertedIn(tasks, n + 1) == AlertedIn(tasks, n);
    }
  }
}
