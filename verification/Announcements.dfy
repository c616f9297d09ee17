/** Counting notifications against the rises of a budget, over every run of checks and outside calls. */
module Announcements {
  import opened Wrappers
  import opened Pace
  import opened Alerts
  import opened PaceCheck

  /** The step makes `b` stand worse in the committed table. */
  predicate Rise(s: State, step: Step, b: Id) {
    Standing(Apply(s, step).alerts, b) > Standing(s.alerts, b)
  }

  /** The step ends a check of `b`, well or badly. */
  predicate Ends(s: State, step: Step, b: Id) {
    (step.Commit? || step.Abort?) && Enabled(s, step) && s.txs[step.p].budget.id == b
  }

  predicate EndsWell(s: State, step: Step, b: Id) {
    step.Commit? && Ends(s, step, b)
  }

  datatype Kind = AnyRise | Announced | FalseAlarm | NoChannel | Reactivation | Overtaken | NotifiableCheck

  predicate Is(k: Kind, s: State, step: Step, b: Id) {
    match k
    case AnyRise => Rise(s, step, b)
    case Announced => Rise(s, step, b) && Ends(s, step, b) && s.txs[step.p].stage == InStream
    case FalseAlarm => !Rise(s, step, b) && Ends(s, step, b) && s.txs[step.p].stage == InStream
    case NoChannel => Rise(s, step, b) && EndsWell(s, step, b) && !s.txs[step.p].budget.notifiable
    case Reactivation => Rise(s, step, b) && step.Move?
    case Overtaken =>
      Rise(s, step, b) && EndsWell(s, step, b) && s.txs[step.p].budget.notifiable && !Announces(s.txs[step.p].plan)
    case NotifiableCheck => step.Begin? && Enabled(s, step) && step.budget == Budget(b, true)
  }

  function One(k: Kind, s: State, step: Step, b: Id): nat {
    if Is(k, s, step, b) then 1 else 0
  }

  /** How many steps of a run are of a kind. */
  function Count(k: Kind, steps: seq<Step>, b: Id): nat {
    if steps == [] then 0
    else
      var n := |steps| - 1;
      Count(k, steps[..n], b) + One(k, Run(INIT, steps[..n]), steps[n], b)
  }

  /** The stream entries about `b`. */
  function Notices(requests: seq<Id>, b: Id): nat {
    multiset(requests)[b]
  }

  /** The check is of `b` and has announced it, or may still do so. */
  predicate Among(tx: Tx, b: Id, announced: bool) {
    if announced then tx.budget.id == b && tx.stage == InStream
    else tx.budget == Budget(b, true) && tx.stage != InStream
  }

  function Those(txs: map<Id, Tx>, b: Id, announced: bool): set<Id> {
    set p | p in txs && Among(txs[p], b, announced)
  }

  /** The open checks that have announced `b`. */
  function Ahead(s: State, b: Id): nat {
    |Those(s.txs, b, true)|
  }

  /** The open checks that may still announce `b`. */
  function Waiting(s: State, b: Id): nat {
    |Those(s.txs, b, false)|
  }

  function Member(txs: map<Id, Tx>, p: Id, b: Id, announced: bool): nat {
    if p in txs && Among(txs[p], b, announced) then 1 else 0
  }

  lemma ThoseDrop(txs: map<Id, Tx>, p: Id, b: Id, announced: bool)
    ensures |Those(txs, b, announced)| == |Those(txs - {p}, b, announced)| + Member(txs, p, b, announced)
  {
    var others := Those(txs - {p}, b, announced);
    if Member(txs, p, b, announced) == 1 {
      assert Those(txs, b, announced) == others + {p};
    } else {
      assert Those(txs, b, announced) == others;
    }
  }

  lemma ThosePut(txs: map<Id, Tx>, p: Id, tx: Tx, b: Id, announced: bool)
    ensures |Those(txs[p := tx], b, announced)| + Member(txs, p, b, announced) ==
      |Those(txs, b, announced)| + Member(txs[p := tx], p, b, announced)
  {
    assert txs[p := tx] - {p} == txs - {p};
    ThoseDrop(txs, p, b, announced);
    ThoseDrop(txs[p := tx], p, b, announced);
  }

  /** A step changes at most the check it is of. */
  lemma ThoseAfter(s: State, step: Step, b: Id, announced: bool)
    requires Enabled(s, step)
    ensures
      var txs := Effect(s, step).txs;
      if step.LookUp? || step.Move? || step.GiveUp? then txs == s.txs
      else |Those(txs, b, announced)| + Member(s.txs, step.p, b, announced) ==
           |Those(s.txs, b, announced)| + Member(txs, step.p, b, announced)
  {
    var txs := Effect(s, step).txs;
    if step.Commit? || step.Abort? {
      ThoseDrop(s.txs, step.p, b, announced);
    } else if !(step.LookUp? || step.Move? || step.GiveUp?) {
      assert txs == s.txs[step.p := txs[step.p]];
      ThosePut(s.txs, step.p, txs[step.p], b, announced);
    }
  }

  lemma CommitRises(s: State, p: Id, b: Id)
    requires Inv(s) && Enabled(s, Commit(p))
    ensures
      var tx := s.txs[p];
      Rise(s, Commit(p), b) <==>
      b == tx.budget.id && UpToDate(s.alerts, b, tx.plan) && Rank(Verdict(tx.plan)) > Standing(s.alerts, b)
  {
    var tx := s.txs[p];
    assert TxHolds(s.alerts, tx);
    WriteMoves(s.alerts, tx.budget.id, tx.plan, b);
  }

  /** Only a commit or a call from outside moves an alert, and a rise is of exactly one kind. */
  lemma {:induction false} RiseHasOneKind(s: State, step: Step, b: Id)
    requires Inv(s)
    ensures One(AnyRise, s, step, b) ==
      One(Announced, s, step, b) + One(NoChannel, s, step, b) +
      One(Reactivation, s, step, b) + One(Overtaken, s, step, b)
  {
    if Rise(s, step, b) {
      assert step.Commit? || step.Move?;
      if step.Commit? {
        CommitRises(s, step.p, b);
        assert TxHolds(s.alerts, s.txs[step.p]);
      }
    }
  }

  lemma {:induction false} NoticeStep(s: State, step: Step, b: Id)
    requires Inv(s)
    ensures
      var s' := Apply(s, step);
      Notices(s'.requests, b) + Ahead(s, b) ==
      Notices(s.requests, b) + Ahead(s', b) + One(Announced, s, step, b) + One(FalseAlarm, s, step, b)
  {
    if Enabled(s, step) {
      ThoseAfter(s, step, b, true);
    }
  }

  /**
    Every entry in the stream is accounted for, in every run and for every
    budget, however its configuration changes on the way: it announces a rise
    that has been committed since, or is a false alarm, or belongs to a check
    that is still open. And every rise was announced first but for those of
    the three kinds characterised below.
   */
  lemma {:induction false} NoticesCountRises(steps: seq<Step>, b: Id)
    ensures Notices(Run(INIT, steps).requests, b) ==
      Count(Announced, steps, b) + Count(FalseAlarm, steps, b) + Ahead(Run(INIT, steps), b)
    ensures Count(AnyRise, steps, b) ==
      Count(Announced, steps, b) + Count(NoChannel, steps, b) +
      Count(Reactivation, steps, b) + Count(Overtaken, steps, b)
  {
    if steps == [] {
      assert Those(INIT.txs, b, true) == {};
    } else {
      var n := |steps| - 1;
      NoticesCountRises(steps[..n], b);
      RunKeepsInv(steps[..n]);
      NoticeStep(Run(INIT, steps[..n]), steps[n], b);
      RiseHasOneKind(Run(INIT, steps[..n]), steps[n], b);
    }
  }

  /**
    Announce before commit. At every point of every run, whatever failed or
    crashed, the committed rises of a budget other than the unannounced three
    kinds, and the announced ones still to come, have an entry each.
   */
  lemma {:induction false} AnnouncedBeforeCommitted(steps: seq<Step>, b: Id)
    ensures Count(AnyRise, steps, b) + Ahead(Run(INIT, steps), b) <=
      Notices(Run(INIT, steps).requests, b) +
      Count(NoChannel, steps, b) + Count(Reactivation, steps, b) + Count(Overtaken, steps, b)
  {
    NoticesCountRises(steps, b);
  }

  // ---------- The unannounced kinds, exactly ----------

  /** A commit of a notifiable budget goes unannounced exactly when the alert now stands below what the check read. */
  lemma OvertakenIff(s: State, p: Id)
    requires Inv(s) && Enabled(s, Commit(p))
    ensures
      var tx := s.txs[p];
      Is(Overtaken, s, Commit(p), tx.budget.id) <==>
      tx.budget.notifiable && tx.plan.Revise? && Active(s.alerts[tx.plan.id]) &&
      Rank(Some(s.alerts[tx.plan.id].severity)) < Rank(Some(tx.plan.severity)) <= Rank(Some(tx.plan.seen))
  {
    var tx := s.txs[p];
    assert TxHolds(s.alerts, tx);
    CommitRises(s, p, tx.budget.id);
    if tx.plan.Revise? && Active(s.alerts[tx.plan.id]) {
      StandingIs(s.alerts, tx.budget.id, tx.plan.id);
    }
  }

  /** An outside call raises a budget exactly when it acknowledges an alert that has been resolved since it looked. */
  lemma ReactivationIff(s: State, call: Call)
    requires Inv(s) && Enabled(s, Move(call))
    ensures
      var a := s.alerts[call.id];
      Is(Reactivation, s, Move(call), a.budget) <==> call.to == Acknowledged && a.status == Resolved
  {
    var a := s.alerts[call.id];
    MovesTo(s, call, a.budget);
    if Active(a) {
      StandingIs(s.alerts, a.budget, call.id);
    }
  }

  /** An announced check is a false alarm exactly when it fails, or its alert was resolved or raised meanwhile. */
  lemma FalseAlarmIff(s: State, step: Step, b: Id)
    requires Inv(s) && Ends(s, step, b) && s.txs[step.p].stage == InStream
    ensures
      var plan := s.txs[step.p].plan;
      Is(FalseAlarm, s, step, b) <==>
      step.Abort? ||
      (plan.Revise? &&
       (!Active(s.alerts[plan.id]) || Rank(Some(s.alerts[plan.id].severity)) >= Rank(Some(plan.severity))))
  {
    var tx := s.txs[step.p];
    assert TxHolds(s.alerts, tx);
    if step.Commit? {
      CommitRises(s, step.p, b);
      if tx.plan.Revise? && Active(s.alerts[tx.plan.id]) {
        StandingIs(s.alerts, b, tx.plan.id);
      }
    }
  }

  /** No two checks of `b` are open at once. */
  ghost predicate Alone(s: State, b: Id) {
    forall p, q :: p in s.txs && q in s.txs && s.txs[p].budget.id == b && s.txs[q].budget.id == b ==> p == q
  }

  ghost predicate Serial(steps: seq<Step>, b: Id) {
    Alone(Run(INIT, steps), b) && (steps != [] ==> Serial(steps[..|steps| - 1], b))
  }

  /** What the open checks of `b` have read is still so. */
  ghost predicate ReadsHold(s: State, b: Id) {
    forall p :: p in s.txs && s.txs[p].budget.id == b && s.txs[p].plan.Revise? ==>
      s.txs[p].plan.id < |s.alerts| && s.alerts[s.txs[p].plan.id].severity == s.txs[p].plan.seen
  }

  lemma {:induction false} SerialStep(s: State, step: Step, b: Id)
    requires Inv(s) && Alone(s, b) && ReadsHold(s, b) && Enabled(s, step)
    ensures ReadsHold(Effect(s, step), b)
  {
    var s' := Effect(s, step);
    forall p | p in s'.txs && s'.txs[p].budget.id == b && s'.txs[p].plan.Revise?
      ensures s'.txs[p].plan.id < |s'.alerts| && s'.alerts[s'.txs[p].plan.id].severity == s'.txs[p].plan.seen
    {
      if step.Commit? {
        assert TxHolds(s.alerts, s.txs[p]) && TxHolds(s.alerts, s.txs[step.p]);
      } else if !(step.Begin? && step.p == p) {
        assert p in s.txs && s.txs[p].plan == s'.txs[p].plan;
      }
    }
  }

  lemma {:induction false} SerialReadsHold(steps: seq<Step>, b: Id)
    requires Serial(steps, b)
    ensures ReadsHold(Run(INIT, steps), b)
  {
    if steps != [] {
      var n := |steps| - 1;
      SerialReadsHold(steps[..n], b);
      RunKeepsInv(steps[..n]);
      if Enabled(Run(INIT, steps[..n]), steps[n]) {
        SerialStep(Run(INIT, steps[..n]), steps[n], b);
      }
    }
  }

  /** While the checks of a budget run one at a time, as within one process, none is overtaken. */
  lemma {:induction false} SerialNeverOvertaken(steps: seq<Step>, b: Id)
    requires Serial(steps, b)
    ensures Count(Overtaken, steps, b) == 0
  {
    if steps != [] {
      var n := |steps| - 1;
      var s := Run(INIT, steps[..n]);
      SerialNeverOvertaken(steps[..n], b);
      RunKeepsInv(steps[..n]);
      SerialReadsHold(steps[..n], b);
      if EndsWell(s, steps[n], b) {
        OvertakenIff(s, steps[n].p);
      }
    }
  }

  // ---------- Silence ----------

  lemma WaitingStep(s: State, step: Step, b: Id)
    requires Inv(s)
    ensures
      var s' := Apply(s, step);
      Waiting(s', b) + Notices(s'.requests, b) <=
      Waiting(s, b) + Notices(s.requests, b) + One(NotifiableCheck, s, step, b)
  {
    if Enabled(s, step) {
      ThoseAfter(s, step, b, false);
      if step.Append? {
        assert TxHolds(s.alerts, s.txs[step.p]);
      }
    }
  }

  /** There are no more entries about a budget than checks that found a channel and a recipient: none without one. */
  lemma {:induction false} NoticesWithinChecks(steps: seq<Step>, b: Id)
    ensures Waiting(Run(INIT, steps), b) + Notices(Run(INIT, steps).requests, b) <= Count(NotifiableCheck, steps, b)
  {
    if steps == [] {
      assert Those(INIT.txs, b, false) == {};
    } else {
      var n := |steps| - 1;
      NoticesWithinChecks(steps[..n], b);
      RunKeepsInv(steps[..n]);
      WaitingStep(Run(INIT, steps[..n]), steps[n], b);
    }
  }
}
