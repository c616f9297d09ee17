/**
  Budget checks and their notifications.

  A budget check runs in one transaction that reads the budget's active alert,
  writes the new verdict and, when an alert opens or gets worse, enqueues a
  notification through transactions of its own before it commits. The state
  machine below runs any number of checks at once, in one process or several,
  together with acknowledgements and resolutions from outside, and lets each
  of them fail or crash between any two of its steps. Transactions see what is
  committed; a written row, and the slot of an inserted one in the unique
  index, stay locked until the writer ends.

  `NoticesCountRises` accounts for every entry in the stream and every rise of
  a budget in every run. The rises that go unannounced are of three kinds, and
  each is characterised exactly: no channel configured, an acknowledgement
  that lands on an alert resolved since it was looked up, and a check overtaken
  by another one of the same budget.
 */
module PaceCheck {
  import opened Wrappers
  import opened Pace
  import opened Alerts

  /** `notifiable`: both a channel and a recipient are configured. */
  datatype Budget = Budget(id: Id, notifiable: bool)

  /** How far a check is: decided, alert written, notification row, event row, stream entry. */
  datatype Stage = Decided | Written | RowCommitted | EventCommitted | InStream

  datatype Tx = Tx(budget: Budget, plan: Plan, stage: Stage)

  /** A call from outside that has looked its alert up and found it may move to `to`. */
  datatype Call = Call(id: nat, to: AlertStatus)

  /**
    `alerts` is the committed table; `requests` names, for each
    `notification.requested` entry of the stream, the budget it is about;
    `txs` holds the checks that are open.
   */
  datatype State = State(alerts: seq<Alert>, requests: seq<Id>, txs: map<Id, Tx>, calls: multiset<Call>)

  const INIT := State([], [], map[], multiset{})

  predicate NeedsNotice(tx: Tx) {
    tx.budget.notifiable && Announces(tx.plan)
  }

  // ---------- Locks ----------

  predicate HoldsRow(tx: Tx, i: nat) {
    tx.stage != Decided && Updates(tx.plan, i)
  }

  /** The check has updated a row. */
  predicate Updating(tx: Tx) {
    tx.stage != Decided && (tx.plan.Close? || tx.plan.Revise?)
  }

  predicate HoldsSlot(tx: Tx, b: Id) {
    tx.stage != Decided && tx.plan.Insert? && tx.budget.id == b
  }

  predicate RowFree(txs: map<Id, Tx>, i: nat) {
    forall p :: p in txs ==> !HoldsRow(txs[p], i)
  }

  predicate SlotFree(txs: map<Id, Tx>, b: Id) {
    forall p :: p in txs ==> !HoldsSlot(txs[p], b)
  }

  // ---------- Steps ----------

  datatype Step =
    | Begin(p: Id, budget: Budget, verdict: Option<Severity>)
    | WriteAlert(p: Id)
    | CommitRow(p: Id)
    | CommitEvent(p: Id)
    | Append(p: Id)
    | Commit(p: Id)
    | Abort(p: Id)
    | LookUp(call: Call)
    | Move(call: Call)
    | GiveUp(call: Call)

  predicate Allowed(a: Alert, to: AlertStatus) {
    match to
    case Open => false
    case Acknowledged => a.status == Open
    case Resolved => Active(a)
  }

  predicate CanWrite(s: State, tx: Tx) {
    match tx.plan
    case Nothing => true
    case Close(i) => RowFree(s.txs, i)
    case Insert(_) => FindActive(s.alerts, tx.budget.id).None? && SlotFree(s.txs, tx.budget.id)
    case Revise(i, _, _) => RowFree(s.txs, i)
  }

  /** The UPDATE goes by id alone, so only locks and the unique index can stop it. */
  predicate CanMove(s: State, call: Call) {
    call in s.calls && call.id < |s.alerts| && RowFree(s.txs, call.id) &&
    (call.to == Resolved || Active(s.alerts[call.id]) ||
     (FindActive(s.alerts, s.alerts[call.id].budget).None? && SlotFree(s.txs, s.alerts[call.id].budget)))
  }

  predicate Enabled(s: State, step: Step) {
    match step
    case Begin(p, _, _) => p !in s.txs
    case WriteAlert(p) => p in s.txs && s.txs[p].stage == Decided && CanWrite(s, s.txs[p])
    case CommitRow(p) => p in s.txs && s.txs[p].stage == Written && NeedsNotice(s.txs[p])
    case CommitEvent(p) => p in s.txs && s.txs[p].stage == RowCommitted
    case Append(p) => p in s.txs && s.txs[p].stage == EventCommitted
    case Commit(p) =>
      p in s.txs && s.txs[p].stage == (if NeedsNotice(s.txs[p]) then InStream else Written) &&
      Fits(s.alerts, s.txs[p].budget.id, s.txs[p].plan)
    case Abort(p) => p in s.txs
    case LookUp(call) => call.id < |s.alerts| && Allowed(s.alerts[call.id], call.to)
    case Move(call) => CanMove(s, call)
    case GiveUp(call) => call in s.calls
  }

  function Reach(s: State, p: Id, stage: Stage): State
    requires p in s.txs
  {
    s.(txs := s.txs[p := s.txs[p].(stage := stage)])
  }

  function Effect(s: State, step: Step): State
    requires Enabled(s, step)
  {
    match step
    case Begin(p, budget, verdict) => s.(txs := s.txs[p := Tx(budget, Decide(s.alerts, budget.id, verdict), Decided)])
    case WriteAlert(p) => Reach(s, p, Written)
    case CommitRow(p) => Reach(s, p, RowCommitted)
    case CommitEvent(p) => Reach(s, p, EventCommitted)
    case Append(p) => Reach(s, p, InStream).(requests := s.requests + [s.txs[p].budget.id])
    case Commit(p) => s.(alerts := Write(s.alerts, s.txs[p].budget.id, s.txs[p].plan), txs := s.txs - {p})
    case Abort(p) => s.(txs := s.txs - {p})
    case LookUp(call) => s.(calls := s.calls + multiset{call})
    case Move(call) =>
      s.(alerts := s.alerts[call.id := s.alerts[call.id].(status := call.to)], calls := s.calls - multiset{call})
    case GiveUp(call) => s.(calls := s.calls - multiset{call})
  }

  function Apply(s: State, step: Step): State {
    if Enabled(s, step) then Effect(s, step) else s
  }

  function Run(s: State, steps: seq<Step>): State {
    if steps == [] then s else Apply(Run(s, steps[..|steps| - 1]), steps[|steps| - 1])
  }

  // ---------- Invariant ----------

  /** A plan is about an alert of its budget, its slot is empty once taken, and only a notice goes past `Written`. */
  predicate TxHolds(alerts: seq<Alert>, tx: Tx) {
    Fits(alerts, tx.budget.id, tx.plan) &&
    (HoldsSlot(tx, tx.budget.id) ==> FindActive(alerts, tx.budget.id).None?) &&
    (tx.stage == Decided || tx.stage == Written || NeedsNotice(tx))
  }

  ghost predicate TxsHold(alerts: seq<Alert>, txs: map<Id, Tx>) {
    forall p :: p in txs ==> TxHolds(alerts, txs[p])
  }

  ghost predicate SlotsApart(txs: map<Id, Tx>) {
    forall p, q :: p in txs && q in txs && p != q && HoldsSlot(txs[p], txs[p].budget.id) ==>
      !HoldsSlot(txs[q], txs[p].budget.id)
  }

  ghost predicate RowsApart(txs: map<Id, Tx>) {
    forall p, q :: p in txs && q in txs && p != q && Updating(txs[p]) && Updating(txs[q]) ==>
      txs[p].plan.id != txs[q].plan.id
  }

  ghost predicate Inv(s: State) {
    OneActive(s.alerts) && TxsHold(s.alerts, s.txs) && SlotsApart(s.txs) && RowsApart(s.txs) &&
    forall call :: call in s.calls ==> call.to != Open
  }

  /** Nothing becomes active for a budget whose slot is held. */
  ghost predicate SlotsKept(alerts: seq<Alert>, txs: map<Id, Tx>) {
    forall p :: p in txs && HoldsSlot(txs[p], txs[p].budget.id) ==> FindActive(alerts, txs[p].budget.id).None?
  }

  lemma {:induction false} TableMoves(s: State, alerts: seq<Alert>, txs: map<Id, Tx>, calls: multiset<Call>)
    requires Inv(s) && OneActive(alerts) && Extends(s.alerts, alerts) && calls <= s.calls
    requires (forall p :: p in txs ==> p in s.txs && txs[p] == s.txs[p]) && SlotsKept(alerts, txs)
    ensures Inv(State(alerts, s.requests, txs, calls))
  {
  }

  /** Standings that do not rise from 0 keep the slots. */
  lemma {:induction false} SlotsStay(s: State, alerts: seq<Alert>, txs: map<Id, Tx>)
    requires Inv(s) && forall p :: p in txs ==> p in s.txs && txs[p] == s.txs[p]
    requires forall p :: p in txs && HoldsSlot(txs[p], txs[p].budget.id) ==> Standing(alerts, txs[p].budget.id) == 0
    ensures SlotsKept(alerts, txs)
  {
    forall p | p in txs && HoldsSlot(txs[p], txs[p].budget.id)
      ensures FindActive(alerts, txs[p].budget.id).None?
    {
      assert Standing(alerts, txs[p].budget.id) == 0;
    }
  }

  lemma {:induction false} CommitKeepsInv(s: State, p: Id)
    requires Inv(s) && Enabled(s, Commit(p))
    ensures Inv(Effect(s, Commit(p)))
  {
    var tx := s.txs[p];
    var alerts, txs := Write(s.alerts, tx.budget.id, tx.plan), s.txs - {p};
    assert TxHolds(s.alerts, tx);
    WriteMoves(s.alerts, tx.budget.id, tx.plan, tx.budget.id);
    forall q | q in txs && HoldsSlot(txs[q], txs[q].budget.id)
      ensures Standing(alerts, txs[q].budget.id) == 0
    {
      assert TxHolds(s.alerts, s.txs[q]);
      WriteMoves(s.alerts, tx.budget.id, tx.plan, txs[q].budget.id);
    }
    SlotsStay(s, alerts, txs);
    TableMoves(s, alerts, txs, s.calls);
  }

  lemma {:induction false} MoveKeepsInv(s: State, call: Call)
    requires Inv(s) && Enabled(s, Move(call))
    ensures Inv(Effect(s, Move(call)))
  {
    var alerts := s.alerts[call.id := s.alerts[call.id].(status := call.to)];
    MovesTo(s, call, "");
    forall q | q in s.txs && HoldsSlot(s.txs[q], s.txs[q].budget.id)
      ensures Standing(alerts, s.txs[q].budget.id) == 0
    {
      assert TxHolds(s.alerts, s.txs[q]);
      MovesTo(s, call, s.txs[q].budget.id);
    }
    SlotsStay(s, alerts, s.txs);
    TableMoves(s, alerts, s.txs, s.calls - multiset{call});
  }

  lemma {:induction false} MovesTo(s: State, call: Call, b: Id)
    requires Inv(s) && Enabled(s, Move(call))
    ensures
      var a, alerts := s.alerts[call.id], s.alerts[call.id := s.alerts[call.id].(status := call.to)];
      OneActive(alerts) && Extends(s.alerts, alerts) &&
      Standing(alerts, b) ==
      if a.budget != b then Standing(s.alerts, b)
      else if call.to == Acknowledged then Rank(Some(a.severity))
      else if Active(a) then 0 else Standing(s.alerts, b)
  {
    if call.to == Acknowledged {
      AcknowledgeMoves(s.alerts, call.id, b);
    } else {
      ResolveMoves(s.alerts, call.id, b);
    }
  }

  lemma {:induction false} BeginKeepsInv(s: State, p: Id, budget: Budget, verdict: Option<Severity>)
    requires Inv(s) && p !in s.txs
    ensures Inv(Effect(s, Begin(p, budget, verdict)))
  {
    DecideIsUpToDate(s.alerts, budget.id, verdict);
  }

  lemma {:induction false} ReachKeepsInv(s: State, p: Id, stage: Stage)
    requires Inv(s) && p in s.txs && stage != Decided
    requires if stage == Written then s.txs[p].stage == Decided && CanWrite(s, s.txs[p])
      else NeedsNotice(s.txs[p]) && s.txs[p].stage != Decided
    ensures Inv(Reach(s, p, stage))
  {
    assert TxHolds(s.alerts, s.txs[p]);
  }

  /** Every step of every check and call keeps the invariant. */
  lemma {:induction false} StepKeepsInv(s: State, step: Step)
    requires Inv(s)
    ensures Inv(Apply(s, step))
  {
    if Enabled(s, step) {
      match step
      case Begin(p, budget, verdict) => BeginKeepsInv(s, p, budget, verdict);
      case WriteAlert(p) => ReachKeepsInv(s, p, Written);
      case CommitRow(p) => ReachKeepsInv(s, p, RowCommitted);
      case CommitEvent(p) => assert TxHolds(s.alerts, s.txs[p]); ReachKeepsInv(s, p, EventCommitted);
      case Append(p) => assert TxHolds(s.alerts, s.txs[p]); ReachKeepsInv(s, p, InStream);
      case Commit(p) => CommitKeepsInv(s, p);
      case Abort(p) =>
      case LookUp(_) =>
      case Move(call) => MoveKeepsInv(s, call);
      case GiveUp(_) =>
    }
  }

  /** A row that a check has written changes for nobody else until that check ends. */
  lemma {:induction false} WrittenRowIsLocked(s: State, step: Step, p: Id, i: nat)
    requires Inv(s) && p in s.txs && HoldsRow(s.txs[p], i) && step != Commit(p) && step != Abort(p)
    ensures
      var s' := Apply(s, step);
      i < |s.alerts| && i < |s'.alerts| && s'.alerts[i] == s.alerts[i] && p in s'.txs && HoldsRow(s'.txs[p], i)
  {
    assert TxHolds(s.alerts, s.txs[p]);
    if Enabled(s, step) && step.Commit? {
      assert TxHolds(s.alerts, s.txs[step.p]);
      assert !HoldsRow(s.txs[step.p], i);
    }
  }

  lemma {:induction false} RunKeepsInv(steps: seq<Step>)
    ensures Inv(Run(INIT, steps))
  {
    if steps != [] {
      RunKeepsInv(steps[..|steps| - 1]);
      StepKeepsInv(Run(INIT, steps[..|steps| - 1]), steps[|steps| - 1]);
    }
  }

  /** In every reachable state a budget has at most one active alert. */
  lemma {:induction false} AtMostOneActive(steps: seq<Step>, i: nat, j: nat)
    requires i < |Run(INIT, steps).alerts| && j < |Run(INIT, steps).alerts|
    requires
      var alerts := Run(INIT, steps).alerts;
      alerts[i].budget == alerts[j].budget && Active(alerts[i]) && Active(alerts[j])
    ensures i == j
  {
    RunKeepsInv(steps);
  }

  /**
    A check that commits puts its budget where the verdict says exactly when
    what it read still holds, or the budget already stood there; no other
    budget moves.
   */
  lemma {:induction false} CommitSettlesIff(s: State, p: Id, other: Id)
    requires Inv(s) && Enabled(s, Commit(p))
    ensures
      var tx, alerts := s.txs[p], Effect(s, Commit(p)).alerts;
      var b, rank := tx.budget.id, Rank(Verdict(tx.plan));
      (Standing(alerts, b) == rank <==> UpToDate(s.alerts, b, tx.plan) || Standing(s.alerts, b) == rank) &&
      (other != b ==> Standing(alerts, other) == Standing(s.alerts, other))
  {
    var tx := s.txs[p];
    assert TxHolds(s.alerts, tx);
    WriteMoves(s.alerts, tx.budget.id, tx.plan, tx.budget.id);
    WriteMoves(s.alerts, tx.budget.id, tx.plan, other);
  }

  /** An outside call nobody gets in the way of moves its alert where it may go, and leaves no trace besides. */
  lemma {:induction false} OutsideCallExactly(s: State, id: nat, to: AlertStatus)
    requires id < |s.alerts| && RowFree(s.txs, id)
    requires to == Acknowledged || to == Resolved
    requires if to == Acknowledged then s.alerts[id].status == Open else s.alerts[id].status != Resolved
    ensures
      Apply(Apply(s, LookUp(Call(id, to))), Move(Call(id, to))) ==
      s.(alerts := s.alerts[id := s.alerts[id].(status := to)])
  {
    LookUpExactly(s, id, to);
    MoveExactly(s, s.calls, Call(id, to));
  }

  lemma {:induction false} LookUpExactly(s: State, id: nat, to: AlertStatus)
    requires id < |s.alerts|
    requires to == Acknowledged || to == Resolved
    requires if to == Acknowledged then s.alerts[id].status == Open else s.alerts[id].status != Resolved
    ensures Apply(s, LookUp(Call(id, to))) == s.(calls := s.calls + multiset{Call(id, to)})
  {
  }

  lemma {:induction false} MoveExactly(s: State, calls: multiset<Call>, call: Call)
    requires call.id < |s.alerts| && RowFree(s.txs, call.id) && Active(s.alerts[call.id])
    ensures
      Apply(s.(calls := calls + multiset{call}), Move(call)) ==
      s.(alerts := s.alerts[call.id := s.alerts[call.id].(status := call.to)], calls := calls)
  {
    assert calls + multiset{call} - multiset{call} == calls;
  }

  /** A resolution that comes late finds the alert resolved and changes nothing. */
  lemma {:induction false} LateResolution(s: State, id: nat)
    requires id < |s.alerts| && RowFree(s.txs, id) && s.alerts[id].status == Resolved && Call(id, Resolved) in s.calls
    ensures Apply(s, Move(Call(id, Resolved))) == s.(calls := s.calls - multiset{Call(id, Resolved)})
  {
    assert s.alerts[id := s.alerts[id].(status := Resolved)] == s.alerts;
  }
}
