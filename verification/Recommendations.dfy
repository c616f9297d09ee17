/**
  Rightsizing recommendations, the tickets raised from them, and the log of
  savings they lead to.

  A recommendation is opened and kept up to date by the utilization sweep,
  leaves `open` by hand or when a ticket is created, and is logged once its
  ticket is resolved. Creating a ticket is two transactions with a remote call
  between them, so the state carries the calls that are under way.
 */
module Recommendations {
  import opened Wrappers
  import opened Sums

  type Id = string

  const IDLE_THRESHOLD_PCT := 5.0
  const RIGHTSIZE_THRESHOLD_PCT := 20.0
  const WINDOW_DAYS := 14

  datatype Kind = Idle | Rightsize | Terminate

  datatype RecStatus = Open | Dismissed | TicketCreated | Resolved

  datatype Rec = Rec(resource: Id, kind: Kind, estimate: Option<real>, status: RecStatus, ticket: Option<Id>)

  datatype LogStatus = Logged | Verified | NotMaterialized

  datatype Saving = Saving(
    rec: nat, expected: real, actual: Option<real>, status: LogStatus, loggedAt: int, verifiedAt: Option<int>)

  // ---------- The estimate ----------

  function Fraction(kind: Kind): real {
    match kind
    case Idle => 1.0
    case Rightsize => 0.5
    case Terminate => 1.0
  }

  /** What the estimate is made from: last month's spend of the account and its number of servers. */
  datatype Account = NoAccount | Account(spend: real, servers: nat)

  function EstimateMonthlySaving(a: Account, kind: Kind): Option<real> {
    if a.NoAccount? || a.spend <= 0.0 || a.servers == 0 then None
    else Some(Times(a.spend / a.servers as real, Fraction(kind)))
  }

  /** An even share of last month's spend, halved for a rightsizing; none without an account, spend or servers. */
  lemma EstimateExactly(a: Account, kind: Kind)
    ensures
      var e := EstimateMonthlySaving(a, kind);
      (e.Some? <==> a.Account? && a.spend > 0.0 && a.servers > 0) &&
      (e.Some? ==> Times(e.value, a.servers as real) == if kind == Rightsize then a.spend / 2.0 else a.spend)
  {
    if a.Account? && a.spend > 0.0 && a.servers > 0 {
      var share, n := a.spend / a.servers as real, a.servers as real;
      DivTimes(a.spend, n);
      assert Times(Times(share, 1.0), n) == Times(share, n);
    }
  }

  function Estimates(a: Account, kinds: seq<Kind>): (es: seq<real>)
    requires a.Account? && a.spend > 0.0 && a.servers > 0
    ensures |es| == |kinds|
  {
    if kinds == [] then []
    else
      var n := |kinds| - 1;
      Estimates(a, kinds[..n]) + [EstimateMonthlySaving(a, kinds[n]).value]
  }

  lemma {:induction false} EstimatesBound(a: Account, kinds: seq<Kind>, share: real, n: real)
    requires a.Account? && a.spend > 0.0 && a.servers > 0
    requires share == a.spend / a.servers as real && n == |kinds| as real
    ensures Sum(Estimates(a, kinds)) <= Times(share, n)
    ensures Sum(Estimates(a, kinds)) == Times(share, n) <==> Rightsize !in kinds
  {
    if kinds == [] {
      assert Times(share, 0.0) == 0.0;
    } else {
      var k := |kinds| - 1;
      EstimatesBound(a, kinds[..k], share, n - 1.0);
      OneMoreShare(share, n);
      assert kinds == kinds[..k] + [kinds[k]];
    }
  }

  lemma OneMoreShare(share: real, n: real)
    ensures Times(share, n) == Times(share, n - 1.0) + share
  {
  }

  /**
    Recommendations for every server of an account never promise more than the
    account spent last month, and promise all of it exactly when none is a
    rightsizing.
   */
  lemma EstimatesWithinSpend(a: Account, kinds: seq<Kind>)
    requires a.Account? && a.spend > 0.0 && a.servers > 0 && |kinds| == a.servers
    ensures Sum(Estimates(a, kinds)) <= a.spend
    ensures Sum(Estimates(a, kinds)) == a.spend <==> Rightsize !in kinds
  {
    EstimatesBound(a, kinds, a.spend / a.servers as real, a.servers as real);
    DivTimes(a.spend, a.servers as real);
  }

  // ---------- The sweep's verdict on one monitor ----------

  function FindOpen(recs: seq<Rec>, resource: Id): (r: Option<nat>)
    ensures r.Some? ==> r.value < |recs| && recs[r.value].resource == resource && recs[r.value].status == Open
    ensures r.None? ==> forall i :: 0 <= i < |recs| ==> !(recs[i].resource == resource && recs[i].status == Open)
  {
    FindLast(recs, (r: Rec) => r.resource == resource && r.status == Open)
  }

  function KindFor(avg: real): Option<Kind> {
    if avg < IDLE_THRESHOLD_PCT then Some(Idle)
    else if avg < RIGHTSIZE_THRESHOLD_PCT then Some(Rightsize)
    else None
  }

  /** A monitor's reading over the lookback window; no samples means no average. */
  datatype Reading = Reading(resource: Id, avg: Option<real>, account: Account)

  function Evaluated(recs: seq<Rec>, m: Reading): seq<Rec> {
    if m.avg.None? then recs
    else
      match (KindFor(m.avg.value), FindOpen(recs, m.resource))
      case (None, None) => recs
      case (None, Some(i)) => recs[i := recs[i].(status := Resolved)]
      case (Some(kind), None) =>
        recs + [Rec(m.resource, kind, EstimateMonthlySaving(m.account, kind), Open, None)]
      case (Some(kind), Some(i)) =>
        recs[i := recs[i].(kind := kind, estimate := EstimateMonthlySaving(m.account, kind))]
  }

  // ---------- The state machine ----------

  /** `calls` counts, per recommendation, the ticket creations between their read and their write. */
  datatype World = World(
    recs: seq<Rec>, log: seq<Saving>, tickets: map<Id, bool>, calls: multiset<nat>, now: int)

  const INIT := World([], [], map[], multiset{}, 0)

  datatype Step =
    | Evaluate(reading: Reading)
    | Patch(id: nat, dismiss: bool)
    | TicketRead(id: nat)
    | TicketWrite(id: nat, ticket: Id)
    | TicketFails(id: nat)
    | SetTicket(ticket: Id, resolved: bool)
    | LogOne(id: nat)
    | Materialize(row: nat, before: real, after: real, servers: nat)
    | Tick(days: nat)

  /** The log's candidate query. */
  predicate Loggable(w: World, id: nat) {
    id < |w.recs| && w.recs[id].status == TicketCreated && w.recs[id].ticket.Some? &&
    w.recs[id].ticket.value in w.tickets && w.tickets[w.recs[id].ticket.value] &&
    (forall k :: 0 <= k < |w.log| ==> w.log[k].rec != id)
  }

  predicate Due(s: Saving, now: int) {
    s.status == Logged && s.loggedAt <= now - WINDOW_DAYS
  }

  function ActualSaving(before: real, after: real, servers: nat): real
    requires servers > 0
  {
    (Times(before, 30.0) - Times(after, 30.0)) / servers as real
  }

  function Judged(s: Saving, before: real, after: real, servers: nat, now: int): Saving
    requires servers > 0
  {
    var actual := ActualSaving(before, after, servers);
    s.(status := if actual > 0.0 then Verified else NotMaterialized, actual := Some(actual), verifiedAt := Some(now))
  }

  predicate Enabled(w: World, s: Step) {
    match s
    case Evaluate(_) => true
    case Patch(id, _) => id < |w.recs|
    case TicketRead(id) => id < |w.recs| && w.recs[id].ticket.None? && w.recs[id].status == Open
    case TicketWrite(id, _) => id in w.calls && id < |w.recs|
    case TicketFails(id) => id in w.calls
    case SetTicket(_, _) => true
    case LogOne(id) => Loggable(w, id) && w.recs[id].estimate.Some?
    case Materialize(k, _, _, servers) => k < |w.log| && Due(w.log[k], w.now) && servers > 0
    case Tick(_) => true
  }

  function Effect(w: World, s: Step): World
    requires Enabled(w, s)
  {
    match s
    case Evaluate(m) => w.(recs := Evaluated(w.recs, m))
    case Patch(id, dismiss) => w.(recs := w.recs[id := w.recs[id].(status := if dismiss then Dismissed else Resolved)])
    case TicketRead(id) => w.(calls := w.calls + multiset{id})
    case TicketWrite(id, ticket) =>
      w.(recs := w.recs[id := w.recs[id].(status := TicketCreated, ticket := Some(ticket))],
         calls := w.calls - multiset{id},
         tickets := if ticket in w.tickets then w.tickets else w.tickets[ticket := false])
    case TicketFails(id) => w.(calls := w.calls - multiset{id})
    case SetTicket(ticket, resolved) => w.(tickets := w.tickets[ticket := resolved])
    case LogOne(id) => w.(log := w.log + [Saving(id, w.recs[id].estimate.value, None, Logged, w.now, None)])
    case Materialize(k, before, after, servers) =>
      w.(log := w.log[k := Judged(w.log[k], before, after, servers, w.now)])
    case Tick(days) => w.(now := w.now + days)
  }

  function Apply(w: World, s: Step): World {
    if Enabled(w, s) then Effect(w, s) else w
  }

  function Run(w: World, ss: seq<Step>): World {
    if ss == [] then w else Apply(Run(w, ss[..|ss| - 1]), ss[|ss| - 1])
  }

  // ---------- What every step keeps ----------

  ghost predicate OneOpen(recs: seq<Rec>) {
    forall i, j :: 0 <= i < j < |recs| && recs[i].resource == recs[j].resource && recs[i].status == Open ==>
      recs[j].status != Open
  }

  /** What may happen to one recommendation: nothing that reopens it or touches it after it has left `open`. */
  predicate RecMoves(r: Rec, r': Rec) {
    r'.resource == r.resource &&
    (r.status != Open ==> r'.status != Open && r'.kind == r.kind && r'.estimate == r.estimate)
  }

  ghost predicate RecsMove(recs: seq<Rec>, recs': seq<Rec>) {
    |recs| <= |recs'| && forall i :: 0 <= i < |recs| ==> RecMoves(recs[i], recs'[i])
  }

  /** What may happen to one savings row: judged once, no sooner than the window after it was logged. */
  predicate RowMoves(s: Saving, s': Saving, now: int) {
    s' == s ||
    (s.status == Logged && s'.status != Logged && s'.rec == s.rec && s'.expected == s.expected &&
     s'.loggedAt == s.loggedAt && now >= s.loggedAt + 14)
  }

  ghost predicate LogMoves(w: World, w': World) {
    w.now <= w'.now && |w.log| <= |w'.log| && forall k :: 0 <= k < |w.log| ==> RowMoves(w.log[k], w'.log[k], w'.now)
  }

  lemma EvaluateMoves(recs: seq<Rec>, m: Reading)
    requires OneOpen(recs)
    ensures OneOpen(Evaluated(recs, m)) && RecsMove(recs, Evaluated(recs, m))
  {
  }

  lemma {:induction false} StepMovesRecs(w: World, s: Step)
    requires OneOpen(w.recs)
    ensures OneOpen(Apply(w, s).recs) && RecsMove(w.recs, Apply(w, s).recs)
  {
    if Enabled(w, s) {
      match s
      case Evaluate(m) => EvaluateMoves(w.recs, m);
      case Patch(id, dismiss) =>
      case TicketWrite(id, ticket) =>
      case _ => assert Effect(w, s).recs == w.recs;
    }
  }

  lemma {:induction false} StepMoves(w: World, s: Step)
    requires OneOpen(w.recs)
    ensures OneOpen(Apply(w, s).recs) && RecsMove(w.recs, Apply(w, s).recs) && LogMoves(w, Apply(w, s))
  {
    StepMovesRecs(w, s);
  }

  lemma {:induction false} RunMoves(w: World, ss: seq<Step>)
    requires OneOpen(w.recs)
    ensures OneOpen(Run(w, ss).recs) && RecsMove(w.recs, Run(w, ss).recs) && LogMoves(w, Run(w, ss))
  {
    if ss != [] {
      var n := |ss| - 1;
      RunMoves(w, ss[..n]);
      StepMoves(Run(w, ss[..n]), ss[n]);
    }
  }

  // ---------- The log ----------

  ghost predicate LogHonest(w: World) {
    && (forall k :: 0 <= k < |w.log| ==>
          w.log[k].rec < |w.recs| && w.recs[w.log[k].rec].status != Open &&
          w.recs[w.log[k].rec].estimate == Some(w.log[k].expected))
    && (forall j, k :: 0 <= j < k < |w.log| ==> w.log[j].rec != w.log[k].rec)
    && (forall k :: 0 <= k < |w.log| ==> RowHonest(w.log[k], w.now))
  }

  /** A row has an actual saving exactly when it has been judged, after the window, by the sign of that saving. */
  predicate RowHonest(s: Saving, now: int) {
    && s.loggedAt <= now
    && (s.actual.Some? <==> s.status != Logged)
    && (s.verifiedAt.Some? <==> s.status != Logged)
    && (s.actual.Some? ==> (s.status == Verified <==> s.actual.value > 0.0))
    && (s.verifiedAt.Some? ==> s.loggedAt + 14 <= s.verifiedAt.value <= now)
  }

  ghost predicate Inv(w: World) {
    OneOpen(w.recs) && LogHonest(w) && forall id :: id in w.calls ==> id < |w.recs|
  }

  /** Steps that leave the log alone cannot falsify it. */
  lemma RecsKeepLog(w: World, w': World)
    requires LogHonest(w) && RecsMove(w.recs, w'.recs) && w'.log == w.log && w.now <= w'.now
    ensures LogHonest(w')
  {
  }

  lemma {:induction false} LogKeepsLog(w: World, s: Step)
    requires LogHonest(w) && (s.LogOne? || s.Materialize?) && Enabled(w, s)
    ensures LogHonest(Effect(w, s))
  {
  }

  lemma {:induction false} StepKeepsInv(w: World, s: Step)
    requires Inv(w)
    ensures Inv(Apply(w, s))
  {
    StepMoves(w, s);
    if Enabled(w, s) && (s.LogOne? || s.Materialize?) {
      LogKeepsLog(w, s);
    } else {
      RecsKeepLog(w, Apply(w, s));
    }
  }

  lemma {:induction false} RunKeepsInv(w: World, ss: seq<Step>)
    requires Inv(w)
    ensures Inv(Run(w, ss))
  {
    if ss != [] {
      RunKeepsInv(w, ss[..|ss| - 1]);
      StepKeepsInv(Run(w, ss[..|ss| - 1]), ss[|ss| - 1]);
    }
  }

  // ---------- What holds of every run ----------

  /** A resource never has two open recommendations. */
  lemma {:induction false} AtMostOneOpen(ss: seq<Step>, i: nat, j: nat)
    requires
      var recs := Run(INIT, ss).recs;
      i < |recs| && j < |recs| && recs[i].resource == recs[j].resource &&
      recs[i].status == Open && recs[j].status == Open
    ensures i == j
  {
    RunKeepsInv(INIT, ss);
  }

  /** Once a recommendation has left `open` it never returns, and its estimate never changes again. */
  lemma {:induction false} ClosedIsFrozen(ss: seq<Step>, more: seq<Step>, i: nat)
    requires i < |Run(INIT, ss).recs| && Run(INIT, ss).recs[i].status != Open
    ensures
      var r, later := Run(INIT, ss).recs[i], Run(Run(INIT, ss), more);
      i < |later.recs| && later.recs[i].status != Open && later.recs[i].estimate == r.estimate &&
      later.recs[i].kind == r.kind
  {
    RunKeepsInv(INIT, ss);
    RunMoves(Run(INIT, ss), more);
  }

  /**
    Every savings row expects what its recommendation promised, no
    recommendation has two rows, and a row carries an actual saving exactly
    when it was judged, 14 days or more after logging, `verified` exactly when
    that saving is positive.
   */
  lemma {:induction false} LogTellsTheTruth(ss: seq<Step>)
    ensures LogHonest(Run(INIT, ss))
  {
    RunKeepsInv(INIT, ss);
  }

  /** A judged row never changes again, and a row is not judged before its window has passed. */
  lemma {:induction false} JudgedOnce(ss: seq<Step>, more: seq<Step>, k: nat)
    requires k < |Run(INIT, ss).log|
    ensures
      var w := Run(INIT, ss);
      var later := Run(w, more);
      k < |later.log| && later.log[k].expected == w.log[k].expected && later.log[k].rec == w.log[k].rec &&
      (w.log[k].status != Logged ==> later.log[k] == w.log[k]) &&
      (later.now < w.log[k].loggedAt + 14 ==> later.log[k] == w.log[k])
  {
    RunKeepsInv(INIT, ss);
    RunMoves(Run(INIT, ss), more);
  }

  // ---------- The ticket of a recommendation ----------

  lemma {:induction false} SettledTicket(w: World, ss: seq<Step>, id: nat)
    requires id < |w.recs| && w.recs[id].ticket.Some? && id !in w.calls
    ensures
      var w' := Run(w, ss);
      id < |w'.recs| && w'.recs[id].ticket == w.recs[id].ticket && id !in w'.calls
  {
    if ss != [] {
      SettledTicket(w, ss[..|ss| - 1], id);
      TicketStays(Run(w, ss[..|ss| - 1]), ss[|ss| - 1], id);
    }
  }

  lemma TicketStays(w: World, s: Step, id: nat)
    requires id < |w.recs| && w.recs[id].ticket.Some? && id !in w.calls
    ensures
      var w' := Apply(w, s);
      id < |w'.recs| && w'.recs[id].ticket == w.recs[id].ticket && id !in w'.calls
  {
  }

  ghost predicate TicketForGood(w: World, id: nat)
    requires id < |w.recs|
  {
    forall ss: seq<Step> :: id < |Run(w, ss).recs| && Run(w, ss).recs[id].ticket == w.recs[id].ticket
  }

  /**
    A linked ticket stays linked whatever happens next exactly when no other
    creation for the same recommendation is still under way: two overlapping
    calls each raise a ticket, and the later write replaces the earlier one.
   */
  lemma TicketStableIff(w: World, id: nat)
    requires id < |w.recs| && w.recs[id].ticket.Some?
    ensures TicketForGood(w, id) <==> id !in w.calls
  {
    if id in w.calls {
      var other := w.recs[id].ticket.value + "x";
      var step := TicketWrite(id, other);
      assert [step][..0] == [];
      assert Run(w, [step]) == Apply(w, step);
      assert Run(w, [step]).recs[id].ticket == Some(other);
      assert |other| == |w.recs[id].ticket.value| + 1;
      assert !TicketForGood(w, id);
    } else {
      forall ss: seq<Step>
        ensures id < |Run(w, ss).recs| && Run(w, ss).recs[id].ticket == w.recs[id].ticket
      {
        SettledTicket(w, ss, id);
      }
    }
  }

  lemma {:induction false} RunSnoc(w: World, ss: seq<Step>, s: Step)
    ensures Run(w, ss + [s]) == Apply(Run(w, ss), s)
  {
    assert (ss + [s])[..|ss|] == ss;
  }

  /** Two creations that overlap do happen: the first has linked its ticket and the second is still under way. */
  lemma {:induction false} OverlappingExample() returns (ss: seq<Step>)
    ensures
      var w := Run(INIT, ss);
      |w.recs| == 1 && w.recs[0].ticket == Some("x") && 0 in w.calls && !TicketForGood(w, 0)
  {
    var open := Rec("r", Idle, None, Open, None);
    var a := Evaluate(Reading("r", Some(1.0), NoAccount));
    RunSnoc(INIT, [], a);
    assert [] + [a] == [a] && Run(INIT, []) == INIT;
    assert Run(INIT, [a]) == INIT.(recs := [open]);
    RunSnoc(INIT, [a], TicketRead(0));
    RunSnoc(INIT, [a] + [TicketRead(0)], TicketRead(0));
    RunSnoc(INIT, [a] + [TicketRead(0)] + [TicketRead(0)], TicketWrite(0, "x"));
    ss := [a] + [TicketRead(0)] + [TicketRead(0)] + [TicketWrite(0, "x")];
    TicketStableIff(Run(INIT, ss), 0);
  }

  // ---------- The services ----------

  datatype TicketResult = TicketId(ticket: Id) | NotFound | NotOpen | CreationFailed

  /** What is known about a savings row's account: average daily spend before and after, and its servers. */
  datatype Evidence = NoCredential | Evidence(before: real, after: real, servers: nat)

  predicate Judgeable(s: Saving, e: Evidence, now: int) {
    Due(s, now) && e.Evidence? && e.servers > 0
  }

  /** A row after the materialization pass. */
  function Reviewed(s: Saving, e: Evidence, now: int): Saving {
    if Judgeable(s, e, now) then Judged(s, e.before, e.after, e.servers, now) else s
  }

  /**
    What the pass does to one row: past 14 days, with a known account and
    servers, it is judged by whether the average daily spend fell, with thirty
    days of the difference per server as its actual saving.
   */
  ghost predicate Reviews(s: Saving, s': Saving, e: Evidence, now: int) {
    if s.status == Logged && s.loggedAt + 14 <= now && e.Evidence? && e.servers > 0 then
      s' == s.(status := s'.status, actual := s'.actual, verifiedAt := Some(now)) &&
      s'.status == (if e.before > e.after then Verified else NotMaterialized) && s'.actual.Some? &&
      Times(s'.actual.value, e.servers as real) == 30.0 * (e.before - e.after)
    else s' == s
  }

  lemma ReviewedExactly(s: Saving, e: Evidence, now: int)
    ensures Reviews(s, Reviewed(s, e, now), e, now)
  {
    if Judgeable(s, e, now) {
      var gain, n := Times(e.before, 30.0) - Times(e.after, 30.0), e.servers as real;
      DivTimes(gain, n);
      assert gain == 30.0 * (e.before - e.after);
    }
  }

  /** Rows are only added, each fresh from a recommendation that had none, in order of recommendation. */
  ghost predicate AddsRows(w: World, w': World) {
    w' == w.(log := w'.log) && |w.log| <= |w'.log| && w'.log[..|w.log|] == w.log &&
    (forall k :: |w.log| <= k < |w'.log| ==>
      w'.log[k].rec < |w.recs| && Loggable(w, w'.log[k].rec) &&
      w.recs[w'.log[k].rec].estimate == Some(w'.log[k].expected) &&
      w'.log[k] == Saving(w'.log[k].rec, w'.log[k].expected, None, Logged, w.now, None)) &&
    forall j, k :: |w.log| <= j < k < |w'.log| ==> w'.log[j].rec < w'.log[k].rec
  }

  /** A ticketed recommendation whose ticket is resolved, with an estimate and no row yet. */
  predicate Wanted(w: World, id: nat) {
    Loggable(w, id) && w.recs[id].estimate.Some?
  }

  ghost predicate LoggedSince(w: World, w': World, id: nat) {
    exists k :: |w.log| <= k < |w'.log| && w'.log[k].rec == id
  }

  ghost predicate LoggedUpTo(w: World, w': World, n: nat) {
    AddsRows(w, w') && (forall k :: |w.log| <= k < |w'.log| ==> w'.log[k].rec < n) &&
    forall id :: 0 <= id < n && Wanted(w, id) ==> LoggedSince(w, w', id)
  }

  lemma LogsNext(w: World, w': World, id: nat)
    requires LoggedUpTo(w, w', id) && Wanted(w, id)
    ensures
      var row := Saving(id, w.recs[id].estimate.value, None, Logged, w.now, None);
      LoggedUpTo(w, w'.(log := w'.log + [row]), id + 1)
  {
    var log := w'.log + [Saving(id, w.recs[id].estimate.value, None, Logged, w.now, None)];
    var w'' := w'.(log := log);
    assert log[..|w.log|] == w'.log[..|w.log|];
    forall i | 0 <= i < id + 1 && Wanted(w, i)
      ensures LoggedSince(w, w'', i)
    {
      if i == id {
        assert log[|w'.log|].rec == id;
      } else {
        var k :| |w.log| <= k < |w'.log| && w'.log[k].rec == i;
        assert log[k] == w'.log[k];
      }
    }
  }

  ghost predicate ReviewsRows(w: World, w': World, evidence: seq<Evidence>) {
    w' == w.(log := w'.log) && |w'.log| == |w.log| == |evidence| &&
    forall k :: 0 <= k < |w.log| ==> Reviews(w.log[k], w'.log[k], evidence[k], w.now)
  }

  /** The logging pass keeps what the state machine keeps. */
  lemma AddsRowsKeepsInv(w: World, w': World)
    requires Inv(w) && AddsRows(w, w')
    ensures Inv(w') && LogMoves(w, w')
  {
    assert forall k :: 0 <= k < |w.log| ==> w'.log[k] == w'.log[..|w.log|][k];
  }

  /** So does the materialization pass. */
  lemma ReviewsRowsKeepsInv(w: World, w': World, evidence: seq<Evidence>)
    requires Inv(w) && ReviewsRows(w, w', evidence)
    ensures Inv(w') && LogMoves(w, w')
  {
    forall k | 0 <= k < |w.log|
      ensures RowHonest(w'.log[k], w.now) && RowMoves(w.log[k], w'.log[k], w.now)
    {
    }
  }

  // ---------- The steps of the machine do what the services do ----------

  /** Logging one recommendation adds its row; judging one row reviews it by its evidence. */
  lemma LogStepsExactly(w: World, id: nat, k: nat, before: real, after: real, servers: nat)
    ensures Wanted(w, id) ==>
      Apply(w, LogOne(id)) == w.(log := w.log + [Saving(id, w.recs[id].estimate.value, None, Logged, w.now, None)])
    ensures k < |w.log| && w.log[k].status == Logged && w.log[k].loggedAt + 14 <= w.now && servers > 0 ==>
      var w' := Apply(w, Materialize(k, before, after, servers));
      ReviewsOne(w, w', k, Evidence(before, after, servers))
  {
    if k < |w.log| {
      ReviewedExactly(w.log[k], Evidence(before, after, servers), w.now);
    }
  }

  ghost predicate ReviewsOne(w: World, w': World, k: nat, e: Evidence)
    requires k < |w.log|
  {
    |w'.log| == |w.log| && w' == w.(log := w.log[k := w'.log[k]]) && Reviews(w.log[k], w'.log[k], e, w.now)
  }

  /** A creation that fails leaves the world as it was before it began, and time passes by days. */
  lemma FailedCallLeavesNoTrace(w: World, id: nat, days: nat)
    requires id < |w.recs| && w.recs[id].ticket.None? && w.recs[id].status == Open
    ensures Apply(Apply(w, TicketRead(id)), TicketFails(id)) == w
    ensures Apply(w, TicketRead(id)) == w.(calls := w.calls + multiset{id})
    ensures Apply(w, Tick(days)) == w.(now := w.now + days)
  {
    assert w.calls + multiset{id} - multiset{id} == w.calls;
  }

  // ---------- What a sweep does, row by row ----------

  predicate OpenFor(r: Rec, resource: Id) {
    r.resource == resource && r.status == Open
  }

  /** Below 5 percent a server is idle, below 20 it can be made smaller, from there on there is nothing to say. */
  ghost predicate Findings(recs: seq<Rec>, recs': seq<Rec>, m: Reading) {
    if m.avg.None? then recs' == recs
    else
      var flagged := m.avg.value < 20.0;
      var kind := if m.avg.value < 5.0 then Idle else Rightsize;
      var open := exists i :: 0 <= i < |recs| && OpenFor(recs[i], m.resource);
      |recs'| == (if flagged && !open then |recs| + 1 else |recs|) &&
      (forall i :: 0 <= i < |recs| ==>
        recs'[i] ==
        if !OpenFor(recs[i], m.resource) then recs[i]
        else if flagged then recs[i].(kind := kind, estimate := EstimateMonthlySaving(m.account, kind))
        else recs[i].(status := Resolved)) &&
      (flagged && !open ==>
        recs'[|recs|] == Rec(m.resource, kind, EstimateMonthlySaving(m.account, kind), Open, None))
  }

  lemma EvaluatedExactly(recs: seq<Rec>, m: Reading)
    requires OneOpen(recs)
    ensures Findings(recs, Evaluated(recs, m), m)
  {
    var f := FindOpen(recs, m.resource);
    if f.Some? {
      assert OpenFor(recs[f.value], m.resource);
    }
  }

  function EvaluatedAll(recs: seq<Rec>, ms: seq<Reading>): seq<Rec> {
    if ms == [] then recs else Evaluated(EvaluatedAll(recs, ms[..|ms| - 1]), ms[|ms| - 1])
  }

  /** The table says of the resource what the reading says. */
  ghost predicate Tells(recs: seq<Rec>, m: Reading) {
    m.avg.Some? ==>
      if m.avg.value < 20.0 then
        exists i :: 0 <= i < |recs| && OpenFor(recs[i], m.resource) &&
          recs[i].kind == (if m.avg.value < 5.0 then Idle else Rightsize) &&
          recs[i].estimate == EstimateMonthlySaving(m.account, recs[i].kind)
      else forall i :: 0 <= i < |recs| ==> !OpenFor(recs[i], m.resource)
  }

  lemma EvaluatedTells(recs: seq<Rec>, m: Reading)
    requires OneOpen(recs)
    ensures Tells(Evaluated(recs, m), m)
  {
    EvaluatedExactly(recs, m);
    if m.avg.Some? && m.avg.value < 20.0 {
      var f := FindOpen(recs, m.resource);
      var at := if f.Some? then f.value else |recs|;
      assert OpenFor(Evaluated(recs, m)[at], m.resource);
    }
  }

  lemma OtherStillTells(recs: seq<Rec>, m: Reading, other: Reading)
    requires OneOpen(recs) && Tells(recs, m) && m.resource != other.resource
    ensures Tells(Evaluated(recs, other), m)
  {
    EvaluatedExactly(recs, other);
    if m.avg.Some? && m.avg.value < 20.0 {
      var i :| 0 <= i < |recs| && OpenFor(recs[i], m.resource) &&
        recs[i].kind == (if m.avg.value < 5.0 then Idle else Rightsize) &&
        recs[i].estimate == EstimateMonthlySaving(m.account, recs[i].kind);
      assert Evaluated(recs, other)[i] == recs[i];
    }
  }

  lemma {:induction false} AllKeepOneOpen(recs: seq<Rec>, ms: seq<Reading>)
    requires OneOpen(recs)
    ensures OneOpen(EvaluatedAll(recs, ms))
  {
    if ms != [] {
      var n := |ms| - 1;
      AllKeepOneOpen(recs, ms[..n]);
      EvaluateMoves(EvaluatedAll(recs, ms[..n]), ms[n]);
    }
  }

  /** After a sweep of different resources the table says of each what its reading says. */
  lemma {:induction false} SweepTells(recs: seq<Rec>, ms: seq<Reading>, i: nat)
    requires OneOpen(recs) && i < |ms|
    requires forall j, k :: 0 <= j < k < |ms| ==> ms[j].resource != ms[k].resource
    ensures Tells(EvaluatedAll(recs, ms), ms[i])
  {
    var n := |ms| - 1;
    AllKeepOneOpen(recs, ms[..n]);
    if i == n {
      EvaluatedTells(EvaluatedAll(recs, ms[..n]), ms[n]);
    } else {
      SweepTells(recs, ms[..n], i);
      OtherStillTells(EvaluatedAll(recs, ms[..n]), ms[i], ms[n]);
    }
  }

  /** The readings among the first `n` that call for a recommendation. */
  function FlaggedIn(ms: seq<Reading>, n: nat): set<int>
    requires n <= |ms|
  {
    set i | 0 <= i < n && ms[i].avg.Some? && ms[i].avg.value < 20.0
  }

  lemma FlaggedMore(ms: seq<Reading>, n: nat)
    requires n < |ms|
    ensures |FlaggedIn(ms, n + 1)| == |FlaggedIn(ms, n)| + if ms[n].avg.Some? && ms[n].avg.value < 20.0 then 1 else 0
  {
    if ms[n].avg.Some? && ms[n].avg.value < 20.0 {
      assert FlaggedIn(ms, n + 1) == FlaggedIn(ms, n) + {n};
    } else {
      assert FlaggedIn(ms, n + 1) == FlaggedIn(ms, n);
    }
  }

  /** The rows among the first `n` that differ. */
  function ChangedIn(log: seq<Saving>, log': seq<Saving>, n: nat): set<int>
    requires n <= |log| == |log'|
  {
    set i | 0 <= i < n && log'[i] != log[i]
  }

  lemma ChangedMore(log: seq<Saving>, log': seq<Saving>, n: nat, s: Saving)
    requires n < |log| == |log'|
    ensures |ChangedIn(log, log'[n := s], n + 1)| == |ChangedIn(log, log', n)| + if s != log[n] then 1 else 0
  {
    if s != log[n] {
      assert ChangedIn(log, log'[n := s], n + 1) == ChangedIn(log, log', n) + {n};
    } else {
      assert ChangedIn(log, log'[n := s], n + 1) == ChangedIn(log, log', n);
    }
  }

  class Services {
    var w: World

    constructor ()
      ensures w == INIT
    {
      w := INIT;
    }

    /** `evaluateMonitor`. */
    method EvaluateMonitor(m: Reading) returns (flagged: bool)
      modifies this
      ensures w == old(w).(recs := Evaluated(old(w).recs, m))
      ensures w == Apply(old(w), Evaluate(m))
      ensures OneOpen(old(w).recs) ==> Findings(old(w).recs, w.recs, m)
      ensures flagged <==> m.avg.Some? && m.avg.value < 20.0
    {
      if OneOpen(w.recs) {
        EvaluatedExactly(w.recs, m);
      }
      var open := FindOpen(w.recs, m.resource);
      if m.avg.None? {
        return false;
      }
      var kind := KindFor(m.avg.value);
      if kind.None? {
        if open.Some? {
          w := w.(recs := w.recs[open.value := w.recs[open.value].(status := Resolved)]);
        }
        return false;
      }
      var saving := EstimateMonthlySaving(m.account, kind.value);
      if open.None? {
        w := w.(recs := w.recs + [Rec(m.resource, kind.value, saving, Open, None)]);
      } else {
        w := w.(recs := w.recs[open.value := w.recs[open.value].(kind := kind.value, estimate := saving)]);
      }
      flagged := true;
    }

    /** `sweepTenant`: every monitor in turn, counting those with a finding. */
    method SweepTenant(ms: seq<Reading>) returns (count: nat)
      requires Inv(w)
      modifies this
      ensures w == old(w).(recs := EvaluatedAll(old(w).recs, ms)) && Inv(w)
      ensures count == |FlaggedIn(ms, |ms|)|
    {
      count := 0;
      for k := 0 to |ms|
        invariant w == old(w).(recs := EvaluatedAll(old(w).recs, ms[..k]))
        invariant count == |FlaggedIn(ms, k)|
        invariant Inv(w)
      {
        StepKeepsInv(w, Evaluate(ms[k]));
        var flagged := EvaluateMonitor(ms[k]);
        FlaggedMore(ms, k);
        if flagged {
          count := count + 1;
        }
        assert ms[..k + 1][..k] == ms[..k];
      }
      assert ms[..|ms|] == ms;
    }

    /** `update`: dismiss or resolve by hand. */
    method Update(id: nat, dismiss: bool) returns (found: bool)
      modifies this
      ensures found <==> id < |old(w).recs|
      ensures w == Apply(old(w), Patch(id, dismiss))
      ensures found ==> w == old(w).(recs :=
        old(w).recs[id := old(w).recs[id].(status := if dismiss then Dismissed else Resolved)])
    {
      found := id < |w.recs|;
      if found {
        w := w.(recs := w.recs[id := w.recs[id].(status := if dismiss then Dismissed else Resolved)]);
      }
    }

    /**
      `createTicket`, undisturbed between its read and its write. A linked
      recommendation gives back the ticket it has; so a second call, whatever
      the endpoint would answer, returns what the first one did.
     */
    method CreateTicket(id: nat, endpoint: Option<Id>) returns (r: TicketResult)
      modifies this
      ensures id >= |old(w).recs| ==> r == NotFound && w == old(w)
      ensures id < |old(w).recs| && old(w).recs[id].ticket.Some? ==>
        r == TicketId(old(w).recs[id].ticket.value) && w == old(w)
      ensures id < |old(w).recs| && old(w).recs[id].ticket.None? && old(w).recs[id].status != Open ==>
        r == NotOpen && w == old(w)
      ensures id < |old(w).recs| && old(w).recs[id].ticket.None? && old(w).recs[id].status == Open ==>
        if endpoint.None? then r == CreationFailed && w == old(w)
        else
          r == TicketId(endpoint.value) &&
          w == old(w).(
            recs := old(w).recs[id := old(w).recs[id].(status := TicketCreated, ticket := endpoint)],
            tickets :=
              if endpoint.value in old(w).tickets then old(w).tickets else old(w).tickets[endpoint.value := false]) &&
          w == Apply(Apply(old(w), TicketRead(id)), TicketWrite(id, endpoint.value))
      ensures r.TicketId? ==> id < |w.recs| && w.recs[id].ticket == Some(r.ticket)
    {
      if id >= |w.recs| {
        return NotFound;
      }
      if w.recs[id].ticket.Some? {
        return TicketId(w.recs[id].ticket.value);
      }
      if w.recs[id].status != Open {
        return NotOpen;
      }
      if endpoint.None? {
        return CreationFailed;
      }
      var t := endpoint.value;
      assert w.calls + multiset{id} - multiset{id} == w.calls;
      w := w.(recs := w.recs[id := w.recs[id].(status := TicketCreated, ticket := Some(t))],
              tickets := if t in w.tickets then w.tickets else w.tickets[t := false]);
      r := TicketId(t);
    }

    /** Serial ticket creations agree. */
    method CreateTicketTwice(id: nat, first: Option<Id>, second: Option<Id>) returns (a: TicketResult, b: TicketResult)
      modifies this
      ensures a.TicketId? ==> b == a
    {
      a := CreateTicket(id, first);
      b := CreateTicket(id, second);
    }

    /**
      `logResolvedRecommendations`: one row for every ticketed recommendation
      whose ticket is resolved, that has an estimate and no row yet.
     */
    method LogResolved() returns (count: nat)
      modifies this
      ensures AddsRows(old(w), w) && |w.log| == |old(w).log| + count
      ensures forall id :: 0 <= id < |w.recs| ==>
        (LoggedSince(old(w), w, id) <==>
          w.recs[id].status == TicketCreated && w.recs[id].ticket.Some? && w.recs[id].ticket.value in w.tickets &&
          w.tickets[w.recs[id].ticket.value] && w.recs[id].estimate.Some? &&
          forall k :: 0 <= k < |old(w).log| ==> old(w).log[k].rec != id)
    {
      count := 0;
      var before := w;
      for id := 0 to |w.recs|
        invariant LoggedUpTo(before, w, id) && |w.log| == |before.log| + count
      {
        if Loggable(before, id) && w.recs[id].estimate.Some? {
          LogsNext(before, w, id);
          w := w.(log := w.log + [Saving(id, w.recs[id].estimate.value, None, Logged, w.now, None)]);
          count := count + 1;
        }
      }
    }

    /**
      `materializeLoggedSavings`: every row past its window whose account is
      known is judged by its own evidence; all others stay as they are.
     */
    method MaterializeLogged(evidence: seq<Evidence>) returns (count: nat)
      requires |evidence| == |w.log|
      modifies this
      ensures ReviewsRows(old(w), w, evidence)
      ensures |w.log| == |old(w).log| && count == |ChangedIn(old(w).log, w.log, |w.log|)|
    {
      count := 0;
      var before := w;
      for k := 0 to |evidence|
        invariant w == before.(log := w.log) && |w.log| == |before.log|
        invariant forall i :: 0 <= i < k ==> Reviews(before.log[i], w.log[i], evidence[i], w.now)
        invariant forall i :: k <= i < |w.log| ==> w.log[i] == before.log[i]
        invariant count == |ChangedIn(before.log, w.log, k)|
      {
        var row := w.log[k];
        assert w.log[k := row] == w.log;
        ReviewedExactly(row, evidence[k], w.now);
        ChangedMore(before.log, w.log, k, Reviewed(row, evidence[k], w.now));
        if Judgeable(row, evidence[k], w.now) {
          var e := evidence[k];
          w := w.(log := w.log[k := Judged(row, e.before, e.after, e.servers, w.now)]);
          count := count + 1;
        }
      }
    }
  }
}
