/**
  Row-level security and the transaction wrapper that every tenant query goes
  through.

  A table row carries the tenant that owns it. A session carries the two
  transaction-local settings the policies read: `app.current_tenant` and
  `app.public_status_read`. The work done inside a transaction is a strategy:
  given the replies it has received so far it issues the next statement,
  returns or throws, so what a tenant writes may depend on what it has read.

  The main results are `NonInterference` (a tenant cannot tell, from anything it
  reads or from its final rows, whether other tenants exist) and the exact
  condition on the public-read flag under which reads stay private.
 */
module TenantIsolation {
  import opened Wrappers

  datatype Row = Row(table: string, tenant: string, isPublic: bool, data: string)

  datatype Session = Session(tenant: string, publicRead: bool)

  /** What a pooled connection holds outside any transaction. */
  const NO_SESSION := Session("", false)

  const STATUS_PAGES := "status_pages"

  // ---------- Policies ----------

  /** `tenant_isolation`: an unset or empty setting matches no row. */
  predicate Owns(s: Session, row: Row) {
    s.tenant != "" && row.tenant == s.tenant
  }

  /** SELECT policies are permissive, so they are OR-ed. */
  predicate CanRead(s: Session, row: Row) {
    Owns(s, row) || (row.table == STATUS_PAGES && row.isPublic && s.publicRead)
  }

  // ---------- Statements ----------

  datatype Statement =
    | Select(table: string, where: Row -> bool)
    | Insert(row: Row)
    | Update(table: string, where: Row -> bool, set_: Row -> Row)
    | Delete(table: string, where: Row -> bool)
    | SetPublicRead

  datatype Reply = Rows(rows: seq<Row>) | Affected(count: nat)

  datatype Effect =
    | Done(db: seq<Row>, session: Session, reply: Reply)
    | Denied

  /** The rows a SELECT returns. */
  function SelectRows(db: seq<Row>, s: Session, table: string, where: Row -> bool): seq<Row> {
    if db == [] then []
    else
      var rest := SelectRows(db[1..], s, table, where);
      if CanRead(s, db[0]) && db[0].table == table && where(db[0]) then [db[0]] + rest else rest
  }

  predicate Targets(s: Session, table: string, where: Row -> bool, row: Row) {
    Owns(s, row) && row.table == table && where(row)
  }

  function UpdateRows(db: seq<Row>, s: Session, table: string, where: Row -> bool, set_: Row -> Row): seq<Row> {
    if db == [] then []
    else
      [if Targets(s, table, where, db[0]) then set_(db[0]).(table := table) else db[0]] +
      UpdateRows(db[1..], s, table, where, set_)
  }

  /** Every rewritten row has to pass WITH CHECK. */
  predicate UpdateAllowed(db: seq<Row>, s: Session, table: string, where: Row -> bool, set_: Row -> Row) {
    db == [] ||
    ((Targets(s, table, where, db[0]) ==> Owns(s, set_(db[0]))) && UpdateAllowed(db[1..], s, table, where, set_))
  }

  function DeleteRows(db: seq<Row>, s: Session, table: string, where: Row -> bool): seq<Row> {
    if db == [] then []
    else if Targets(s, table, where, db[0]) then DeleteRows(db[1..], s, table, where)
    else [db[0]] + DeleteRows(db[1..], s, table, where)
  }

  function TargetCount(db: seq<Row>, s: Session, table: string, where: Row -> bool): nat {
    if db == [] then 0
    else (if Targets(s, table, where, db[0]) then 1 else 0) + TargetCount(db[1..], s, table, where)
  }

  function Execute(db: seq<Row>, s: Session, q: Statement): Effect {
    match q
    case Select(table, where) => Done(db, s, Rows(SelectRows(db, s, table, where)))
    case Insert(row) => if Owns(s, row) then Done(db + [row], s, Affected(1)) else Denied
    case Update(table, where, set_) =>
      if UpdateAllowed(db, s, table, where, set_)
      then Done(UpdateRows(db, s, table, where, set_), s, Affected(TargetCount(db, s, table, where)))
      else Denied
    case Delete(table, where) =>
      Done(DeleteRows(db, s, table, where), s, Affected(TargetCount(db, s, table, where)))
    case SetPublicRead => Done(db, s.(publicRead := true), Affected(0))
  }

  // ---------- Transactions ----------

  datatype Action = Do(statement: Statement) | Return | Throw

  /** What a unit of work does next, from the replies it has received. */
  type Work = seq<Reply> -> Action

  datatype Outcome = Returned(replies: seq<Reply>) | Thrown(replies: seq<Reply>)

  /**
    One transaction. `lifetime` is how many statements the connection lives
    for and `commits` whether COMMIT succeeds: both are failures outside the
    program's control. A public read is the status-page lookup by slug, which
    runs with no tenant and completes or is lost on the way.
   */
  datatype Tx =
    | TenantTx(tenant: string, work: Work, lifetime: nat, commits: bool)
    | PublicTx(where: Row -> bool, completes: bool)

  datatype Progress = Progress(db: seq<Row>, outcome: Outcome)

  function Body(db: seq<Row>, s: Session, work: Work, replies: seq<Reply>, lifetime: nat): Progress
    decreases lifetime
  {
    match work(replies)
    case Return => Progress(db, Returned(replies))
    case Throw => Progress(db, Thrown(replies))
    case Do(q) =>
      if lifetime == 0 then Progress(db, Thrown(replies))
      else
        match Execute(db, s, q)
        case Denied => Progress(db, Thrown(replies))
        case Done(db', s', reply) => Body(db', s', work, replies + [reply], lifetime - 1)
  }

  /** A transaction's effect: the body's on commit, none on rollback. */
  function RunTx(db: seq<Row>, tx: Tx): (p: Progress)
  {
    match tx
    case TenantTx(tenant, work, lifetime, commits) =>
      var b := Body(db, Session(tenant, false), work, [], lifetime);
      if b.outcome.Returned? && commits then b else Progress(db, Thrown(b.outcome.replies))
    case PublicTx(where, completes) =>
      var found := SelectRows(db, Session("", true), STATUS_PAGES, where);
      Progress(db, if completes then Returned([Rows(found)]) else Thrown([]))
  }

  datatype Trace = Trace(db: seq<Row>, outcomes: seq<Outcome>)

  function RunAll(db: seq<Row>, txs: seq<Tx>): (t: Trace)
    ensures |t.outcomes| == |txs|
    decreases |txs|
  {
    if txs == [] then Trace(db, [])
    else
      var p := RunTx(db, txs[0]);
      var rest := RunAll(p.db, txs[1..]);
      Trace(rest.db, [p.outcome] + rest.outcomes)
  }

  // ---------- One tenant's view ----------

  function View(db: seq<Row>, t: string): seq<Row> {
    if db == [] then []
    else if db[0].tenant == t then [db[0]] + View(db[1..], t)
    else View(db[1..], t)
  }

  predicate IsOf(tx: Tx, t: string) {
    tx.TenantTx? && tx.tenant == t
  }

  function Only(txs: seq<Tx>, t: string): seq<Tx> {
    if txs == [] then []
    else if IsOf(txs[0], t) then [txs[0]] + Only(txs[1..], t)
    else Only(txs[1..], t)
  }

  function OutcomesOf(txs: seq<Tx>, outcomes: seq<Outcome>, t: string): seq<Outcome>
    requires |txs| == |outcomes|
  {
    if txs == [] then []
    else if IsOf(txs[0], t) then [outcomes[0]] + OutcomesOf(txs[1..], outcomes[1..], t)
    else OutcomesOf(txs[1..], outcomes[1..], t)
  }

  /** The work never opts into the public read. */
  ghost predicate KeepsPrivate(work: Work) {
    forall replies :: work(replies) != Do(SetPublicRead)
  }

  // ---------- Statement-level lemmas ----------

  lemma {:induction false} ViewAppend(a: seq<Row>, b: seq<Row>, t: string)
    ensures View(a + b, t) == View(a, t) + View(b, t)
  {
    if a == [] {
      assert a + b == b;
    } else {
      assert (a + b)[1..] == a[1..] + b;
      ViewAppend(a[1..], b, t);
    }
  }

  lemma {:induction false} SelectInView(db: seq<Row>, s: Session, table: string, where: Row -> bool)
    requires s.tenant != "" && !s.publicRead
    ensures SelectRows(View(db, s.tenant), s, table, where) == SelectRows(db, s, table, where)
  {
    if db != [] {
      SelectInView(db[1..], s, table, where);
      if db[0].tenant == s.tenant {
        assert View(db, s.tenant)[1..] == View(db[1..], s.tenant);
      } else {
        assert View(db, s.tenant) == View(db[1..], s.tenant);
      }
    }
  }

  lemma {:induction false} WriteInView(db: seq<Row>, s: Session, table: string, where: Row -> bool, set_: Row -> Row)
    requires s.tenant != ""
    ensures UpdateAllowed(View(db, s.tenant), s, table, where, set_) == UpdateAllowed(db, s, table, where, set_)
    ensures UpdateAllowed(db, s, table, where, set_) ==>
              UpdateRows(View(db, s.tenant), s, table, where, set_) ==
              View(UpdateRows(db, s, table, where, set_), s.tenant)
    ensures DeleteRows(View(db, s.tenant), s, table, where) == View(DeleteRows(db, s, table, where), s.tenant)
    ensures TargetCount(View(db, s.tenant), s, table, where) == TargetCount(db, s, table, where)
  {
    if db != [] {
      WriteInView(db[1..], s, table, where, set_);
      var v, tail := View(db, s.tenant), View(db[1..], s.tenant);
      var u, d := UpdateRows(db, s, table, where, set_), DeleteRows(db, s, table, where);
      assert u[1..] == UpdateRows(db[1..], s, table, where, set_);
      if db[0].tenant == s.tenant {
        assert v[0] == db[0] && v[1..] == tail;
        if !Targets(s, table, where, db[0]) {
          assert d[1..] == DeleteRows(db[1..], s, table, where);
        } else {
          assert d == DeleteRows(db[1..], s, table, where);
        }
      } else {
        assert v == tail;
        assert d[1..] == DeleteRows(db[1..], s, table, where);
      }
    }
  }

  lemma {:induction false} WriteLeavesOthers(
    db: seq<Row>, s: Session, table: string, where: Row -> bool, set_: Row -> Row, t: string)
    requires t != s.tenant
    ensures UpdateAllowed(db, s, table, where, set_) ==> View(UpdateRows(db, s, table, where, set_), t) == View(db, t)
    ensures View(DeleteRows(db, s, table, where), t) == View(db, t)
  {
    if db != [] {
      WriteLeavesOthers(db[1..], s, table, where, set_, t);
      assert UpdateRows(db, s, table, where, set_)[1..] == UpdateRows(db[1..], s, table, where, set_);
      var d := DeleteRows(db, s, table, where);
      if Targets(s, table, where, db[0]) {
        assert d == DeleteRows(db[1..], s, table, where);
      } else {
        assert d[1..] == DeleteRows(db[1..], s, table, where);
      }
    }
  }

  /** A statement of tenant `t` does to `t`'s rows what it would do were they the whole database. */
  lemma OwnStatement(db: seq<Row>, s: Session, q: Statement)
    requires s.tenant != "" && !s.publicRead && !q.SetPublicRead?
    ensures
      var e, v := Execute(db, s, q), Execute(View(db, s.tenant), s, q);
      if e.Denied? then v.Denied?
      else v == Done(View(e.db, s.tenant), s, e.reply) && e.session == s
  {
    match q
    case Select(table, where) => SelectInView(db, s, table, where);
    case Insert(row) =>
      if Owns(s, row) {
        ViewAppend(db, [row], s.tenant);
        assert View([row], s.tenant) == [row];
      }
    case Update(table, where, set_) => WriteInView(db, s, table, where, set_);
    case Delete(table, where) => WriteInView(db, s, table, where, r => r);
  }

  /** A statement of another session, flag or no flag, leaves `t`'s rows alone. */
  lemma OtherStatement(db: seq<Row>, s: Session, q: Statement, t: string)
    requires t != s.tenant
    ensures var e := Execute(db, s, q); e.Done? ==> View(e.db, t) == View(db, t) && e.session.tenant == s.tenant
  {
    match q
    case Select(_, _) =>
    case Insert(row) =>
      if Owns(s, row) {
        ViewAppend(db, [row], t);
        assert View([row], t) == [];
      }
    case Update(table, where, set_) => WriteLeavesOthers(db, s, table, where, set_, t);
    case Delete(table, where) => WriteLeavesOthers(db, s, table, where, r => r, t);
    case SetPublicRead =>
  }

  // ---------- Transactions and runs ----------

  lemma {:induction false} OwnBody(db: seq<Row>, s: Session, work: Work, replies: seq<Reply>, lifetime: nat)
    requires s.tenant != "" && !s.publicRead && KeepsPrivate(work)
    ensures
      var b, v := Body(db, s, work, replies, lifetime), Body(View(db, s.tenant), s, work, replies, lifetime);
      v.outcome == b.outcome && v.db == View(b.db, s.tenant)
    decreases lifetime
  {
    var a := work(replies);
    if a.Do? && lifetime > 0 {
      OwnStatement(db, s, a.statement);
      var e := Execute(db, s, a.statement);
      if e.Done? {
        OwnBody(e.db, s, work, replies + [e.reply], lifetime - 1);
      }
    }
  }

  lemma {:induction false} OtherBody(
    db: seq<Row>, s: Session, work: Work, replies: seq<Reply>, lifetime: nat, t: string)
    requires t != s.tenant
    ensures View(Body(db, s, work, replies, lifetime).db, t) == View(db, t)
    decreases lifetime
  {
    var a := work(replies);
    if a.Do? && lifetime > 0 {
      OtherStatement(db, s, a.statement, t);
      var e := Execute(db, s, a.statement);
      if e.Done? {
        OtherBody(e.db, e.session, work, replies + [e.reply], lifetime - 1, t);
      }
    }
  }

  lemma {:induction false} ViewIdempotent(db: seq<Row>, t: string)
    ensures View(View(db, t), t) == View(db, t)
  {
    if db != [] {
      ViewIdempotent(db[1..], t);
      if db[0].tenant == t {
        assert View(db, t)[1..] == View(db[1..], t);
      } else {
        assert View(db, t) == View(db[1..], t);
      }
    }
  }

  /**
    Non-interference over whole runs. Take any schedule of transactions of any
    tenants, with lost connections, failed commits and public reads in it.
    Tenant `t` ends with the rows, and sees the outcomes, of the run in which
    only its own transactions happen on a database holding only its own rows.
    Other tenants' work is arbitrary: it may even set the public-read flag.
   */
  lemma {:induction false} NonInterference(db: seq<Row>, txs: seq<Tx>, t: string)
    requires t != ""
    requires forall i :: 0 <= i < |txs| && IsOf(txs[i], t) ==> KeepsPrivate(txs[i].work)
    ensures
      var all, alone := RunAll(db, txs), RunAll(View(db, t), Only(txs, t));
      View(all.db, t) == alone.db && OutcomesOf(txs, all.outcomes, t) == alone.outcomes
    decreases |txs|
  {
    if txs == [] {
    } else {
      var tx := txs[0];
      var p := RunTx(db, tx);
      var rest := RunAll(p.db, txs[1..]);
      NonInterference(p.db, txs[1..], t);
      assert RunAll(db, txs).outcomes[1..] == rest.outcomes;
      if IsOf(tx, t) {
        OwnBody(db, Session(t, false), tx.work, [], tx.lifetime);
        assert RunTx(View(db, t), tx) == Progress(View(p.db, t), p.outcome);
        assert Only(txs, t)[0] == tx && Only(txs, t)[1..] == Only(txs[1..], t);
      } else {
        if tx.TenantTx? {
          OtherBody(db, Session(tx.tenant, false), tx.work, [], tx.lifetime, t);
        }
        assert View(p.db, t) == View(db, t);
        assert Only(txs, t) == Only(txs[1..], t);
      }
    }
  }

  // ---------- The public-read flag ----------

  ghost predicate ReadsOnlyOwn(s: Session) {
    forall db: seq<Row>, table, where, row ::
      row in SelectRows(db, s, table, where) ==> Owns(s, row)
  }

  lemma {:induction false} SelectedRows(db: seq<Row>, s: Session, table: string, where: Row -> bool, row: Row)
    ensures row in SelectRows(db, s, table, where) <==>
            row in db && CanRead(s, row) && row.table == table && where(row)
  {
    if db != [] {
      SelectedRows(db[1..], s, table, where, row);
      assert db == [db[0]] + db[1..];
    }
  }

  /** A session's reads stay within its own rows exactly when the public-read flag is unset. */
  lemma PrivateExactlyWithoutFlag(s: Session)
    ensures ReadsOnlyOwn(s) <==> !s.publicRead
  {
    if s.publicRead {
      var foreign := Row(STATUS_PAGES, s.tenant + "x", true, "");
      var everything := (r: Row) => true;
      SelectedRows([foreign], s, STATUS_PAGES, everything, foreign);
      assert foreign in SelectRows([foreign], s, STATUS_PAGES, everything);
      assert |foreign.tenant| == |s.tenant| + 1;
      assert !Owns(s, foreign);
      assert !ReadsOnlyOwn(s);
    } else {
      forall db: seq<Row>, table, where, row | row in SelectRows(db, s, table, where)
        ensures Owns(s, row)
      {
        SelectedRows(db, s, table, where, row);
      }
    }
  }

  /** The anonymous lookup sees the public status pages it asks for, of every tenant, and nothing else. */
  lemma PublicReadExactly(db: seq<Row>, where: Row -> bool, completes: bool, row: Row)
    ensures
      var p := RunTx(db, PublicTx(where, completes));
      p.db == db &&
      if !completes then p.outcome == Thrown([])
      else
        p.outcome.Returned? && |p.outcome.replies| == 1 && p.outcome.replies[0].Rows? &&
        (row in p.outcome.replies[0].rows <==>
         row in db && row.table == STATUS_PAGES && row.isPublic && where(row))
  {
    SelectedRows(db, Session("", true), STATUS_PAGES, where, row);
  }

  lemma {:induction false} NothingIsOwned(db: seq<Row>, table: string, where: Row -> bool, set_: Row -> Row)
    ensures SelectRows(db, NO_SESSION, table, where) == []
    ensures UpdateAllowed(db, NO_SESSION, table, where, set_)
    ensures UpdateRows(db, NO_SESSION, table, where, set_) == db
    ensures DeleteRows(db, NO_SESSION, table, where) == db
    ensures TargetCount(db, NO_SESSION, table, where) == 0
  {
    if db != [] {
      NothingIsOwned(db[1..], table, where, set_);
      assert db == [db[0]] + db[1..];
    }
  }

  /** Outside a transaction no row can be read or written. */
  lemma {:induction false} BareQueryIsBlind(db: seq<Row>, q: Statement)
    requires !q.SetPublicRead?
    ensures
      var e := Execute(db, NO_SESSION, q);
      if q.Insert? then e.Denied?
      else e == Done(db, NO_SESSION, if q.Select? then Rows([]) else Affected(0))
  {
    match q
    case Select(table, where) => NothingIsOwned(db, table, where, r => r);
    case Update(table, where, set_) => NothingIsOwned(db, table, where, set_);
    case Delete(table, where) => NothingIsOwned(db, table, where, r => r);
    case Insert(_) =>
  }

  // ---------- What statements do, row by row ----------

  /** The session may write the row and the statement asks for it. */
  predicate Addressed(s: Session, table: string, where: Row -> bool, row: Row) {
    s.tenant != "" && row.tenant == s.tenant && row.table == table && where(row)
  }

  lemma {:induction false} UpdateRowByRow(
    db: seq<Row>, s: Session, table: string, where: Row -> bool, set_: Row -> Row, i: nat)
    requires i < |db|
    ensures
      var rows := UpdateRows(db, s, table, where, set_);
      |rows| == |db| &&
      rows[i] == if Addressed(s, table, where, db[i]) then set_(db[i]).(table := table) else db[i]
    decreases |db|
  {
    if |db| > 1 {
      UpdateRowByRow(db[1..], s, table, where, set_, if i == 0 then 0 else i - 1);
    }
  }

  lemma {:induction false} UpdateAllowedIff(
    db: seq<Row>, s: Session, table: string, where: Row -> bool, set_: Row -> Row)
    ensures
      UpdateAllowed(db, s, table, where, set_) <==>
      forall i :: 0 <= i < |db| && Addressed(s, table, where, db[i]) ==> set_(db[i]).tenant == s.tenant
  {
    if db != [] {
      UpdateAllowedIff(db[1..], s, table, where, set_);
      assert forall i :: 0 < i < |db| ==> db[i] == db[1..][i - 1];
    }
  }

  /** A DELETE takes every occurrence of an addressed row and none of any other; the count says how many. */
  lemma {:induction false} DeleteRowByRow(db: seq<Row>, s: Session, table: string, where: Row -> bool, row: Row)
    ensures
      multiset(DeleteRows(db, s, table, where))[row] ==
      if Addressed(s, table, where, row) then 0 else multiset(db)[row]
    ensures |DeleteRows(db, s, table, where)| + TargetCount(db, s, table, where) == |db|
  {
    if db != [] {
      DeleteRowByRow(db[1..], s, table, where, row);
      assert db == [db[0]] + db[1..];
    }
  }

  /** A SELECT gives every occurrence of a readable row that it asks for. */
  lemma {:induction false} SelectRowByRow(db: seq<Row>, s: Session, table: string, where: Row -> bool, row: Row)
    ensures
      multiset(SelectRows(db, s, table, where))[row] ==
      if CanRead(s, row) && row.table == table && where(row) then multiset(db)[row] else 0
  {
    if db != [] {
      SelectRowByRow(db[1..], s, table, where, row);
      assert db == [db[0]] + db[1..];
    }
  }

  /** An UPDATE is refused if it would give a row away; otherwise exactly the addressed rows become what it sets. */
  lemma {:induction false} UpdateExactly(db: seq<Row>, s: Session, table: string, where: Row -> bool, set_: Row -> Row)
    ensures
      var e := Execute(db, s, Update(table, where, set_));
      (e.Done? <==>
       forall i :: 0 <= i < |db| && Addressed(s, table, where, db[i]) ==> set_(db[i]).tenant == s.tenant) &&
      (e.Done? ==>
        |e.db| == |db| && e.session == s && e.reply == Execute(db, s, Delete(table, where)).reply &&
        forall i :: 0 <= i < |db| ==>
          e.db[i] == if Addressed(s, table, where, db[i]) then set_(db[i]).(table := table) else db[i])
  {
    UpdateAllowedIff(db, s, table, where, set_);
    if db == [] {
      assert UpdateRows(db, s, table, where, set_) == [];
    }
    forall i | 0 <= i < |db|
      ensures
        var rows := UpdateRows(db, s, table, where, set_);
        |rows| == |db| && rows[i] == if Addressed(s, table, where, db[i]) then set_(db[i]).(table := table) else db[i]
    {
      UpdateRowByRow(db, s, table, where, set_, i);
    }
  }

  /** A DELETE takes exactly the addressed rows and says how many; a SELECT gives exactly the readable ones. */
  lemma {:induction false} DeleteAndSelectExactly(db: seq<Row>, s: Session, table: string, where: Row -> bool, row: Row)
    ensures
      var e := Execute(db, s, Delete(table, where));
      e.Done? && e.session == s && e.reply.Affected? && e.reply.count == |db| - |e.db| &&
      multiset(e.db)[row] == if Addressed(s, table, where, row) then 0 else multiset(db)[row]
    ensures
      var e := Execute(db, s, Select(table, where));
      e.Done? && e.db == db && e.session == s && e.reply.Rows? &&
      multiset(e.reply.rows)[row] ==
      if CanRead(s, row) && row.table == table && where(row) then multiset(db)[row] else 0
  {
    DeleteRowByRow(db, s, table, where, row);
    SelectRowByRow(db, s, table, where, row);
  }

  /** The opt-in writes nothing and opens the public status pages, and them alone, to the rest of the transaction. */
  lemma {:induction false} FlagOpensPublicPages(db: seq<Row>, s: Session, row: Row)
    ensures
      var e := Execute(db, s, SetPublicRead);
      e.Done? && e.db == db && e.reply == Affected(0) &&
      (CanRead(e.session, row) <==> Owns(s, row) || (row.table == "status_pages" && row.isPublic))
  {
  }

  // ---------- Transactions are durable ----------

  /** Work that issues the statements in order and returns. */
  function Script(qs: seq<Statement>): Work {
    (replies: seq<Reply>) => if |replies| < |qs| then Do(qs[|replies|]) else Return
  }

  datatype Ran = Ran(db: seq<Row>, session: Session, replies: seq<Reply>)

  /** The statements one after the other, each on what the one before left; nothing if one is denied. */
  function RunScript(db: seq<Row>, s: Session, qs: seq<Statement>): Option<Ran> {
    if qs == [] then Some(Ran(db, s, []))
    else
      match RunScript(db, s, qs[..|qs| - 1])
      case None => None
      case Some(r) =>
        match Execute(r.db, r.session, qs[|qs| - 1])
        case Denied => None
        case Done(db', s', reply) => Some(Ran(db', s', r.replies + [reply]))
  }

  lemma {:induction false} ScriptReplies(db: seq<Row>, s: Session, qs: seq<Statement>)
    requires RunScript(db, s, qs).Some?
    ensures |RunScript(db, s, qs).value.replies| == |qs|
  {
    if qs != [] {
      ScriptReplies(db, s, qs[..|qs| - 1]);
    }
  }

  /** A script, cut at any point it has reached, goes on from there. */
  lemma {:induction false} BodyOfScript(db: seq<Row>, s: Session, qs: seq<Statement>, n: nat, lifetime: nat)
    requires n <= |qs| <= lifetime && RunScript(db, s, qs[..n]).Some?
    ensures
      var r := RunScript(db, s, qs[..n]).value;
      Body(db, s, Script(qs), [], lifetime) == Body(r.db, r.session, Script(qs), r.replies, lifetime - n)
  {
    if n == 0 {
      assert qs[..0] == [];
    } else {
      assert qs[..n][..n - 1] == qs[..n - 1];
      BodyOfScript(db, s, qs, n - 1, lifetime);
      ScriptReplies(db, s, qs[..n - 1]);
    }
  }

  /** A committed transaction leaves the database its statements lead to, and its replies are theirs. */
  lemma {:induction false} CommittedIsDurable(db: seq<Row>, tenant: string, qs: seq<Statement>, lifetime: nat)
    requires |qs| <= lifetime && RunScript(db, Session(tenant, false), qs).Some?
    ensures
      var r := RunScript(db, Session(tenant, false), qs).value;
      RunTx(db, TenantTx(tenant, Script(qs), lifetime, true)) == Progress(r.db, Returned(r.replies))
  {
    var s := Session(tenant, false);
    assert qs[..|qs|] == qs;
    BodyOfScript(db, s, qs, |qs|, lifetime);
    ScriptReplies(db, s, qs);
  }

  lemma {:induction false} FirstDenied(db: seq<Row>, s: Session, qs: seq<Statement>) returns (n: nat)
    requires RunScript(db, s, qs).None?
    ensures n < |qs| && RunScript(db, s, qs[..n]).Some? && RunScript(db, s, qs[..n + 1]).None?
  {
    var k := |qs| - 1;
    if RunScript(db, s, qs[..k]).Some? {
      n := k;
      assert qs[..k + 1] == qs;
    } else {
      n := FirstDenied(db, s, qs[..k]);
      assert qs[..k][..n] == qs[..n] && qs[..k][..n + 1] == qs[..n + 1];
    }
  }

  /** A denied statement undoes the whole transaction. */
  lemma {:induction false} DeniedIsUndone(
    db: seq<Row>, tenant: string, qs: seq<Statement>, lifetime: nat, commits: bool)
    requires |qs| <= lifetime && RunScript(db, Session(tenant, false), qs).None?
    ensures
      var p := RunTx(db, TenantTx(tenant, Script(qs), lifetime, commits));
      p.db == db && p.outcome.Thrown?
  {
    var s := Session(tenant, false);
    var n := FirstDenied(db, s, qs);
    BodyOfScript(db, s, qs, n, lifetime);
    ScriptReplies(db, s, qs[..n]);
    assert qs[..n + 1][..n] == qs[..n];
  }

  lemma {:induction false} RunScriptOne(db: seq<Row>, s: Session, q: Statement)
    ensures
      RunScript(db, s, [q]) ==
      match Execute(db, s, q)
      case Denied => None
      case Done(db', s', reply) => Some(Ran(db', s', [reply]))
  {
    assert [q][..0] == [];
    assert forall reply: Reply :: [] + [reply] == [reply];
  }

  /** What a committed transaction inserts, a later one of the same tenant reads back. */
  lemma {:induction false} InsertedIsRead(db: seq<Row>, r: Row, lifetime: nat)
    requires r.tenant != "" && lifetime > 0
    ensures
      var written := RunTx(db, TenantTx(r.tenant, Script([Insert(r)]), lifetime, true));
      var read := RunTx(written.db, TenantTx(r.tenant, Script([Select(r.table, row => row == r)]), lifetime, true));
      written == Progress(db + [r], Returned([Affected(1)])) && read.db == written.db && read.outcome.Returned? &&
      |read.outcome.replies| == 1 && read.outcome.replies[0].Rows? && r in read.outcome.replies[0].rows
  {
    var s, same := Session(r.tenant, false), (row: Row) => row == r;
    RunScriptOne(db, s, Insert(r));
    CommittedIsDurable(db, r.tenant, [Insert(r)], lifetime);
    RunScriptOne(db + [r], s, Select(r.table, same));
    CommittedIsDurable(db + [r], r.tenant, [Select(r.table, same)], lifetime);
    SelectedRows(db + [r], s, r.table, same, r);
  }

  // ---------- The wrapper itself ----------

  /** A database reached over one pooled connection. */
  class Connection {
    var rows: seq<Row>
    var session: Session

    constructor (initial: seq<Row>)
      ensures rows == initial && session == NO_SESSION
    {
      rows, session := initial, NO_SESSION;
    }

    /**
      Begin, set the tenant, work, commit or roll back, release. The settings
      are transaction-local, so the connection always goes back blank.
     */
    method WithTenantContext(tenant: string, work: Work, lifetime: nat, commits: bool) returns (outcome: Outcome)
      modifies this
      ensures Progress(rows, outcome) == RunTx(old(rows), TenantTx(tenant, work, lifetime, commits))
      ensures
        var body := Body(old(rows), Session(tenant, false), work, [], lifetime);
        (outcome.Returned? <==> body.outcome.Returned? && commits) &&
        outcome.replies == body.outcome.replies &&
        rows == if outcome.Returned? then body.db else old(rows)
      ensures session == NO_SESSION
    {
      var snapshot := rows;
      session := Session(tenant, false);
      var replies: seq<Reply> := [];
      var left := lifetime;
      var action := work(replies);
      while action.Do?
        invariant action == work(replies)
        invariant Body(rows, session, work, replies, left) ==
                  Body(snapshot, Session(tenant, false), work, [], lifetime)
        decreases left, action.Do?
      {
        if left == 0 {
          action := Throw;
          break;
        }
        var effect := Execute(rows, session, action.statement);
        if effect.Denied? {
          action := Throw;
          break;
        }
        rows, session := effect.db, effect.session;
        replies := replies + [effect.reply];
        left := left - 1;
        action := work(replies);
      }
      if action.Return? && commits {
        outcome := Returned(replies);
      } else {
        rows := snapshot;
        outcome := Thrown(replies);
      }
      session := NO_SESSION;
    }
  }
}
