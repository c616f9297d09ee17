/**
  The services that build their UPDATE statement field by field: each supplied
  field pushes a parameter and a SET clause that refers to it by position.
 */
module SqlBuilder {
  import opened Wrappers
  import opened SqlText

  datatype Value = Null | Text(s: string) | Amount(r: real) | Boolean(b: bool) | Time(t: int) | Bytes(data: string)

  type Row = map<string, Value>

  /** `required` are the NOT NULL columns. */
  datatype Table = Table(name: string, columns: set<string>, required: set<string>, rows: seq<Row>)

  /** What the database supplies: the clock and pgcrypto. */
  datatype Env = Env(now: int, encrypt: (Value, Value) -> string)

  // ---------- What the database does with a statement ----------

  predicate Bound(e: Expr, params: seq<Value>) {
    match e
    case Param(n) => 1 <= n <= |params|
    case Now => true
    case Encrypt(plain, key) => 1 <= plain <= |params| && 1 <= key <= |params|
  }

  predicate Uses(e: Expr, n: nat) {
    match e
    case Param(m) => m == n
    case Now => false
    case Encrypt(plain, key) => plain == n || key == n
  }

  predicate AllBound(sets: seq<Assignment>, params: seq<Value>) {
    forall j :: 0 <= j < |sets| ==> Bound(sets[j].value, params)
  }

  predicate UsedIn(sets: seq<Assignment>, n: nat) {
    exists j :: 0 <= j < |sets| && Uses(sets[j].value, n)
  }

  /** Every placeholder has a parameter and every parameter a placeholder. */
  predicate Binds(u: Update, params: seq<Value>) {
    1 <= u.param <= |params| && AllBound(u.sets, params) &&
    forall n :: 1 <= n <= |params| ==> n == u.param || UsedIn(u.sets, n)
  }

  predicate DistinctColumns(sets: seq<Assignment>) {
    forall i, j :: 0 <= i < j < |sets| ==> sets[i].column != sets[j].column
  }

  predicate Resolves(u: Update, t: Table) {
    u.table == t.name && u.key in t.columns && DistinctColumns(u.sets) &&
    forall j :: 0 <= j < |u.sets| ==> u.sets[j].column in t.columns
  }

  /** The placeholder `$n` stands in the expression. */
  predicate Mentions(e: Expr, n: nat) {
    e == Param(n) || (e.Encrypt? && (e.plain == n || e.key == n))
  }

  predicate MentionedIn(sets: seq<Assignment>, n: nat) {
    exists j :: 0 <= j < |sets| && Mentions(sets[j].value, n)
  }

  /** The database asks for a parameter for every placeholder and a placeholder for every parameter. */
  lemma BindsExactly(u: Update, params: seq<Value>)
    ensures
      Binds(u, params) <==>
      1 <= u.param <= |params| &&
      (forall n: nat :: MentionedIn(u.sets, n) ==> 1 <= n <= |params|) &&
      forall n: nat :: 1 <= n <= |params| && n != u.param ==> MentionedIn(u.sets, n)
  {
    forall n: nat
      ensures UsedIn(u.sets, n) <==> MentionedIn(u.sets, n)
    {
      if j :| 0 <= j < |u.sets| && Uses(u.sets[j].value, n) {
        assert Mentions(u.sets[j].value, n);
      }
      if j :| 0 <= j < |u.sets| && Mentions(u.sets[j].value, n) {
        assert Uses(u.sets[j].value, n);
      }
    }
    AllBoundExactly(u.sets, params);
  }

  lemma AllBoundExactly(sets: seq<Assignment>, params: seq<Value>)
    ensures AllBound(sets, params) <==> forall n: nat :: MentionedIn(sets, n) ==> 1 <= n <= |params|
  {
    if AllBound(sets, params) {
      forall n: nat | MentionedIn(sets, n)
        ensures 1 <= n <= |params|
      {
        var j :| 0 <= j < |sets| && Mentions(sets[j].value, n);
        MentionsBound(sets[j].value, params);
      }
    } else {
      var j :| 0 <= j < |sets| && !Bound(sets[j].value, params);
      MentionsBound(sets[j].value, params);
      var n: nat :| Mentions(sets[j].value, n) && !(1 <= n <= |params|);
      assert MentionedIn(sets, n);
    }
  }

  /** ... and for known columns, none of them set twice. */
  lemma ResolvesExactly(u: Update, t: Table)
    ensures
      Resolves(u, t) <==>
      u.table == t.name && u.key in t.columns &&
      (forall j :: 0 <= j < |u.sets| ==> u.sets[j].column in t.columns) &&
      forall i, j :: 0 <= i < |u.sets| && 0 <= j < |u.sets| && u.sets[i].column == u.sets[j].column ==> i == j
  {
  }

  lemma MentionsBound(e: Expr, params: seq<Value>)
    ensures Bound(e, params) <==> forall n: nat :: Mentions(e, n) ==> 1 <= n <= |params|
  {
    match e
    case Param(n) => assert Mentions(e, n);
    case Now =>
    case Encrypt(plain, key) => assert Mentions(e, plain) && Mentions(e, key);
  }

  function Eval(e: Expr, params: seq<Value>, env: Env): Value
    requires Bound(e, params)
  {
    match e
    case Param(n) => params[n - 1]
    case Now => Time(env.now)
    case Encrypt(plain, key) => Bytes(env.encrypt(params[plain - 1], params[key - 1]))
  }

  predicate Matches(row: Row, key: string, v: Value) {
    key in row && v != Null && row[key] == v
  }

  function FindRow(rows: seq<Row>, key: string, v: Value): (r: Option<nat>)
    ensures r.Some? ==> r.value < |rows| && Matches(rows[r.value], key, v)
    ensures r.None? ==> forall i :: 0 <= i < |rows| ==> !Matches(rows[i], key, v)
  {
    FindLast(rows, row => Matches(row, key, v))
  }

  function Assigned(row: Row, sets: seq<Assignment>, params: seq<Value>, env: Env): Row
    requires AllBound(sets, params)
  {
    if sets == [] then row
    else
      var n := |sets| - 1;
      Assigned(row, sets[..n], params, env)[sets[n].column := Eval(sets[n].value, params, env)]
  }

  predicate BreaksNotNull(t: Table, sets: seq<Assignment>, params: seq<Value>, env: Env)
    requires AllBound(sets, params)
  {
    exists j :: 0 <= j < |sets| && sets[j].column in t.required && Eval(sets[j].value, params, env) == Null
  }

  datatype Reply = Rejected | Updated(rows: seq<Row>)

  function Execute(text: string, params: seq<Value>, t: Table, env: Env): Reply {
    match ReadUpdate(text)
    case None => Rejected
    case Some(u) => if Binds(u, params) && Resolves(u, t) then Effect(u, params, t, env) else Rejected
  }

  function Effect(u: Update, params: seq<Value>, t: Table, env: Env): Reply
    requires Binds(u, params)
  {
    var v := params[u.param - 1];
    if FindRow(t.rows, u.key, v).Some? && BreaksNotNull(t, u.sets, params, env) then Rejected
    else
      Updated(seq(|t.rows|, i requires 0 <= i < |t.rows| =>
        if Matches(t.rows[i], u.key, v) then Assigned(t.rows[i], u.sets, params, env) else t.rows[i]))
  }

  lemma EffectAt(u: Update, params: seq<Value>, t: Table, env: Env, i: nat)
    requires Binds(u, params) && Effect(u, params, t, env).Updated? && i < |t.rows|
    ensures
      var rows := Effect(u, params, t, env).rows;
      |rows| == |t.rows| &&
      rows[i] ==
      if Matches(t.rows[i], u.key, params[u.param - 1]) then Assigned(t.rows[i], u.sets, params, env) else t.rows[i]
  {
  }

  // ---------- Building from optional fields ----------

  datatype Field = Field(column: string, value: Option<Value>)

  datatype Given = Given(column: string, value: Value)

  function Supplied(fields: seq<Field>): seq<Given> {
    if fields == [] then []
    else
      var n := |fields| - 1;
      var before := Supplied(fields[..n]);
      if fields[n].value.Some? then before + [Given(fields[n].column, fields[n].value.value)] else before
  }

  function Placed(gs: seq<Given>): (sets: seq<Assignment>)
    ensures |sets| == |gs|
    ensures forall i :: 0 <= i < |gs| ==> sets[i] == Assignment(gs[i].column, Param(i + 1))
  {
    seq(|gs|, i requires 0 <= i < |gs| => Assignment(gs[i].column, Param(i + 1)))
  }

  function Values(gs: seq<Given>): (vs: seq<Value>)
    ensures |vs| == |gs| && forall i :: 0 <= i < |gs| ==> vs[i] == gs[i].value
  {
    seq(|gs|, i requires 0 <= i < |gs| => gs[i].value)
  }

  /** `sets` and `params` and the closure that pushes on both. */
  class SetBuilder {
    var sets: seq<string>
    var params: seq<Value>
    ghost var fields: seq<Field>

    ghost predicate Valid()
      reads this
    {
      sets == SetTexts(Placed(Supplied(fields))) && params == Values(Supplied(fields))
    }

    constructor ()
      ensures Valid() && fields == []
    {
      sets, params, fields := [], [], [];
    }

    /** `if (value !== undefined) assign(column, value)`. */
    method AssignIfGiven(column: string, value: Option<Value>)
      requires Valid()
      modifies this
      ensures Valid() && fields == old(fields) + [Field(column, value)]
    {
      ghost var before := Supplied(fields);
      fields := fields + [Field(column, value)];
      assert fields[..|fields| - 1] == old(fields);
      if value.Some? {
        params := params + [value.value];
        sets := sets + [column + (" = " + ParamText(|params|))];
        assert SetText(Assignment(column, Param(|params|))) == column + (" = " + ParamText(|params|));
      }
    }
  }

  // ---------- What the built statement means ----------

  function Patched(row: Row, gs: seq<Given>): Row {
    if gs == [] then row
    else
      var n := |gs| - 1;
      Patched(row, gs[..n])[gs[n].column := gs[n].value]
  }

  function PatchedRows(rows: seq<Row>, key: string, v: Value, gs: seq<Given>): (r: seq<Row>)
    ensures |r| == |rows|
    ensures forall i :: 0 <= i < |rows| ==> r[i] == if Matches(rows[i], key, v) then Patched(rows[i], gs) else rows[i]
  {
    seq(|rows|, i requires 0 <= i < |rows| => if Matches(rows[i], key, v) then Patched(rows[i], gs) else rows[i])
  }

  ghost predicate GivenFor(gs: seq<Given>, t: Table) {
    (forall i :: 0 <= i < |gs| ==> IsName(gs[i].column) && gs[i].column in t.columns) &&
    forall i, j :: 0 <= i < j < |gs| ==> gs[i].column != gs[j].column
  }

  ghost predicate GivenBreaks(t: Table, gs: seq<Given>) {
    exists i :: 0 <= i < |gs| && gs[i].column in t.required && gs[i].value == Null
  }

  lemma {:induction false} AssignedIsPatched(row: Row, gs: seq<Given>, params: seq<Value>, env: Env)
    requires |gs| <= |params| && forall i :: 0 <= i < |gs| ==> params[i] == gs[i].value
    ensures AllBound(Placed(gs), params) && Assigned(row, Placed(gs), params, env) == Patched(row, gs)
  {
    if gs != [] {
      var n := |gs| - 1;
      assert Placed(gs)[..n] == Placed(gs[..n]);
      AssignedIsPatched(row, gs[..n], params, env);
    }
  }

  function Built(table: string, gs: seq<Given>, key: string): Update {
    Update(table, Placed(gs), key, |gs| + 1, true)
  }

  lemma BuiltBinds(t: Table, gs: seq<Given>, key: string, v: Value)
    requires GivenFor(gs, t) && key in t.columns
    ensures Binds(Built(t.name, gs, key), Values(gs) + [v]) && Resolves(Built(t.name, gs, key), t)
  {
    var u := Built(t.name, gs, key);
    forall n | 1 <= n <= |gs|
      ensures UsedIn(u.sets, n)
    {
      assert Uses(u.sets[n - 1].value, n);
    }
  }

  lemma BuiltEffect(t: Table, gs: seq<Given>, key: string, v: Value, env: Env)
    requires GivenFor(gs, t) && key in t.columns
    ensures
      var u, params := Built(t.name, gs, key), Values(gs) + [v];
      Binds(u, params) &&
      Effect(u, params, t, env) ==
      if FindRow(t.rows, key, v).Some? && GivenBreaks(t, gs) then Rejected else Updated(PatchedRows(t.rows, key, v, gs))
  {
    var u, params := Built(t.name, gs, key), Values(gs) + [v];
    BuiltBinds(t, gs, key, v);
    assert params[u.param - 1] == v;
    if !(FindRow(t.rows, key, v).Some? && GivenBreaks(t, gs)) {
      var rows := Effect(u, params, t, env).rows;
      forall i | 0 <= i < |t.rows|
        ensures rows[i] == PatchedRows(t.rows, key, v, gs)[i]
      {
        AssignedIsPatched(t.rows[i], gs, params, env);
      }
      assert rows == PatchedRows(t.rows, key, v, gs);
    }
  }

  /**
    The text built from any supplied fields, read by the database with the
    parameters pushed beside it, patches exactly the addressed row.
   */
  lemma {:induction false} BuiltTextMeans(t: Table, gs: seq<Given>, key: string, v: Value, env: Env)
    requires gs != [] && GivenFor(gs, t) && IsName(t.name) && IsName(key) && key in t.columns
    ensures
      Execute(UpdateText(t.name, SetTexts(Placed(gs)), key, |gs| + 1, true), Values(gs) + [v], t, env) ==
      if FindRow(t.rows, key, v).Some? && GivenBreaks(t, gs) then Rejected else Updated(PatchedRows(t.rows, key, v, gs))
  {
    TextReadsBack(Built(t.name, gs, key));
    BuiltBinds(t, gs, key, v);
    BuiltEffect(t, gs, key, v, env);
  }

  // ---------- Exactly the supplied columns ----------

  ghost predicate FieldsFor(fields: seq<Field>, t: Table) {
    (forall i :: 0 <= i < |fields| ==> IsName(fields[i].column) && fields[i].column in t.columns) &&
    forall i, j :: 0 <= i < j < |fields| ==> fields[i].column != fields[j].column
  }

  ghost predicate Listed(fields: seq<Field>, column: string, value: Option<Value>) {
    exists i :: 0 <= i < |fields| && fields[i] == Field(column, value)
  }

  /** Supplied columns take their values and every other column keeps its own. */
  ghost predicate SetsExactly(row: Row, row': Row, fields: seq<Field>) {
    row'.Keys == row.Keys &&
    (forall i :: 0 <= i < |fields| && fields[i].column in row && fields[i].value.Some? ==>
      row'[fields[i].column] == fields[i].value.value) &&
    forall c :: c in row && (forall i :: 0 <= i < |fields| && fields[i].column == c ==> fields[i].value.None?) ==>
      row'[c] == row[c]
  }

  /** ... in exactly the rows whose `key` is `v`. */
  ghost predicate UpdatesExactly(rows: seq<Row>, rows': seq<Row>, key: string, v: Value, fields: seq<Field>) {
    |rows'| == |rows| &&
    forall i :: 0 <= i < |rows| ==>
      if key in rows[i] && v != Null && rows[i][key] == v then SetsExactly(rows[i], rows'[i], fields)
      else rows'[i] == rows[i]
  }

  ghost predicate FieldsBreak(t: Table, fields: seq<Field>) {
    exists i :: 0 <= i < |fields| && fields[i].column in t.required && fields[i].value == Some(Null)
  }

  ghost predicate Fits(row: Row, t: Table) {
    row.Keys == t.columns
  }

  ghost predicate AllFit(t: Table) {
    forall i :: 0 <= i < |t.rows| ==> Fits(t.rows[i], t)
  }

  lemma {:induction false} SuppliedFrom(fields: seq<Field>, i: nat)
    requires i < |Supplied(fields)|
    ensures var g := Supplied(fields)[i]; Listed(fields, g.column, Some(g.value))
  {
    var n := |fields| - 1;
    if i < |Supplied(fields[..n])| {
      SuppliedFrom(fields[..n], i);
      var g := Supplied(fields[..n])[i];
      var j :| 0 <= j < n && fields[..n][j] == Field(g.column, Some(g.value));
      assert fields[j] == fields[..n][j];
    } else {
      assert fields[n] == Field(fields[n].column, fields[n].value);
    }
  }

  lemma {:induction false} SuppliedHas(fields: seq<Field>, j: nat)
    requires j < |fields| && fields[j].value.Some?
    ensures Given(fields[j].column, fields[j].value.value) in Supplied(fields)
  {
    var n := |fields| - 1;
    if j < n {
      SuppliedHas(fields[..n], j);
    }
  }

  lemma {:induction false} SuppliedFor(fields: seq<Field>, t: Table)
    requires FieldsFor(fields, t)
    ensures GivenFor(Supplied(fields), t)
  {
    if fields != [] {
      var n := |fields| - 1;
      SuppliedFor(fields[..n], t);
      forall i | 0 <= i < |Supplied(fields[..n])|
        ensures Supplied(fields[..n])[i].column != fields[n].column
      {
        SuppliedFrom(fields[..n], i);
      }
    }
  }

  lemma SuppliedBreaks(t: Table, fields: seq<Field>)
    ensures GivenBreaks(t, Supplied(fields)) <==> FieldsBreak(t, fields)
  {
    var gs := Supplied(fields);
    if i :| 0 <= i < |gs| && gs[i].column in t.required && gs[i].value == Null {
      SuppliedFrom(fields, i);
    }
    if j :| 0 <= j < |fields| && fields[j].column in t.required && fields[j].value == Some(Null) {
      SuppliedHas(fields, j);
      var i :| 0 <= i < |gs| && gs[i] == Given(fields[j].column, Null);
    }
  }

  lemma {:induction false} PatchIsExact(row: Row, fields: seq<Field>, t: Table)
    requires FieldsFor(fields, t) && Fits(row, t)
    ensures SetsExactly(row, Patched(row, Supplied(fields)), fields)
  {
    if fields != [] {
      var n := |fields| - 1;
      PatchIsExact(row, fields[..n], t);
      PatchOneMore(row, Patched(row, Supplied(fields[..n])), fields);
      if fields[n].value.Some? {
        assert Supplied(fields)[..|Supplied(fields)| - 1] == Supplied(fields[..n]);
      }
    }
  }

  lemma PatchOneMore(row: Row, before: Row, fields: seq<Field>)
    requires fields != [] && SetsExactly(row, before, fields[..|fields| - 1])
    requires fields[|fields| - 1].column in row
    requires forall i, j :: 0 <= i < j < |fields| ==> fields[i].column != fields[j].column
    ensures
      var f := fields[|fields| - 1];
      SetsExactly(row, if f.value.Some? then before[f.column := f.value.value] else before, fields)
  {
    var n := |fields| - 1;
    var f := fields[n];
    var after := if f.value.Some? then before[f.column := f.value.value] else before;
    assert forall i :: 0 <= i < n ==> fields[..n][i] == fields[i];
    forall c | c in row && (forall i :: 0 <= i < |fields| && fields[i].column == c ==> fields[i].value.None?)
      ensures after[c] == row[c]
    {
      assert f.column == c ==> f.value.None?;
    }
  }

  /**
    For every list of optional fields over distinct columns, the built UPDATE
    sets exactly the supplied columns of exactly the addressed rows. The
    database refuses it in one case: the row is there and a supplied value is
    null in a NOT NULL column.
   */
  lemma {:induction false} BuiltUpdateIsExact(t: Table, fields: seq<Field>, key: string, v: Value, env: Env)
    requires FieldsFor(fields, t) && AllFit(t) && IsName(t.name) && IsName(key) && key in t.columns
    requires Supplied(fields) != []
    ensures
      var gs := Supplied(fields);
      var reply := Execute(UpdateText(t.name, SetTexts(Placed(gs)), key, |gs| + 1, true), Values(gs) + [v], t, env);
      (reply.Rejected? <==> FindRow(t.rows, key, v).Some? && FieldsBreak(t, fields)) &&
      (reply.Updated? ==> UpdatesExactly(t.rows, reply.rows, key, v, fields))
  {
    var gs := Supplied(fields);
    SuppliedFor(fields, t);
    SuppliedBreaks(t, fields);
    BuiltTextMeans(t, gs, key, v, env);
    forall i | 0 <= i < |t.rows|
      ensures SetsExactly(t.rows[i], Patched(t.rows[i], gs), fields)
    {
      PatchIsExact(t.rows[i], fields, t);
    }
  }

  lemma NothingSupplied(rows: seq<Row>, key: string, v: Value, fields: seq<Field>)
    requires Supplied(fields) == []
    ensures UpdatesExactly(rows, rows, key, v, fields)
    ensures forall i :: 0 <= i < |fields| ==> fields[i].value.None?
  {
    forall i | 0 <= i < |fields|
      ensures fields[i].value.None?
    {
      if fields[i].value.Some? {
        SuppliedHas(fields, i);
      }
    }
  }
}
