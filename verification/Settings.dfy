/** The two services that update their row through a built statement: cost budgets and the tenant's AI settings. */
module Settings {
  import opened Wrappers
  import opened SqlText
  import opened SqlBuilder

  // ---------- Cost budgets ----------

  const BUDGETS := "cost_budgets"
  const ID := "id"

  /** `UpdateCostBudgetDto`. */
  datatype BudgetPatch = BudgetPatch(
    name: Option<Value>,
    monthlyBudgetAmount: Option<Value>,
    paceWarningThresholdPct: Option<Value>,
    paceCriticalThresholdPct: Option<Value>,
    notifyChannel: Option<Value>,
    notifyRecipient: Option<Value>,
    isActive: Option<Value>)

  function Fields(dto: BudgetPatch): seq<Field> {
    [Field("name", dto.name),
     Field("monthly_budget_amount", dto.monthlyBudgetAmount),
     Field("pace_warning_threshold_pct", dto.paceWarningThresholdPct),
     Field("pace_critical_threshold_pct", dto.paceCriticalThresholdPct),
     Field("notify_channel", dto.notifyChannel),
     Field("notify_recipient", dto.notifyRecipient),
     Field("is_active", dto.isActive)]
  }

  /** The columns of the table: the ones above and the ones no patch touches. */
  ghost predicate BudgetSchema(t: Table) {
    t.name == BUDGETS && ID in t.columns && ID in t.required &&
    "name" in t.columns && "monthly_budget_amount" in t.columns && "pace_warning_threshold_pct" in t.columns &&
    "pace_critical_threshold_pct" in t.columns && "notify_channel" in t.columns && "notify_recipient" in t.columns &&
    "is_active" in t.columns
  }

  lemma BudgetNames()
    ensures IsName(BUDGETS) && IsName(ID) && IsName("name") && IsName("monthly_budget_amount")
  {
  }

  lemma PatchNames()
    ensures IsName("pace_warning_threshold_pct") && IsName("pace_critical_threshold_pct")
    ensures IsName("notify_channel") && IsName("notify_recipient") && IsName("is_active")
  {
  }

  lemma {:induction false} BudgetFields(dto: BudgetPatch, t: Table)
    requires BudgetSchema(t)
    ensures FieldsFor(Fields(dto), t) && forall i :: 0 <= i < |Fields(dto)| ==> Fields(dto)[i].column != ID
  {
    BudgetNames();
    PatchNames();
  }

  datatype BudgetReply = NotFound | Refused | Budget(row: Row)

  /** One push per supplied field. */
  method AssignFields(dto: BudgetPatch) returns (b: SetBuilder)
    ensures fresh(b) && b.Valid() && b.fields == Fields(dto)
  {
    b := new SetBuilder();
    b.AssignIfGiven("name", dto.name);
    b.AssignIfGiven("monthly_budget_amount", dto.monthlyBudgetAmount);
    b.AssignIfGiven("pace_warning_threshold_pct", dto.paceWarningThresholdPct);
    b.AssignIfGiven("pace_critical_threshold_pct", dto.paceCriticalThresholdPct);
    b.AssignIfGiven("notify_channel", dto.notifyChannel);
    b.AssignIfGiven("notify_recipient", dto.notifyRecipient);
    b.AssignIfGiven("is_active", dto.isActive);
  }

  lemma {:induction false} BudgetUpdateIsExact(t: Table, dto: BudgetPatch, id: Value, env: Env)
    requires BudgetSchema(t) && AllFit(t) && Supplied(Fields(dto)) != []
    ensures
      var gs := Supplied(Fields(dto));
      var reply := Execute(UpdateText(BUDGETS, SetTexts(Placed(gs)), ID, |gs| + 1, true), Values(gs) + [id], t, env);
      (reply.Rejected? <==> FindRow(t.rows, ID, id).Some? && FieldsBreak(t, Fields(dto))) &&
      (reply.Updated? ==> UpdatesExactly(t.rows, reply.rows, ID, id, Fields(dto)))
  {
    BudgetNames();
    BudgetFields(dto, t);
    BuiltUpdateIsExact(t, Fields(dto), ID, id, env);
  }

  /** A column takes the supplied value, or keeps its own. */
  ghost predicate Takes(row: Row, row': Row, column: string, value: Option<Value>) {
    column in row && column in row' && row'[column] == if value.Some? then value.value else row[column]
  }

  /** The patch, field by field. */
  ghost predicate Patches(row: Row, row': Row, dto: BudgetPatch) {
    Takes(row, row', "name", dto.name) &&
    Takes(row, row', "monthly_budget_amount", dto.monthlyBudgetAmount) &&
    Takes(row, row', "pace_warning_threshold_pct", dto.paceWarningThresholdPct) &&
    Takes(row, row', "pace_critical_threshold_pct", dto.paceCriticalThresholdPct) &&
    Takes(row, row', "notify_channel", dto.notifyChannel) &&
    Takes(row, row', "notify_recipient", dto.notifyRecipient) &&
    Takes(row, row', "is_active", dto.isActive)
  }

  lemma FieldTakes(row: Row, row': Row, fields: seq<Field>, i: nat)
    requires SetsExactly(row, row', fields) && i < |fields| && fields[i].column in row
    requires forall j, k :: 0 <= j < k < |fields| ==> fields[j].column != fields[k].column
    ensures Takes(row, row', fields[i].column, fields[i].value)
  {
    if fields[i].value.None? {
      forall j | 0 <= j < |fields| && fields[j].column == fields[i].column
        ensures fields[j].value.None?
      {
        assert j == i;
      }
    }
  }

  lemma ExactlyPatches(t: Table, row: Row, row': Row, dto: BudgetPatch)
    requires BudgetSchema(t) && Fits(row, t) && SetsExactly(row, row', Fields(dto))
    ensures Patches(row, row', dto)
  {
    BudgetFields(dto, t);
    FieldTakes(row, row', Fields(dto), 0);
    FieldTakes(row, row', Fields(dto), 1);
    FieldTakes(row, row', Fields(dto), 2);
    FieldTakes(row, row', Fields(dto), 3);
    FieldTakes(row, row', Fields(dto), 4);
    FieldTakes(row, row', Fields(dto), 5);
    FieldTakes(row, row', Fields(dto), 6);
  }

  lemma UpdatedPatches(t: Table, rows: seq<Row>, id: Value, dto: BudgetPatch)
    requires BudgetSchema(t) && AllFit(t) && UpdatesExactly(t.rows, rows, ID, id, Fields(dto))
    ensures |rows| == |t.rows|
    ensures forall i :: 0 <= i < |t.rows| && Matches(t.rows[i], ID, id) ==> Patches(t.rows[i], rows[i], dto)
  {
    forall i | 0 <= i < |t.rows| && Matches(t.rows[i], ID, id)
      ensures Patches(t.rows[i], rows[i], dto)
    {
      assert Fits(t.rows[i], t);
      ExactlyPatches(t, t.rows[i], rows[i], dto);
    }
  }

  class Budgets {
    var table: Table

    ghost predicate Valid()
      reads this
    {
      BudgetSchema(table) && AllFit(table)
    }

    constructor (t: Table)
      requires BudgetSchema(t) && AllFit(t)
      ensures Valid() && table == t
    {
      table := t;
    }

    /**
      `update`. A missing budget is reported, a null for a NOT NULL column is
      refused, and neither changes anything; otherwise exactly the supplied
      columns of that budget change and the budget is returned as it now is.
     */
    method Update(id: Value, dto: BudgetPatch, env: Env) returns (r: BudgetReply)
      requires Valid()
      modifies this
      ensures Valid()
      ensures r.NotFound? <==> FindRow(old(table).rows, ID, id).None?
      ensures r.Refused? <==> FindRow(old(table).rows, ID, id).Some? && FieldsBreak(old(table), Fields(dto))
      ensures table == old(table).(rows := table.rows) && (!r.Budget? ==> table == old(table))
      ensures r.Budget? ==>
        UpdatesExactly(old(table).rows, table.rows, ID, id, Fields(dto)) &&
        FindRow(old(table).rows, ID, id).value < |table.rows| &&
        r.row == table.rows[FindRow(old(table).rows, ID, id).value] &&
        forall i :: 0 <= i < |old(table).rows| && Matches(old(table).rows[i], ID, id) ==>
          Patches(old(table).rows[i], table.rows[i], dto)
    {
      var existing := FindRow(table.rows, ID, id);
      if existing.None? {
        return NotFound;
      }
      var b := AssignFields(dto);
      ghost var fields := Fields(dto);
      if |b.sets| == 0 {
        NothingSupplied(table.rows, ID, id, fields);
        UpdatedPatches(table, table.rows, id, dto);
        return Budget(table.rows[existing.value]);
      }
      var params := b.params + [id];
      var reply := Execute(UpdateText(BUDGETS, b.sets, ID, |params|, true), params, table, env);
      BudgetUpdateIsExact(table, dto, id, env);
      if reply.Rejected? {
        return Refused;
      }
      UpdatedFit(table, reply.rows, ID, id, fields);
      UpdatedPatches(table, reply.rows, id, dto);
      table := table.(rows := reply.rows);
      r := Budget(table.rows[existing.value]);
    }
  }

  lemma UpdatedFit(t: Table, rows: seq<Row>, key: string, v: Value, fields: seq<Field>)
    requires AllFit(t) && UpdatesExactly(t.rows, rows, key, v, fields)
    ensures AllFit(t.(rows := rows))
  {
  }

  // ---------- AI settings ----------

  const AI_SETTINGS := "tenant_ai_settings"
  const TENANT := "tenant_id"
  const API_KEY := "api_key_encrypted"

  /** `UpdateTenantAiSettingsDto`. */
  datatype AiPatch = AiPatch(
    provider: string, model: string, baseUrl: Option<string>, apiKey: Option<string>, isEnabled: Option<bool>)
  {
    /** A key counts as supplied when it is not empty. */
    predicate HasKey() {
      apiKey.Some? && apiKey.value != ""
    }

    predicate Enabled() {
      isEnabled.None? || isEnabled.value
    }

    function BaseUrl(): Value {
      if baseUrl.Some? then Text(baseUrl.value) else Null
    }

    predicate MissingBaseUrl() {
      provider == "openai_compatible" && (baseUrl.None? || baseUrl.value == "")
    }
  }

  ghost predicate AiSchema(t: Table) {
    t.name == AI_SETTINGS && TENANT in t.columns && ID in t.columns && "created_at" in t.columns &&
    "provider" in t.columns && "model" in t.columns && "base_url" in t.columns && "is_enabled" in t.columns &&
    "updated_at" in t.columns && API_KEY in t.columns && "base_url" !in t.required && API_KEY !in t.required
  }

  function AiSets(withKey: bool): seq<Assignment> {
    var fixed :=
      [Assignment("provider", Param(2)), Assignment("model", Param(3)), Assignment("base_url", Param(4)),
       Assignment("is_enabled", Param(5)), Assignment("updated_at", Now)];
    if withKey then fixed + [Assignment(API_KEY, Encrypt(6, 7))] else fixed
  }

  function AiParams(tenant: string, dto: AiPatch, secret: string): seq<Value> {
    var fixed := [Text(tenant), Text(dto.provider), Text(dto.model), dto.BaseUrl(), Boolean(dto.Enabled())];
    if dto.HasKey() then fixed + [Text(dto.apiKey.value), Text(secret)] else fixed
  }

  const REPLACED := {"provider", "model", "base_url", "is_enabled", "updated_at"}

  /** The settings as supplied: no base URL is null, enabled unless said otherwise, an empty key is no key. */
  ghost predicate Carries(row: Row, dto: AiPatch, secret: string, env: Env, storedKey: Value) {
    REPLACED <= row.Keys && API_KEY in row &&
    row["provider"] == Text(dto.provider) && row["model"] == Text(dto.model) &&
    row["base_url"] == (match dto.baseUrl case Some(url) => Text(url) case None => Null) &&
    row["is_enabled"] == Boolean(dto.isEnabled != Some(false)) && row["updated_at"] == Time(env.now) &&
    row["api_key_encrypted"] ==
      if dto.apiKey.None? || dto.apiKey.value == "" then storedKey
      else Bytes(env.encrypt(Text(dto.apiKey.value), Text(secret)))
  }

  /** The row a tenant's settings become: everything but the key is replaced, the key only by a new one. */
  ghost predicate AiUpdated(row: Row, row': Row, dto: AiPatch, secret: string, env: Env) {
    row'.Keys == row.Keys && REPLACED <= row.Keys && API_KEY in row &&
    Carries(row', dto, secret, env, row[API_KEY]) &&
    forall c :: c in row && c !in REPLACED && c != API_KEY ==> row'[c] == row[c]
  }

  lemma ColumnsDiffer()
    ensures "provider" != "base_url" && "is_enabled" != "updated_at"
    ensures API_KEY !in REPLACED
    ensures DistinctColumns(AiSets(true)) && DistinctColumns(AiSets(false))
  {
  }

  lemma AiNames()
    ensures IsName(AI_SETTINGS) && IsName(TENANT) && IsName(API_KEY)
    ensures IsName("provider") && IsName("model") && IsName("base_url") && IsName("is_enabled") && IsName("updated_at")
  {
  }

  /** The five fixed assignments, in the order they are written. */
  lemma FixedAssigned(row: Row, params: seq<Value>, env: Env)
    requires AllBound(AiSets(false), params) && |params| >= 5
    ensures
      Assigned(row, AiSets(false), params, env) ==
      row["provider" := params[1]]["model" := params[2]]["base_url" := params[3]]["is_enabled" := params[4]][
        "updated_at" := Time(env.now)]
  {
    var sets := AiSets(false);
    var r1 := row["provider" := params[1]];
    var r2 := r1["model" := params[2]];
    var r3 := r2["base_url" := params[3]];
    var r4 := r3["is_enabled" := params[4]];
    assert sets[..1][..0] == [] && Assigned(row, sets[..1], params, env) == r1;
    assert sets[..2][..1] == sets[..1] && Assigned(row, sets[..2], params, env) == r2;
    assert sets[..3][..2] == sets[..2] && Assigned(row, sets[..3], params, env) == r3;
    assert sets[..4][..3] == sets[..3] && Assigned(row, sets[..4], params, env) == r4;
    assert sets[..4] == sets[..|sets| - 1];
  }

  lemma AiAssigned(row: Row, tenant: string, dto: AiPatch, secret: string, env: Env)
    requires AllBound(AiSets(dto.HasKey()), AiParams(tenant, dto, secret))
    requires REPLACED <= row.Keys && API_KEY in row
    ensures AiUpdated(row, Assigned(row, AiSets(dto.HasKey()), AiParams(tenant, dto, secret), env), dto, secret, env)
  {
    var params := AiParams(tenant, dto, secret);
    ColumnsDiffer();
    FixedAssigned(row, params, env);
    if dto.HasKey() {
      var all := AiSets(true);
      assert all[..|all| - 1] == AiSets(false);
    }
  }

  function AiStatement(withKey: bool): Update {
    Update(AI_SETTINGS, AiSets(withKey), TENANT, 1, false)
  }

  lemma AiBinds(t: Table, tenant: string, dto: AiPatch, secret: string)
    requires AiSchema(t)
    ensures Binds(AiStatement(dto.HasKey()), AiParams(tenant, dto, secret)) && Resolves(AiStatement(dto.HasKey()), t)
  {
    ColumnsDiffer();
    var sets := AiSets(dto.HasKey());
    assert Uses(sets[0].value, 2) && Uses(sets[1].value, 3) && Uses(sets[2].value, 4) && Uses(sets[3].value, 5);
    if dto.HasKey() {
      assert Uses(sets[5].value, 6) && Uses(sets[5].value, 7);
    }
  }

  lemma AiKeepsNotNull(t: Table, tenant: string, dto: AiPatch, secret: string, env: Env)
    requires AiSchema(t) && AllBound(AiSets(dto.HasKey()), AiParams(tenant, dto, secret))
    ensures !BreaksNotNull(t, AiSets(dto.HasKey()), AiParams(tenant, dto, secret), env)
  {
  }

  ghost predicate AiRowMoves(row: Row, row': Row, tenant: string, dto: AiPatch, secret: string, env: Env) {
    if Matches(row, TENANT, Text(tenant)) then AiUpdated(row, row', dto, secret, env) else row' == row
  }

  /** The settings of the tenant are updated, and no other row changes. */
  ghost predicate AiRows(rows: seq<Row>, rows': seq<Row>, tenant: string, dto: AiPatch, secret: string, env: Env) {
    |rows'| == |rows| && forall i :: 0 <= i < |rows| ==> AiRowMoves(rows[i], rows'[i], tenant, dto, secret, env)
  }

  lemma AiEffect(t: Table, tenant: string, dto: AiPatch, secret: string, env: Env)
    requires AiSchema(t) && AllFit(t) && Binds(AiStatement(dto.HasKey()), AiParams(tenant, dto, secret))
    ensures
      var reply := Effect(AiStatement(dto.HasKey()), AiParams(tenant, dto, secret), t, env);
      reply.Updated? && AiRows(t.rows, reply.rows, tenant, dto, secret, env)
  {
    AiKeepsNotNull(t, tenant, dto, secret, env);
    var reply := Effect(AiStatement(dto.HasKey()), AiParams(tenant, dto, secret), t, env);
    forall i | 0 <= i < |t.rows|
      ensures AiRowMoves(t.rows[i], reply.rows[i], tenant, dto, secret, env)
    {
      AiEffectAt(t, tenant, dto, secret, env, i);
    }
  }

  lemma AiEffectAt(t: Table, tenant: string, dto: AiPatch, secret: string, env: Env, i: nat)
    requires AiSchema(t) && AllFit(t) && Binds(AiStatement(dto.HasKey()), AiParams(tenant, dto, secret)) && i < |t.rows|
    requires Effect(AiStatement(dto.HasKey()), AiParams(tenant, dto, secret), t, env).Updated?
    ensures
      var rows := Effect(AiStatement(dto.HasKey()), AiParams(tenant, dto, secret), t, env).rows;
      |rows| == |t.rows| && AiRowMoves(t.rows[i], rows[i], tenant, dto, secret, env)
  {
    var u, params := AiStatement(dto.HasKey()), AiParams(tenant, dto, secret);
    assert u.key == TENANT && params[u.param - 1] == Text(tenant);
    EffectAt(u, params, t, env, i);
    if Matches(t.rows[i], TENANT, Text(tenant)) {
      assert Fits(t.rows[i], t);
      AiAssigned(t.rows[i], tenant, dto, secret, env);
    }
  }

  /** With the fixed prefix, omitting the key leaves the stored key alone; supplying one stores it encrypted. */
  lemma {:induction false} AiUpdateIsExact(t: Table, tenant: string, dto: AiPatch, secret: string, env: Env)
    requires AiSchema(t) && AllFit(t)
    ensures
      var text := UpdateText(AI_SETTINGS, SetTexts(AiSets(dto.HasKey())), TENANT, 1, false);
      var reply := Execute(text, AiParams(tenant, dto, secret), t, env);
      reply.Updated? && AiRows(t.rows, reply.rows, tenant, dto, secret, env)
  {
    AiNames();
    TextReadsBack(AiStatement(dto.HasKey()));
    AiBinds(t, tenant, dto, secret);
    AiEffect(t, tenant, dto, secret, env);
  }

  lemma FixedTexts()
    ensures
      SetTexts(AiSets(false)) ==
      ["provider = $2", "model = $3", "base_url = $4", "is_enabled = $5", "updated_at = now()"]
  {
    assert SetText(Assignment("provider", Param(2))) == "provider = $2";
    assert SetText(Assignment("model", Param(3))) == "model = $3";
    assert SetText(Assignment("base_url", Param(4))) == "base_url = $4";
    assert SetText(Assignment("is_enabled", Param(5))) == "is_enabled = $5";
    assert SetText(Assignment("updated_at", Now)) == "updated_at = now()";
  }

  /** What is read back of a row: never the key, only whether there is one. */
  datatype Safe = Safe(
    id: Value,
    provider: Value,
    model: Value,
    baseUrl: Value,
    isEnabled: Value,
    hasApiKey: bool,
    updatedAt: Value)

  function SafeOf(row: Row): Safe
    requires REPLACED + {ID, API_KEY} <= row.Keys
  {
    Safe(
      row[ID], row["provider"], row["model"], row["base_url"], row["is_enabled"], row[API_KEY] != Null,
      row["updated_at"])
  }

  function InsertedAi(id: Value, tenant: string, dto: AiPatch, secret: string, env: Env): Row {
    map[
      ID := id, TENANT := Text(tenant), "provider" := Text(dto.provider), "model" := Text(dto.model),
      "base_url" := dto.BaseUrl(), "is_enabled" := Boolean(dto.Enabled()), "created_at" := Time(env.now),
      "updated_at" := Time(env.now),
      API_KEY := if dto.HasKey() then Bytes(env.encrypt(Text(dto.apiKey.value), Text(secret))) else Null]
  }

  /** A new row of the tenant carries the settings, with no key unless one was supplied. */
  ghost predicate NewSettings(row: Row, id: Value, tenant: string, dto: AiPatch, secret: string, env: Env) {
    row.Keys == REPLACED + {ID, TENANT, API_KEY, "created_at"} && row["id"] == id && row["tenant_id"] == Text(tenant) &&
    row["created_at"] == Time(env.now) && Carries(row, dto, secret, env, Null)
  }

  lemma InsertedIsNew(id: Value, tenant: string, dto: AiPatch, secret: string, env: Env)
    ensures NewSettings(InsertedAi(id, tenant, dto, secret, env), id, tenant, dto, secret, env)
  {
    var row := InsertedAi(id, tenant, dto, secret, env);
    assert row.Keys == REPLACED + {ID, TENANT, API_KEY, "created_at"};
    ColumnsDiffer();
  }

  datatype AiReply = BadRequest | Saved(safe: Safe)

  class AiSettings {
    var table: Table

    ghost predicate Valid()
      reads this
    {
      AiSchema(table) && table.columns == REPLACED + {ID, TENANT, API_KEY, "created_at"} && AllFit(table)
    }

    constructor (t: Table)
      requires AiSchema(t) && t.columns == REPLACED + {ID, TENANT, API_KEY, "created_at"} && AllFit(t)
      ensures Valid() && table == t
    {
      table := t;
    }

    method Update(tenant: string, dto: AiPatch, secret: string, env: Env)
      requires Valid()
      modifies this
      ensures Valid() && table == old(table).(rows := table.rows)
      ensures AiRows(old(table).rows, table.rows, tenant, dto, secret, env)
    {
      var sets := ["provider = $2", "model = $3", "base_url = $4", "is_enabled = $5", "updated_at = now()"];
      var params := [Text(tenant), Text(dto.provider), Text(dto.model), dto.BaseUrl(), Boolean(dto.Enabled())];
      FixedTexts();
      if dto.HasKey() {
        params := params + [Text(dto.apiKey.value), Text(secret)];
        var text :=
          API_KEY + (" = " + ("pgp_sym_encrypt(" + (ParamText(|params| - 1) + (", " + (ParamText(|params|) + ")")))));
        sets := sets + [text];
        assert text == SetText(Assignment(API_KEY, Encrypt(6, 7)));
      }
      assert sets == SetTexts(AiSets(dto.HasKey())) && params == AiParams(tenant, dto, secret);
      AiUpdateIsExact(table, tenant, dto, secret, env);
      var reply := Execute(UpdateText(AI_SETTINGS, sets, TENANT, 1, false), params, table, env);
      AiRowsFit(table, reply.rows, tenant, dto, secret, env);
      table := table.(rows := reply.rows);
    }

    /**
      `upsert`. An open provider without a base URL changes nothing. A tenant
      without a row gets one; otherwise its row is updated, keeping the stored
      key unless a new one is supplied. The reply says whether there is one.
     */
    method Upsert(id: Value, tenant: string, dto: AiPatch, secret: string, env: Env) returns (r: AiReply)
      requires Valid()
      modifies this
      ensures Valid() && table == old(table).(rows := table.rows)
      ensures r.BadRequest? <==> dto.provider == "openai_compatible" && (dto.baseUrl.None? || dto.baseUrl.value == "")
      ensures r.BadRequest? ==> table == old(table)
      ensures r.Saved? && FindRow(old(table).rows, TENANT, Text(tenant)).None? ==>
        table.rows == old(table).rows + [InsertedAi(id, tenant, dto, secret, env)] &&
        NewSettings(table.rows[|old(table).rows|], id, tenant, dto, secret, env)
      ensures r.Saved? && FindRow(old(table).rows, TENANT, Text(tenant)).Some? ==>
        AiRows(old(table).rows, table.rows, tenant, dto, secret, env)
      ensures r.Saved? ==> Reports(table.rows, tenant, r.safe)
    {
      if dto.MissingBaseUrl() {
        return BadRequest;
      }
      var existing := FindRow(table.rows, TENANT, Text(tenant));
      if existing.None? {
        InsertedFits(table, id, tenant, dto, secret, env);
        InsertedIsNew(id, tenant, dto, secret, env);
        table := table.(rows := table.rows + [InsertedAi(id, tenant, dto, secret, env)]);
      } else {
        AiRowsMatch(table, existing.value, tenant, dto, secret, env);
        Update(tenant, dto, secret, env);
      }
      r := Select(tenant);
    }

    /** The row of the tenant, without its key. */
    method Select(tenant: string) returns (r: AiReply)
      requires Valid() && FindRow(table.rows, TENANT, Text(tenant)).Some?
      ensures r.Saved? && Reports(table.rows, tenant, r.safe)
    {
      var k := FindRow(table.rows, TENANT, Text(tenant)).value;
      assert Fits(table.rows[k], table);
      r := Saved(SafeOf(table.rows[k]));
    }
  }

  /** The reply describes a row of the tenant and says rightly whether a key is stored. */
  ghost predicate Reports(rows: seq<Row>, tenant: string, safe: Safe) {
    exists k ::
      0 <= k < |rows| && Matches(rows[k], TENANT, Text(tenant)) && Describes(safe, rows[k])
  }

  ghost predicate Describes(safe: Safe, row: Row) {
    REPLACED + {ID, API_KEY} <= row.Keys && safe.id == row["id"] && safe.provider == row["provider"] &&
    safe.model == row["model"] && safe.baseUrl == row["base_url"] && safe.isEnabled == row["is_enabled"] &&
    safe.updatedAt == row["updated_at"] && (safe.hasApiKey <==> row["api_key_encrypted"] != Null)
  }

  lemma InsertedFits(t: Table, id: Value, tenant: string, dto: AiPatch, secret: string, env: Env)
    requires t.columns == REPLACED + {ID, TENANT, API_KEY, "created_at"} && AllFit(t)
    ensures
      var t' := t.(rows := t.rows + [InsertedAi(id, tenant, dto, secret, env)]);
      AllFit(t') && FindRow(t'.rows, TENANT, Text(tenant)).Some?
  {
  }

  /** Updating the settings does not move them to another tenant. */
  lemma AiRowsMatch(t: Table, k: nat, tenant: string, dto: AiPatch, secret: string, env: Env)
    requires k < |t.rows| && Matches(t.rows[k], TENANT, Text(tenant))
    ensures forall rows :: AiRows(t.rows, rows, tenant, dto, secret, env) ==> FindRow(rows, TENANT, Text(tenant)).Some?
  {
  }

  lemma AiRowsFit(t: Table, rows: seq<Row>, tenant: string, dto: AiPatch, secret: string, env: Env)
    requires AllFit(t) && AiRows(t.rows, rows, tenant, dto, secret, env)
    ensures AllFit(t.(rows := rows))
  {
  }
}
