/**
  The SQL text the settings services put together: an UPDATE with positional
  parameters, as it is written and as the database reads it.
 */
module SqlText {
  import opened Wrappers
  import opened Numerals

  datatype Expr = Param(n: nat) | Now | Encrypt(plain: nat, key: nat)

  datatype Assignment = Assignment(column: string, value: Expr)

  datatype Update = Update(table: string, sets: seq<Assignment>, key: string, param: nat, returning: bool)

  // ---------- Writing ----------

  function ParamText(n: nat): string {
    "$" + Decimal(n)
  }

  function ExprText(e: Expr): string {
    match e
    case Param(n) => ParamText(n)
    case Now => "now()"
    case Encrypt(plain, key) => "pgp_sym_encrypt(" + (ParamText(plain) + (", " + (ParamText(key) + ")")))
  }

  function SetText(a: Assignment): string {
    a.column + (" = " + ExprText(a.value))
  }

  function SetTexts(sets: seq<Assignment>): (texts: seq<string>)
    ensures |texts| == |sets| && forall i :: 0 <= i < |sets| ==> texts[i] == SetText(sets[i])
  {
    seq(|sets|, i requires 0 <= i < |sets| => SetText(sets[i]))
  }

  /** `texts.join(', ')`. */
  function Join(texts: seq<string>): string {
    if texts == [] then ""
    else if |texts| == 1 then texts[0]
    else texts[0] + (", " + Join(texts[1..]))
  }

  function UpdateText(table: string, texts: seq<string>, key: string, param: nat, returning: bool): string {
    var where := " WHERE " + (key + (" = " + (ParamText(param) + Tail(returning))));
    "UPDATE " + (table + (" SET " + (Join(texts) + where)))
  }

  function Tail(returning: bool): string {
    if returning then " RETURNING *" else ""
  }

  // ---------- Reading ----------

  datatype Read<+T> = Stuck | Got(value: T, rest: string)

  predicate IsLetter(c: char) {
    'a' <= c <= 'z' || c == '_'
  }

  /** How many leading characters of `s` satisfy `ok`. */
  function Lead(s: string, ok: char -> bool): (k: nat)
    ensures k <= |s| && forall i :: 0 <= i < k ==> ok(s[i])
  {
    if s == "" || !ok(s[0]) then 0 else 1 + Lead(s[1..], ok)
  }

  function Skip(s: string, p: string): Option<string> {
    if |p| <= |s| && s[..|p|] == p then Some(s[|p|..]) else None
  }

  function ReadParam(s: string): Read<nat> {
    match Skip(s, "$")
    case None => Stuck
    case Some(t) =>
      var k := Lead(t, IsDigit);
      if k == 0 then Stuck else Got(Number(t[..k]), t[k..])
  }

  function ReadName(s: string): Read<string> {
    var k := Lead(s, IsLetter);
    if k == 0 then Stuck else Got(s[..k], s[k..])
  }

  function ReadEncrypt(s: string): Read<Expr> {
    match Skip(s, "pgp_sym_encrypt(")
    case None => Stuck
    case Some(s1) =>
      match ReadParam(s1)
      case Stuck => Stuck
      case Got(plain, s2) =>
        match Skip(s2, ", ")
        case None => Stuck
        case Some(s3) =>
          match ReadParam(s3)
          case Stuck => Stuck
          case Got(key, s4) =>
            match Skip(s4, ")")
            case None => Stuck
            case Some(s5) => Got(Encrypt(plain, key), s5)
  }

  function ReadExpr(s: string): Read<Expr> {
    match ReadParam(s)
    case Got(n, rest) => Got(Param(n), rest)
    case Stuck =>
      match Skip(s, "now()")
      case Some(rest) => Got(Now, rest)
      case None => ReadEncrypt(s)
  }

  function ReadSet(s: string): Read<Assignment> {
    match ReadName(s)
    case Stuck => Stuck
    case Got(column, s1) =>
      match Skip(s1, " = ")
      case None => Stuck
      case Some(s2) =>
        match ReadExpr(s2)
        case Stuck => Stuck
        case Got(e, rest) => Got(Assignment(column, e), rest)
  }

  function ReadSets(s: string): Read<seq<Assignment>>
    decreases |s|
  {
    match ReadSet(s)
    case Stuck => Stuck
    case Got(a, s1) =>
      match Skip(s1, ", ")
      case None => Got([a], s1)
      case Some(s2) =>
        if |s2| >= |s| then Stuck
        else
          match ReadSets(s2)
          case Stuck => Stuck
          case Got(more, rest) => Got([a] + more, rest)
  }

  /** WHERE key = $n [RETURNING *], to the end of the text. */
  function ReadWhere(s: string): Option<(string, nat, bool)> {
    match Skip(s, " WHERE ")
    case None => None
    case Some(s1) =>
      match ReadName(s1)
      case Stuck => None
      case Got(key, s2) =>
        match Skip(s2, " = ")
        case None => None
        case Some(s3) =>
          match ReadParam(s3)
          case Stuck => None
          case Got(n, rest) =>
            if rest == Tail(true) then Some((key, n, true))
            else if rest == Tail(false) then Some((key, n, false))
            else None
  }

  function ReadUpdate(s: string): Option<Update> {
    match Skip(s, "UPDATE ")
    case None => None
    case Some(s1) =>
      match ReadName(s1)
      case Stuck => None
      case Got(table, s2) =>
        match Skip(s2, " SET ")
        case None => None
        case Some(s3) =>
          match ReadSets(s3)
          case Stuck => None
          case Got(sets, s4) =>
            match ReadWhere(s4)
            case None => None
            case Some(w) => Some(Update(table, sets, w.0, w.1, w.2))
  }

  // ---------- What is written is read back ----------

  ghost predicate IsName(s: string) {
    s != "" && All(s, IsLetter)
  }

  /** A run of `ok` characters cannot continue into `s`. */
  ghost predicate Stops(s: string, ok: char -> bool) {
    s != "" ==> !ok(s[0])
  }

  lemma SkipPast(p: string, rest: string)
    ensures Skip(p + rest, p) == Some(rest)
  {
  }

  lemma {:induction false} LeadStops(w: string, rest: string, ok: char -> bool)
    requires All(w, ok) && Stops(rest, ok)
    ensures Lead(w + rest, ok) == |w|
    ensures (w + rest)[..|w|] == w && (w + rest)[|w|..] == rest
  {
    if w == "" {
      assert w + rest == rest;
    } else {
      assert (w + rest)[1..] == w[1..] + rest;
      LeadStops(w[1..], rest, ok);
    }
  }

  lemma ParamReads(n: nat, rest: string)
    requires Stops(rest, IsDigit)
    ensures ReadParam(ParamText(n) + rest) == Got(n, rest)
  {
    DecimalReads(n);
    assert ParamText(n) + rest == "$" + (Decimal(n) + rest);
    SkipPast("$", Decimal(n) + rest);
    LeadStops(Decimal(n), rest, IsDigit);
  }

  lemma NameReads(name: string, rest: string)
    requires IsName(name) && Stops(rest, IsLetter)
    ensures ReadName(name + rest) == Got(name, rest)
  {
    LeadStops(name, rest, IsLetter);
  }

  lemma {:induction false} EncryptReads(plain: nat, key: nat, rest: string)
    ensures ReadEncrypt(ExprText(Encrypt(plain, key)) + rest) == Got(Encrypt(plain, key), rest)
  {
    var s4 := ")" + rest;
    var s3 := ParamText(key) + s4;
    var s2 := ", " + s3;
    var s1 := ParamText(plain) + s2;
    assert ExprText(Encrypt(plain, key)) + rest == "pgp_sym_encrypt(" + s1;
    SkipPast("pgp_sym_encrypt(", s1);
    ParamReads(plain, s2);
    SkipPast(", ", s3);
    ParamReads(key, s4);
    SkipPast(")", rest);
  }

  lemma NotThere(s: string, p: string, rest: string)
    requires s != "" && p != "" && s[0] != p[0]
    ensures Skip(s + rest, p) == None
  {
  }

  lemma ExprReads(e: Expr, rest: string)
    requires Stops(rest, IsDigit)
    ensures ReadExpr(ExprText(e) + rest) == Got(e, rest)
  {
    match e
    case Param(n) =>
      ParamReads(n, rest);
    case Now =>
      NotThere("now()", "$", rest);
      SkipPast("now()", rest);
    case Encrypt(plain, key) =>
      NotThere(ExprText(e), "$", rest);
      NotThere(ExprText(e), "now()", rest);
      EncryptReads(plain, key, rest);
  }

  lemma {:induction false} SetReads(a: Assignment, rest: string)
    requires IsName(a.column) && Stops(rest, IsDigit)
    ensures ReadSet(SetText(a) + rest) == Got(a, rest)
  {
    var s2 := ExprText(a.value) + rest;
    var s1 := " = " + s2;
    assert SetText(a) + rest == a.column + s1;
    NameReads(a.column, s1);
    SkipPast(" = ", s2);
    ExprReads(a.value, rest);
  }

  ghost predicate Named(sets: seq<Assignment>) {
    forall i :: 0 <= i < |sets| ==> IsName(sets[i].column)
  }

  lemma LastSetReads(a: Assignment, rest: string)
    requires IsName(a.column) && Stops(rest, IsDigit) && Skip(rest, ", ") == None
    ensures ReadSets(SetText(a) + rest) == Got([a], rest)
  {
    SetReads(a, rest);
  }

  lemma {:induction false} OneMoreSetReads(a: Assignment, text: string, sets: seq<Assignment>, rest: string)
    requires IsName(a.column) && ReadSets(text) == Got(sets, rest)
    ensures ReadSets(SetText(a) + (", " + text)) == Got([a] + sets, rest)
  {
    SetReads(a, ", " + text);
    SkipPast(", ", text);
  }

  lemma SetTextsMore(sets: seq<Assignment>, rest: string)
    requires |sets| > 1
    ensures
      Join(SetTexts(sets)) + rest == SetText(sets[0]) + (", " + (Join(SetTexts(sets[1..])) + rest))
  {
    assert SetTexts(sets)[1..] == SetTexts(sets[1..]);
  }

  lemma {:induction false} SetsRead(sets: seq<Assignment>, rest: string)
    requires sets != [] && Named(sets) && Stops(rest, IsDigit) && Skip(rest, ", ") == None
    ensures ReadSets(Join(SetTexts(sets)) + rest) == Got(sets, rest)
    decreases |sets|
  {
    if |sets| == 1 {
      LastSetReads(sets[0], rest);
      assert sets == [sets[0]];
    } else {
      var a, more := sets[0], sets[1..];
      assert sets == [a] + more;
      SetsRead(more, rest);
      OneMoreSetReads(a, Join(SetTexts(more)) + rest, more, rest);
      SetTextsMore(sets, rest);
    }
  }

  lemma {:induction false} WhereReads(key: string, n: nat, returning: bool)
    requires IsName(key)
    ensures
      ReadWhere(" WHERE " + (key + (" = " + (ParamText(n) + Tail(returning))))) == Some((key, n, returning))
  {
    var s3 := ParamText(n) + Tail(returning);
    var s2 := " = " + s3;
    SkipPast(" WHERE ", key + s2);
    NameReads(key, s2);
    SkipPast(" = ", s3);
    ParamReads(n, Tail(returning));
  }

  ghost predicate WellNamed(u: Update) {
    IsName(u.table) && IsName(u.key) && u.sets != [] && Named(u.sets)
  }

  /** The text of a statement, placeholders and all, is read back as that statement. */
  lemma {:induction false} TextReadsBack(u: Update)
    requires WellNamed(u)
    ensures ReadUpdate(UpdateText(u.table, SetTexts(u.sets), u.key, u.param, u.returning)) == Some(u)
  {
    var s4 := " WHERE " + (u.key + (" = " + (ParamText(u.param) + Tail(u.returning))));
    var s3 := Join(SetTexts(u.sets)) + s4;
    var s2 := " SET " + s3;
    SkipPast("UPDATE ", u.table + s2);
    NameReads(u.table, s2);
    SkipPast(" SET ", s3);
    assert s4[0] == ' ';
    SetsRead(u.sets, s4);
    WhereReads(u.key, u.param, u.returning);
  }

  /** The text itself, on the smallest cases. */
  lemma {:induction false} TextExample()
    ensures UpdateText("t", ["a"], "k", 1, false) == "UPDATE t SET a WHERE k = $1"
    ensures Join(["a", "b"]) == "a, b" && Tail(true) == " RETURNING *"
  {
    assert ["a", "b"][1..] == ["b"] && Join(["b"]) == "b";
    assert ParamText(1) == "$1";
  }
}
