/** Normalising a provider's cost-allocation tags into a clean string map. */
module Tags {
  import opened Wrappers

  /** A loosely typed tag value; a number carries its decimal text. */
  datatype TagValue = Text(s: string) | Number(text: string) | Boolean(b: bool) | Null | Structured

  datatype Entry = Entry(key: string, value: TagValue)

  /** The characters `trim` removes. */
  predicate IsSpace(c: char) {
    var n := c as int;
    0x9 <= n <= 0xD || n == 0x20 || n == 0xA0 || n == 0x1680 || 0x2000 <= n <= 0x200A ||
    n == 0x2028 || n == 0x2029 || n == 0x202F || n == 0x205F || n == 0x3000 || n == 0xFEFF
  }

  function TrimStart(s: string): string {
    if s != [] && IsSpace(s[0]) then TrimStart(s[1..]) else s
  }

  function TrimEnd(s: string): string {
    if s != [] && IsSpace(s[|s| - 1]) then TrimEnd(s[..|s| - 1]) else s
  }

  function Trim(s: string): string {
    TrimEnd(TrimStart(s))
  }

  predicate Trimmed(s: string) {
    s == [] || (!IsSpace(s[0]) && !IsSpace(s[|s| - 1]))
  }

  lemma {:induction false} TrimStartTrims(s: string)
    ensures TrimStart(s) == [] || !IsSpace(TrimStart(s)[0])
  {
    if s != [] && IsSpace(s[0]) {
      TrimStartTrims(s[1..]);
    }
  }

  lemma {:induction false} TrimEndTrims(s: string)
    requires s == [] || !IsSpace(s[0])
    ensures Trimmed(TrimEnd(s))
  {
    if s != [] && IsSpace(s[|s| - 1]) {
      TrimEndTrims(s[..|s| - 1]);
    }
  }

  lemma TrimTrims(s: string)
    ensures Trimmed(Trim(s))
  {
    TrimStartTrims(s);
    TrimEndTrims(TrimStart(s));
  }

  // ---------- Normalisation ----------

  /** `String(value)` of a scalar; nothing for null and structured values. */
  function Scalar(v: TagValue): Option<string> {
    match v
    case Text(s) => Some(s)
    case Number(text) => Some(text)
    case Boolean(b) => Some(if b then "true" else "false")
    case Null => None
    case Structured => None
  }

  /** Assigning a string to this key of a plain object stores nothing. */
  const PROTO := "__proto__"

  /** The entry survives: a storable, non-blank key with a non-blank scalar value. */
  predicate Kept(e: Entry) {
    Trim(e.key) != [] && Trim(e.key) != PROTO && Scalar(e.value).Some? && Trim(Scalar(e.value).value) != []
  }

  /** The value `key` ends up with: that of the last surviving entry for it. */
  function Final(es: seq<Entry>, key: string): Option<string> {
    if es == [] then None
    else
      var e := es[|es| - 1];
      if Kept(e) && Trim(e.key) == key then Some(Trim(Scalar(e.value).value)) else Final(es[..|es| - 1], key)
  }

  predicate Clean(m: map<string, string>) {
    forall k :: k in m ==> k != [] && k != PROTO && Trimmed(k) && m[k] != [] && Trimmed(m[k])
  }

  /** A map holds exactly the final value of every key. */
  ghost predicate Normalises(es: seq<Entry>, m: map<string, string>) {
    forall k :: (k in m <==> Final(es, k).Some?) && (k in m ==> Final(es, k) == Some(m[k]))
  }

  function Normal(es: seq<Entry>): map<string, string> {
    if es == [] then map[]
    else
      var e, before := es[|es| - 1], Normal(es[..|es| - 1]);
      if Kept(e) then before[Trim(e.key) := Trim(Scalar(e.value).value)] else before
  }

  /** The normal form holds exactly the last surviving value of every key, with no blank key or value. */
  lemma {:induction false} NormalMeans(es: seq<Entry>)
    ensures Normalises(es, Normal(es)) && Clean(Normal(es))
  {
    if es != [] {
      var e := es[|es| - 1];
      NormalMeans(es[..|es| - 1]);
      if Kept(e) {
        TrimTrims(e.key);
        TrimTrims(Scalar(e.value).value);
      }
    }
  }

  /** `normalizeAllocationTags`; an absent source gives an empty map. */
  method NormalizeAllocationTags(source: Option<seq<Entry>>) returns (out: map<string, string>)
    ensures out == Normal(if source.Some? then source.value else [])
  {
    out := map[];
    if source.None? {
      return;
    }
    var es := source.value;
    for i := 0 to |es|
      invariant out == Normal(es[..i])
    {
      assert es[..i + 1][..i] == es[..i];
      var key := Trim(es[i].key);
      if key != [] {
        var scalar := Scalar(es[i].value);
        if scalar.Some? {
          var value := Trim(scalar.value);
          if value != [] && key != PROTO {
            out := out[key := value];
          }
        }
      }
    }
    assert es[..|es|] == es;
  }

  function EntriesOf(m: map<string, string>, order: seq<string>): (es: seq<Entry>)
    requires forall i :: 0 <= i < |order| ==> order[i] in m
    ensures |es| == |order| && forall i :: 0 <= i < |order| ==> es[i] == Entry(order[i], Text(m[order[i]]))
  {
    seq(|order|, i requires 0 <= i < |order| => Entry(order[i], Text(m[order[i]])))
  }

  lemma {:induction false} FinalOfClean(m: map<string, string>, order: seq<string>, k: string)
    requires Clean(m) && forall i :: 0 <= i < |order| ==> order[i] in m
    ensures Final(EntriesOf(m, order), k) == if k in order then Some(m[k]) else None
  {
    if order != [] {
      var n := |order| - 1;
      FinalOfClean(m, order[..n], k);
      assert EntriesOf(m, order)[..n] == EntriesOf(m, order[..n]);
      assert order == order[..n] + [order[n]];
    }
  }

  /** Normalising a normalised map again, in whatever order its entries come, changes nothing. */
  lemma {:induction false} Idempotent(es: seq<Entry>, order: seq<string>)
    requires forall k :: k in order <==> k in Normal(es)
    ensures forall i :: 0 <= i < |order| ==> order[i] in Normal(es)
    ensures Normal(EntriesOf(Normal(es), order)) == Normal(es)
  {
    var m := Normal(es);
    NormalMeans(es);
    var again := EntriesOf(m, order);
    NormalMeans(again);
    forall k
      ensures k in Normal(again) <==> k in m
      ensures k in Normal(again) ==> Normal(again)[k] == m[k]
    {
      FinalOfClean(m, order, k);
    }
  }

  // ---------- The same, without the code's own steps ----------

  /** White space, by code point. */
  lemma SpacesAre(c: char)
    ensures
      IsSpace(c) <==>
      c as int in {
        0x9, 0xA, 0xB, 0xC, 0xD, 0x20, 0xA0, 0x1680, 0x2000, 0x2001, 0x2002, 0x2003, 0x2004, 0x2005, 0x2006, 0x2007,
        0x2008, 0x2009, 0x200A, 0x2028, 0x2029, 0x202F, 0x205F, 0x3000, 0xFEFF}
  {
  }

  ghost predicate Blank(s: string) {
    forall i :: 0 <= i < |s| ==> IsSpace(s[i])
  }

  lemma {:induction false} TrimStartCuts(s: string) returns (a: string)
    ensures Blank(a) && s == a + TrimStart(s)
  {
    if s != [] && IsSpace(s[0]) {
      a := TrimStartCuts(s[1..]);
      assert s == [s[0]] + s[1..];
      a := [s[0]] + a;
    } else {
      a := [];
    }
  }

  lemma {:induction false} TrimEndCuts(s: string) returns (b: string)
    ensures Blank(b) && s == TrimEnd(s) + b
  {
    if s != [] && IsSpace(s[|s| - 1]) {
      b := TrimEndCuts(s[..|s| - 1]);
      Unsnoc(s);
      b := b + [s[|s| - 1]];
    } else {
      b := [];
    }
  }

  /** Trimming cuts white space off both ends, all of it and nothing else. */
  lemma TrimExactly(s: string) returns (a: string, b: string)
    ensures Blank(a) && Blank(b) && s == a + Trim(s) + b && Trimmed(Trim(s))
  {
    a := TrimStartCuts(s);
    b := TrimEndCuts(TrimStart(s));
    assert s == a + (Trim(s) + b);
    TrimTrims(s);
  }

  /** The text a scalar value stands for. */
  predicate Reads(v: TagValue, text: string) {
    v == Text(text) || v == Number(text) || (v == Boolean(true) && text == "true") ||
    (v == Boolean(false) && text == "false")
  }

  /** The entry gives `key` the value `value`. */
  ghost predicate Gives(e: Entry, key: string, value: string) {
    Trim(e.key) == key && key != "" && key != "__proto__" && value != "" &&
    exists text: string :: Reads(e.value, text) && Trim(text) == value
  }

  ghost predicate GivesAny(e: Entry, key: string) {
    exists value: string :: Gives(e, key, value)
  }

  lemma GivesIff(e: Entry, key: string, value: string)
    ensures
      Gives(e, key, value) <==> Kept(e) && Trim(e.key) == key && Trim(Scalar(e.value).value) == value
  {
    if Scalar(e.value).Some? {
      assert Reads(e.value, Scalar(e.value).value);
    }
  }

  lemma GivesAnyIff(e: Entry, key: string)
    ensures GivesAny(e, key) <==> Kept(e) && Trim(e.key) == key
  {
    if value: string :| Gives(e, key, value) {
      GivesIff(e, key, value);
    }
    if Kept(e) && Trim(e.key) == key {
      GivesIff(e, key, Trim(Scalar(e.value).value));
    }
  }

  ghost predicate NoneAfter(es: seq<Entry>, key: string, i: int) {
    forall j :: i < j < |es| && 0 <= j ==> !GivesAny(es[j], key)
  }

  ghost predicate LastGives(es: seq<Entry>, key: string, value: string) {
    exists i :: 0 <= i < |es| && Gives(es[i], key, value) && NoneAfter(es, key, i)
  }

  lemma NoneAfterMore(es: seq<Entry>, key: string, i: int)
    requires es != [] && i < |es| - 1
    ensures NoneAfter(es, key, i) <==> NoneAfter(es[..|es| - 1], key, i) && !GivesAny(es[|es| - 1], key)
  {
    assert forall j :: 0 <= j < |es| - 1 ==> es[..|es| - 1][j] == es[j];
  }

  lemma LastGivesMore(es: seq<Entry>, key: string, value: string)
    requires es != []
    ensures
      var n := |es| - 1;
      LastGives(es, key, value) <==>
      Gives(es[n], key, value) || (!GivesAny(es[n], key) && LastGives(es[..n], key, value))
  {
    var n := |es| - 1;
    if LastGives(es, key, value) {
      var i :| 0 <= i < |es| && Gives(es[i], key, value) && NoneAfter(es, key, i);
      if i < n {
        NoneAfterMore(es, key, i);
        assert es[..n][i] == es[i];
      }
    }
    if Gives(es[n], key, value) {
      assert NoneAfter(es, key, n);
    }
    if !GivesAny(es[n], key) && LastGives(es[..n], key, value) {
      var i :| 0 <= i < n && Gives(es[..n][i], key, value) && NoneAfter(es[..n], key, i);
      NoneAfterMore(es, key, i);
      assert es[i] == es[..n][i];
    }
  }

  lemma {:induction false} FinalExactly(es: seq<Entry>, key: string, value: string)
    ensures Final(es, key) == Some(value) <==> LastGives(es, key, value)
  {
    if es != [] {
      var n := |es| - 1;
      FinalExactly(es[..n], key, value);
      LastGivesMore(es, key, value);
      GivesIff(es[n], key, value);
      GivesAnyIff(es[n], key);
    }
  }

  /**
    A key has a value in the normal form exactly when it is the trimmed text of
    the last entry that gives the key one: a string, a number or a boolean that
    is not blank, under a key that trims to it.
   */
  lemma {:induction false} NormalExactly(es: seq<Entry>, key: string, value: string)
    ensures key in Normal(es) && Normal(es)[key] == value <==> LastGives(es, key, value)
  {
    NormalMeans(es);
    FinalExactly(es, key, value);
  }
}
