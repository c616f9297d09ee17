/** Events as they go over the stream: the field list XADD stores and how it is read back. */
module Wire {
  import opened Wrappers

  type Id = string

  /** `payload` stands for the parsed JSON; for a request it is the notification id. */
  datatype Message = Message(id: Id, tenantId: Id, eventType: string, payload: string, createdAt: string)

  /** The field list XADD stores. */
  function XaddFields(m: Message): seq<string> {
    ["id", m.id, "tenantId", m.tenantId, "eventType", m.eventType, "payload", m.payload, "createdAt", m.createdAt]
  }

  /** The value a field list gives to `key`: that of its last occurrence. A last key without a value has none. */
  function Lookup(fields: seq<string>, key: string): Option<string> {
    if fields == [] then None
    else if |fields| % 2 == 1 then
      var n := |fields| - 1;
      if fields[n] == key then None else Lookup(fields[..n], key)
    else
      var n := |fields| - 2;
      if fields[n] == key then Some(fields[n + 1]) else Lookup(fields[..n], key)
  }

  /** A message as it is read: a missing field is undefined, except the payload, which has to parse. */
  datatype Parsed = Parsed(
    id: Option<Id>, tenantId: Option<Id>, eventType: Option<string>, payload: string, createdAt: Option<string>)

  function Parse(fields: seq<string>): Option<Parsed> {
    match Lookup(fields, "payload")
    case None => None
    case Some(payload) =>
      Some(Parsed(
        Lookup(fields, "id"), Lookup(fields, "tenantId"), Lookup(fields, "eventType"), payload,
        Lookup(fields, "createdAt")))
  }

  /** What one or two more fields say about a key. */
  function Said(more: seq<string>, before: Option<string>, key: string): Option<string>
    requires 1 <= |more| <= 2
  {
    if more[0] != key then before else if |more| == 2 then Some(more[1]) else None
  }

  lemma LookupMore(fields: seq<string>, more: seq<string>, key: string)
    requires |fields| % 2 == 0 && 1 <= |more| <= 2
    ensures Lookup(fields + more, key) == Said(more, Lookup(fields, key), key)
  {
    var all := fields + more;
    assert all[..|fields|] == fields && all[|fields|] == more[0];
    assert |more| == 2 ==> all[|fields| + 1] == more[1];
  }

  function Get(values: map<string, string>, key: string): Option<string> {
    if key in values then Some(values[key]) else None
  }

  /** `parseFields`: fill a map two entries at a time, then read the five keys; it throws without a payload. */
  method ParseFields(fields: seq<string>) returns (m: Option<Parsed>)
    ensures m == Parse(fields)
  {
    var values: map<string, string> := map[];
    ghost var read: seq<string> := [];
    var i := 0;
    while i < |fields|
      invariant 0 <= i <= |fields| + 1 && i % 2 == 0 && read == if i <= |fields| then fields[..i] else fields
      invariant forall key :: Get(values, key) == Lookup(read, key)
    {
      ghost var more := if i + 1 < |fields| then fields[i..i + 2] else fields[i..];
      forall key {
        LookupMore(read, more, key);
      }
      if i + 1 < |fields| {
        values := values[fields[i] := fields[i + 1]];
      } else {
        values := values - {fields[i]};
      }
      read := read + more;
      i := i + 2;
    }
    assert read == fields;
    var payload := Get(values, "payload");
    if payload.None? {
      return None;
    }
    m := Some(Parsed(
      Get(values, "id"), Get(values, "tenantId"), Get(values, "eventType"), payload.value, Get(values, "createdAt")));
  }

  function AsParsed(m: Message): Parsed {
    Parsed(Some(m.id), Some(m.tenantId), Some(m.eventType), m.payload, Some(m.createdAt))
  }

  /** Reading an entry back gives the message that was published. */
  lemma ParseInvertsXadd(m: Message)
    ensures Parse(XaddFields(m)) == Some(AsParsed(m))
  {
    var f := XaddFields(m);
    var f8, f6, f4, f2 := f[..8], f[..6], f[..4], f[..2];
    assert f8[..6] == f6 && f6[..4] == f4 && f4[..2] == f2 && f2[..0] == [];
    assert Lookup(f2, "id") == Some(m.id);
    assert Lookup(f4, "id") == Some(m.id) && Lookup(f4, "tenantId") == Some(m.tenantId);
    assert Lookup(f6, "id") == Some(m.id) && Lookup(f6, "tenantId") == Some(m.tenantId)
        && Lookup(f6, "eventType") == Some(m.eventType);
    assert Lookup(f8, "id") == Some(m.id) && Lookup(f8, "tenantId") == Some(m.tenantId)
        && Lookup(f8, "eventType") == Some(m.eventType) && Lookup(f8, "payload") == Some(m.payload);
  }
}
