/** The encoder as the program runs it: every method appends to one shared buffer, map keys
    are collected in whatever order the map yields them and then sorted. Each method is
    proved to append exactly the encoding of the normal form, or to fail exactly when there
    is none. */
module CanonicalEncoder {
  import opened ByteStrings
  import opened Canonical
  import opened Parameters

  class Buffer {
    var data: string

    constructor ()
      ensures data == ""
    {
      data := "";
    }

    method WriteString(s: string)
      modifies this
      ensures data == old(data) + s
    {
      data := data + s;
    }
  }

  method EncodeString(buf: Buffer, v: string) returns (ok: bool)
    modifies buf
    ensures ok <==> Encodable(v)
    ensures buf.data == if ok then old(buf.data) + EncodeText(v) else old(buf.data)
  {
    if !ValidUtf8(v) { return false; }
    if '\0' in v { return false; }
    buf.WriteString("S");
    buf.WriteString(Decimal(|v|));
    buf.WriteString(":");
    buf.WriteString(v);
    return true;
  }

  method EncodeBool(buf: Buffer, v: bool)
    modifies buf
    ensures buf.data == old(buf.data) + Encoding(CTruth(v))
  {
    if v {
      buf.WriteString("B:true");
    } else {
      buf.WriteString("B:false");
    }
  }

  method EncodeSignedInt(buf: Buffer, v: Int64)
    modifies buf
    ensures buf.data == old(buf.data) + Encoding(CSigned(v))
  {
    buf.WriteString("I:");
    buf.WriteString(SignedDecimal(v));
  }

  method EncodeUnsignedInt(buf: Buffer, v: Uint64)
    modifies buf
    ensures buf.data == old(buf.data) + Encoding(CUnsigned(v))
  {
    buf.WriteString("U:");
    buf.WriteString(Decimal(v as int));
  }

  method EncodeStringSlice(buf: Buffer, v: seq<string>) returns (ok: bool)
    modifies buf
    ensures ok <==> AllEncodable(v)
    ensures ok ==> buf.data == old(buf.data) + Encoding(TextListCanon(v))
  {
    hide Encoding, EncodeItems, EncodeText, Encodable, TextListCanon, Decimal;
    ghost var c := TextListCanon(v);
    buf.WriteString("L");
    buf.WriteString(Decimal(|v|));
    buf.WriteString(":[");
    ghost var head := buf.data;
    TextListShape(v);
    for i := 0 to |v|
      invariant forall j :: 0 <= j < i ==> Encodable(v[j])
      invariant buf.data + EncodeItems(c, i) == head + EncodeItems(c, 0)
    {
      ghost var before := buf.data;
      ok := EncodeString(buf, v[i]);
      if !ok { return false; }
      ItemAppended(c, i, before, buf.data);
    }
    buf.WriteString("]");
    ListClosed(c, old(buf.data), buf.data);
    return true;
  }

  lemma {:induction false} TextListShape(v: seq<string>)
    ensures var c := TextListCanon(v);
            && c.CList? && |c.items| == |v|
            && (forall i :: 0 <= i < |v| ==> Encoding(c.items[i]) == EncodeText(v[i]))
            && forall before: string :: before + EncodeItems(c, |v|) == before
  {
  }

  method EncodeSlice(buf: Buffer, v: Value) returns (ok: bool)
    requires v.List?
    modifies buf
    ensures ok <==> Normal(v).Some?
    ensures ok ==> buf.data == old(buf.data) + Encoding(Normal(v).value)
    decreases 1, v, 0
  {
    ghost var head := old(buf.data) + "L" + Decimal(|v.items|) + ":[";
    buf.WriteString("L");
    buf.WriteString(Decimal(|v.items|));
    buf.WriteString(":[");
    for i := 0 to |v.items|
      invariant forall j :: 0 <= j < i ==> Normal(v.items[j]).Some?
      invariant Normal(v).Some? ==>
          buf.data + EncodeItems(Normal(v).value, i) == head + EncodeItems(Normal(v).value, 0)
    {
      ghost var before := buf.data;
      ok := EncodeCanonicalValue(buf, v.items[i]);
      if !ok { return false; }
      if Normal(v).Some? {
        ghost var c := Normal(v).value;
        ItemAppended(c, i, before, buf.data);
      }
    }
    buf.WriteString("]");
    ListClosed(Normal(v).value, old(buf.data), buf.data);
    return true;
  }

  lemma ItemAppended(c: Canon, i: nat, before: string, after: string)
    requires c.CList? && i < |c.items| && after == before + Encoding(c.items[i])
    ensures after + EncodeItems(c, i + 1) == before + EncodeItems(c, i)
  {
    hide Encoding;
    assert EncodeItems(c, i) == Encoding(c.items[i]) + EncodeItems(c, i + 1);
  }

  lemma {:induction false} ListClosed(c: Canon, before: string, after: string)
    requires c.CList?
    requires after == before + "L" + Decimal(|c.items|) + ":[" + EncodeItems(c, 0) + "]"
    ensures after == before + Encoding(c)
  {
  }

  lemma {:induction false} EntryAppended(c: Canon, keys: seq<string>, i: nat, before: string, after: string)
    requires c.CTable? && (forall k :: k in keys ==> k in c.entries) && i < |keys|
    requires after == before + EncodeText(keys[i]) + Encoding(c.entries[keys[i]])
    ensures after + EncodeEntries(c, keys[i + 1..]) == before + EncodeEntries(c, keys[i..])
  {
    hide Encoding, EncodeText;
    var rest := keys[i..];
    assert rest[1..] == keys[i + 1..];
    assert EncodeEntries(c, rest) == EncodeText(rest[0]) + Encoding(c.entries[rest[0]]) + EncodeEntries(c, rest[1..]);
  }

  lemma {:induction false} TableClosed(c: Canon, keys: seq<string>, before: string, after: string)
    requires c.CTable? && keys == SortedKeys(c.entries.Keys) && forall k :: k in keys ==> k in c.entries
    requires after == before + "M" + Decimal(|keys|) + ":{" + EncodeEntries(c, keys) + "}"
    ensures after == before + Encoding(c)
  {
  }

  /** The first half of `encodeMap`: every key is checked, in the order the map yields them. */
  method CollectKeys(m: map<string, Value>) returns (ok: bool, keys: seq<string>)
    ensures ok <==> forall k :: k in m ==> Encodable(k)
    ensures ok ==> Elements(keys) == m.Keys && forall i, j :: 0 <= i < j < |keys| ==> keys[i] != keys[j]
  {
    keys := [];
    var unvisited := m.Keys;
    while unvisited != {}
      invariant unvisited <= m.Keys
      invariant Elements(keys) == m.Keys - unvisited
      invariant forall i, j :: 0 <= i < j < |keys| ==> keys[i] != keys[j]
      invariant forall k :: k in keys ==> Encodable(k)
    {
      var k :| k in unvisited;
      if !ValidUtf8(k) || '\0' in k { return false, []; }
      assert forall i :: 0 <= i < |keys| ==> keys[i] in Elements(keys);
      assert Elements(keys + [k]) == Elements(keys) + {k};
      keys := keys + [k];
      unvisited := unvisited - {k};
    }
    assert forall k :: k in m ==> k in Elements(keys);
    return true, keys;
  }

  /** What the entry loop needs of a table's normal form, without unfolding it. */
  ghost predicate EntryNormals(m: map<string, Value>, c: Option<Canon>) {
    if c.None? then exists k :: k in m && !(Encodable(k) && Normal(m[k]).Some?)
    else
      && c.value.CTable? && c.value.entries.Keys == m.Keys
      && forall k :: k in m ==> Encodable(k) && Normal(m[k]) == Some(c.value.entries[k])
  }

  lemma TableNormals(m: map<string, Value>)
    ensures EntryNormals(m, Normal(Table(m)))
  {
  }

  /** `encodeMap`. `outer` is the value whose encoding this is part of. */
  method EncodeMap(buf: Buffer, m: map<string, Value>, ghost outer: Value) returns (ok: bool)
    requires forall k :: k in m ==> m[k].Text? || (outer decreases to m[k])
    modifies buf
    ensures ok <==> Normal(Table(m)).Some?
    ensures ok ==> buf.data == old(buf.data) + Encoding(Normal(Table(m)).value)
    decreases 1, outer, 2
  {
    var keys;
    ok, keys := CollectKeys(m);
    if !ok { return false; }
    TableNormals(m);
    var sorted := SortStrings(keys);
    assert forall k :: k in sorted <==> k in Elements(sorted);
    buf.WriteString("M");
    buf.WriteString(Decimal(|sorted|));
    buf.WriteString(":{");
    ok := EncodeEntryLoop(buf, m, sorted, outer, Normal(Table(m)));
    if !ok { return false; }
    buf.WriteString("}");
    TableClosed(Normal(Table(m)).value, sorted, old(buf.data), buf.data);
  }

  /** The loop of `encodeMap` over the sorted keys. */
  method EncodeEntryLoop(buf: Buffer, m: map<string, Value>, keys: seq<string>, ghost outer: Value,
                         ghost c: Option<Canon>)
    returns (ok: bool)
    requires forall k :: k in m ==> m[k].Text? || (outer decreases to m[k])
    requires EntryNormals(m, c) && forall k :: k in keys <==> k in m
    modifies buf
    ensures ok <==> c.Some?
    ensures ok ==> buf.data == old(buf.data) + EncodeEntries(c.value, keys)
    decreases 1, outer, 1
  {
    assert keys[0..] == keys;
    for i := 0 to |keys|
      invariant forall j :: 0 <= j < i ==> Encodable(keys[j]) && Normal(m[keys[j]]).Some?
      invariant c.Some? ==>
          buf.data + EncodeEntries(c.value, keys[i..]) == old(buf.data) + EncodeEntries(c.value, keys)
    {
      ghost var before := buf.data;
      ok := EncodeEntry(buf, keys[i], m[keys[i]], outer);
      if !ok { return false; }
      if c.Some? {
        EntryAppended(c.value, keys, i, before, buf.data);
      }
    }
    assert buf.data + "" == buf.data;
    return true;
  }

  /** One turn of that loop: the key, then its value. */
  method EncodeEntry(buf: Buffer, k: string, v: Value, ghost outer: Value) returns (ok: bool)
    requires v.Text? || (outer decreases to v)
    modifies buf
    ensures ok <==> Encodable(k) && Normal(v).Some?
    ensures ok ==> buf.data == old(buf.data) + EncodeText(k) + Encoding(Normal(v).value)
    decreases 1, outer, 0
  {
    ok := EncodeString(buf, k);
    if !ok { return false; }
    ok := EncodeCanonicalValue(buf, v);
  }

  method EncodeStringMap(buf: Buffer, v: Value) returns (ok: bool)
    requires v.TextTable?
    modifies buf
    ensures ok <==> Normal(v).Some?
    ensures ok ==> buf.data == old(buf.data) + Encoding(Normal(v).value)
    decreases 1, v, 3
  {
    var m := v.textEntries;
    var converted: map<string, Value> := map k | k in m :: Text(m[k]);
    TextTableConverts(m, converted);
    ok := EncodeMap(buf, converted, v);
  }

  lemma TextTableConverts(m: map<string, string>, converted: map<string, Value>)
    requires converted == map k | k in m :: Text(m[k])
    ensures Normal(Table(converted)) == Normal(TextTable(m))
  {
    if Normal(Table(converted)).Some? {
      assert forall k :: k in m ==> converted[k] == Text(m[k]) && Normal(converted[k]).Some?;
      assert Normal(Table(converted)).value.entries == Normal(TextTable(m)).value.entries;
    } else {
      var k :| k in converted && !(Encodable(k) && Normal(converted[k]).Some?);
    }
  }

  method EncodeCanonicalValue(buf: Buffer, v: Value) returns (ok: bool)
    modifies buf
    ensures ok <==> Normal(v).Some?
    ensures ok <==> Acceptable(v)
    ensures ok ==> buf.data == old(buf.data) + Encoding(Normal(v).value)
    decreases if v.Text? then 0 else 1, v, 4
  {
    AcceptedExactly(v);
    match v
    case Nil => return false;
    case Text(s) => ok := EncodeString(buf, s);
    case Truth(b) => EncodeBool(buf, b); return true;
    case Signed(_, n) => EncodeSignedInt(buf, n); return true;
    case Unsigned(_, n) => EncodeUnsignedInt(buf, n); return true;
    case List(_) => ok := EncodeSlice(buf, v);
    case TextList(texts) => ok := EncodeStringSlice(buf, texts);
    case Table(m) => ok := EncodeMap(buf, m, v);
    case TextTable(_) => ok := EncodeStringMap(buf, v);
    case Unsupported => return false;
  }

  /** `CanonicalizeParameters`: a fresh buffer, and nothing at all on failure. */
  method CanonicalizeParameters(params: Option<map<string, Value>>) returns (r: Option<string>)
    ensures r.Some? <==> AcceptableParameters(params)
    ensures r == if NormalParameters(params).Some?
                 then Some(Encoding(NormalParameters(params).value)) else None
  {
    AcceptedParameters(params);
    if params.None? {
      EmptyTable();
      return Some("M0:{}");
    }
    var buf := new Buffer();
    var ok := EncodeMap(buf, params.value, Table(params.value));
    if !ok { return None; }
    ghost var encoding := Encoding(NormalParameters(params).value);
    assert "" + encoding == encoding;
    return Some(buf.data);
  }

  lemma EmptyTable()
    ensures Encoding(CTable(map[])) == "M0:{}"
  {
    assert SortedKeys({}) == [];
    assert Decimal(0) == "0";
  }
}
