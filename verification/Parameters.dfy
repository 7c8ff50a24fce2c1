/** What the canonical encoding promises its callers, in terms of the parameters themselves: which values it accepts, and
    which of them it takes for the same. */
module Parameters {
  import opened ByteStrings
  import opened Canonical

  type Parameters = Option<map<string, Value>>

  // ---------- The same parameters ----------

  /** Values that stand for the same parameter, by their dynamic types: flavours of lists and maps do not matter, nor do
      the widths of integers, but their signedness does. */
  ghost predicate Same(a: Value, b: Value) {
    match (a, b)
    case (Text(s), Text(t)) => s == t
    case (Truth(p), Truth(q)) => p == q
    case (Signed(_, m), Signed(_, n)) => m == n
    case (Unsigned(_, m), Unsigned(_, n)) => m == n
    case (List(x), List(y)) => |x| == |y| && forall i :: 0 <= i < |x| ==> Same(x[i], y[i])
    case (List(x), TextList(y)) => |x| == |y| && forall i :: 0 <= i < |x| ==> x[i] == Text(y[i])
    case (TextList(x), List(y)) => |x| == |y| && forall i :: 0 <= i < |x| ==> Text(x[i]) == y[i]
    case (TextList(x), TextList(y)) => x == y
    case (Table(x), Table(y)) => x.Keys == y.Keys && forall k :: k in x ==> Same(x[k], y[k])
    case (Table(x), TextTable(y)) => x.Keys == y.Keys && forall k :: k in x ==> x[k] == Text(y[k])
    case (TextTable(x), Table(y)) => x.Keys == y.Keys && forall k :: k in x ==> Text(x[k]) == y[k]
    case (TextTable(x), TextTable(y)) => x == y
    case _ => false
  }

  /** Nothing inside is nil, of an unsupported type, or a string or key that cannot be encoded. */
  ghost predicate Acceptable(v: Value) {
    match v
    case Text(s) => Encodable(s)
    case List(items) => forall i :: 0 <= i < |items| ==> Acceptable(items[i])
    case TextList(texts) => forall i :: 0 <= i < |texts| ==> Encodable(texts[i])
    case Table(m) => forall k :: k in m ==> Encodable(k) && Acceptable(m[k])
    case TextTable(m) => forall k :: k in m ==> Encodable(k) && Encodable(m[k])
    case Nil => false
    case Unsupported => false
    case _ => true
  }

  function Given(p: Parameters): map<string, Value> { if p.None? then map[] else p.value }

  ghost predicate SameParameters(p: Parameters, q: Parameters) { Same(Table(Given(p)), Table(Given(q))) }

  ghost predicate AcceptableParameters(p: Parameters) { Acceptable(Table(Given(p))) }

  lemma {:induction false} AcceptedExactly(v: Value)
    ensures Normal(v).Some? <==> Acceptable(v)
  {
    match v {
      case List(items) => forall i | 0 <= i < |items| ensures Normal(items[i]).Some? <==> Acceptable(items[i]) { AcceptedExactly(items[i]); }
      case Table(m) => forall k | k in m ensures Normal(m[k]).Some? <==> Acceptable(m[k]) { AcceptedExactly(m[k]); }
      case _ =>
    }
  }

  /** Two values with normal forms are the same exactly if the normal forms agree. */
  lemma {:induction false} SameExactly(a: Value, b: Value)
    requires Normal(a).Some? && Normal(b).Some?
    ensures Normal(a) == Normal(b) <==> Same(a, b)
    decreases a, b, 2
  {
    if IsList(a) && IsList(b) {
      SameLists(a, b);
    } else if IsTable(a) && IsTable(b) {
      SameTables(a, b);
    }
  }

  predicate IsList(v: Value) { v.List? || v.TextList? }

  predicate IsTable(v: Value) { v.Table? || v.TextTable? }

  function Count(v: Value): nat
    requires IsList(v)
  {
    if v.List? then |v.items| else |v.texts|
  }

  function Item(v: Value, i: nat): Value
    requires IsList(v) && i < Count(v)
  {
    if v.List? then v.items[i] else Text(v.texts[i])
  }

  function KeysOf(v: Value): set<string>
    requires IsTable(v)
  {
    if v.Table? then v.entries.Keys else v.textEntries.Keys
  }

  function Entry(v: Value, k: string): Value
    requires IsTable(v) && k in KeysOf(v)
  {
    if v.Table? then v.entries[k] else Text(v.textEntries[k])
  }

  lemma {:induction false} ItemNormal(v: Value, i: nat)
    requires IsList(v) && Normal(v).Some? && i < Count(v)
    ensures var c := Normal(v).value; c.CList? && |c.items| == Count(v) && Normal(Item(v, i)) == Some(c.items[i])
  {
  }

  lemma {:induction false} EntryNormal(v: Value, k: string)
    requires IsTable(v) && Normal(v).Some? && k in KeysOf(v)
    ensures var c := Normal(v).value; c.CTable? && c.entries.Keys == KeysOf(v) && Normal(Entry(v, k)) == Some(c.entries[k])
  {
  }

  lemma {:induction false} SameText(v: Value, t: string)
    requires Normal(v).Some? && Encodable(t)
    ensures Normal(v) == Normal(Text(t)) <==> v == Text(t)
  {
  }

  lemma {:induction false} SameItem(a: Value, b: Value, i: nat)
    requires IsList(a) && IsList(b) && Normal(a).Some? && Normal(b).Some? && i < Count(a) && i < Count(b)
    ensures Normal(Item(a, i)).Some? && Normal(Item(b, i)).Some? && (Normal(Item(a, i)) == Normal(Item(b, i)) <==> Same(Item(a, i), Item(b, i)))
    decreases a, b, 0
  {
    ItemNormal(a, i);
    ItemNormal(b, i);
    if a.List? && b.List? {
      SameExactly(a.items[i], b.items[i]);
    } else if b.TextList? {
      SameText(Item(a, i), b.texts[i]);
    } else {
      SameText(Item(b, i), a.texts[i]);
    }
  }

  lemma {:induction false} SameByItems(a: Value, b: Value)
    requires IsList(a) && IsList(b)
    ensures Same(a, b) <==> Count(a) == Count(b) && forall i :: 0 <= i < Count(a) ==> Same(Item(a, i), Item(b, i))
  {
    if Count(a) == Count(b) {
      var same := forall i :: 0 <= i < Count(a) ==> Same(Item(a, i), Item(b, i));
      match (a, b) {
        case (List(x), List(y)) =>
          assert same <==> forall i :: 0 <= i < |x| ==> Same(x[i], y[i]) by {
            if same { forall i | 0 <= i < |x| ensures Same(x[i], y[i]) { assert Same(Item(a, i), Item(b, i)); } }
          }
        case (List(x), TextList(y)) =>
          forall i | 0 <= i < |x| ensures Same(Item(a, i), Item(b, i)) <==> x[i] == Text(y[i]) {}
          if same { forall i | 0 <= i < |x| ensures x[i] == Text(y[i]) { assert Same(Item(a, i), Item(b, i)); } }
        case (TextList(x), List(y)) =>
          forall i | 0 <= i < |x| ensures Same(Item(a, i), Item(b, i)) <==> Text(x[i]) == y[i] {}
          if same { forall i | 0 <= i < |x| ensures Text(x[i]) == y[i] { assert Same(Item(a, i), Item(b, i)); } }
        case (TextList(x), TextList(y)) =>
          if same { forall i | 0 <= i < |x| ensures x[i] == y[i] { assert Same(Item(a, i), Item(b, i)); } }
      }
    }
  }

  lemma {:induction false} SameLists(a: Value, b: Value)
    requires IsList(a) && IsList(b) && Normal(a).Some? && Normal(b).Some?
    ensures Normal(a) == Normal(b) <==> Same(a, b)
    decreases a, b, 1
  {
    SameByItems(a, b);
    var c, d := Normal(a).value, Normal(b).value;
    assert c.CList? && d.CList? && |c.items| == Count(a) && |d.items| == Count(b);
    hide Same, Normal;
    if Count(a) == Count(b) {
      forall i | 0 <= i < Count(a) ensures c.items[i] == d.items[i] <==> Same(Item(a, i), Item(b, i)) {
        ItemNormal(a, i);
        ItemNormal(b, i);
        SameItem(a, b, i);
      }
      if Same(a, b) { assert c.items == d.items; }
    }
  }

  lemma {:induction false} SameEntry(a: Value, b: Value, k: string)
    requires IsTable(a) && IsTable(b) && Normal(a).Some? && Normal(b).Some? && k in KeysOf(a) && k in KeysOf(b)
    ensures Normal(Entry(a, k)).Some? && Normal(Entry(b, k)).Some? && (Normal(Entry(a, k)) == Normal(Entry(b, k)) <==> Same(Entry(a, k), Entry(b, k)))
    decreases a, b, 0
  {
    EntryNormal(a, k);
    EntryNormal(b, k);
    if a.Table? && b.Table? {
      SameExactly(a.entries[k], b.entries[k]);
    } else if b.TextTable? {
      SameText(Entry(a, k), b.textEntries[k]);
    } else {
      SameText(Entry(b, k), a.textEntries[k]);
    }
  }

  lemma {:induction false} SameByEntries(a: Value, b: Value)
    requires IsTable(a) && IsTable(b)
    ensures Same(a, b) <==> KeysOf(a) == KeysOf(b) && forall k :: k in KeysOf(a) ==> Same(Entry(a, k), Entry(b, k))
  {
    if KeysOf(a) == KeysOf(b) {
      if a.TextTable? && b.TextTable? && forall k :: k in KeysOf(a) ==> Same(Entry(a, k), Entry(b, k)) {
        forall k | k in a.textEntries ensures a.textEntries[k] == b.textEntries[k] { assert Same(Entry(a, k), Entry(b, k)); }
      } else if a.Table? && b.TextTable? {
        assert forall k :: k in KeysOf(a) ==> (Same(Entry(a, k), Entry(b, k)) <==> a.entries[k] == Text(b.textEntries[k]));
      } else if a.TextTable? && b.Table? {
        assert forall k :: k in KeysOf(a) ==> (Same(Entry(a, k), Entry(b, k)) <==> Text(a.textEntries[k]) == b.entries[k]);
      }
    }
  }

  lemma {:induction false} TableNormal(v: Value)
    requires IsTable(v) && Normal(v).Some?
    ensures Normal(v).value.CTable? && Normal(v).value.entries.Keys == KeysOf(v)
  {
  }

  lemma MapsAgree(m: map<string, Canon>, n: map<string, Canon>)
    ensures m == n <==> m.Keys == n.Keys && forall k :: k in m.Keys ==> k in n.Keys && m[k] == n[k]
  {
    if m.Keys == n.Keys && forall k :: k in m.Keys ==> k in n.Keys && m[k] == n[k] { assert m == n; }
  }

  lemma {:induction false} SameTables(a: Value, b: Value)
    requires IsTable(a) && IsTable(b) && Normal(a).Some? && Normal(b).Some?
    ensures Normal(a) == Normal(b) <==> Same(a, b)
    decreases a, b, 1
  {
    SameByEntries(a, b);
    TableNormal(a);
    TableNormal(b);
    var m, n := Normal(a).value.entries, Normal(b).value.entries;
    hide Same, Normal;
    forall k | k in KeysOf(a) && k in KeysOf(b) ensures m[k] == n[k] <==> Same(Entry(a, k), Entry(b, k)) {
      EntryNormal(a, k);
      EntryNormal(b, k);
      SameEntry(a, b, k);
    }
    hide Entry, KeysOf, IsTable;
    MapsAgree(m, n);
  }

  // ---------- Equal bytes ----------

  lemma GivenNormal(p: Parameters)
    ensures NormalParameters(p) == Normal(Table(Given(p)))
  {
    if p.None? { assert Normal(Table(map[])).Some? && Normal(Table(map[])).value.entries.Keys == {}; }
  }

  lemma AcceptedParameters(p: Parameters)
    ensures NormalParameters(p).Some? <==> AcceptableParameters(p)
  {
    GivenNormal(p);
    AcceptedExactly(Table(Given(p)));
  }

  lemma SameNormal(p: Parameters, q: Parameters)
    requires NormalParameters(p).Some? && NormalParameters(q).Some?
    ensures NormalParameters(p) == NormalParameters(q) <==> SameParameters(p, q)
  {
    GivenNormal(p);
    GivenNormal(q);
    SameExactly(Table(Given(p)), Table(Given(q)));
  }

  /** Accepted parameter maps have equal bytes exactly if they are the same parameters. */
  lemma EqualBytesIffSameParameters(p: Parameters, q: Parameters)
    requires AcceptableParameters(p) && AcceptableParameters(q)
    ensures NormalParameters(p).Some? && NormalParameters(q).Some?
    ensures Encoding(NormalParameters(p).value) == Encoding(NormalParameters(q).value) <==> SameParameters(p, q)
  {
    AcceptedParameters(p);
    AcceptedParameters(q);
    EqualBytesIffEqualParameters(p, q);
    SameNormal(p, q);
  }

  // ---------- The bytes themselves ----------

  lemma OneKey(k: string)
    ensures SortedKeys({k}) == [k]
  {
    assert Elements([k]) == {k};
    AscendingUnique(SortedKeys({k}), [k]);
  }

  lemma {:induction false} OneEntry(k: string, c: Canon)
    ensures Encoding(CTable(map[k := c])) == "M" + Decimal(1) + ":{" + (EncodeText(k) + Encoding(c)) + "}"
  {
    OneKey(k);
    var t := CTable(map[k := c]);
    assert t.entries.Keys == {k};
    assert EncodeEntries(t, [k][1..]) == "";
  }

  lemma {:induction false} OneDigit(n: nat)
    requires n < 10
    ensures Decimal(n) == [('0' as int + n) as char]
  {
  }

  /** The tags, sizes and brackets of every kind of value. */
  lemma ScalarBytes()
    ensures Encoding(CText("ab:")) == "S3:ab:"
    ensures Encoding(CTruth(true)) == "B:true" && Encoding(CTruth(false)) == "B:false"
    ensures Encoding(CSigned(-7)) == "I:-7" && Encoding(CUnsigned(7)) == "U:7"
  {
    OneDigit(3);
    OneDigit(7);
    hide Decimal;
  }

  lemma NoItemBytes()
    ensures Encoding(CList([])) == "L0:[]"
  {
    OneDigit(0);
    hide Decimal;
    assert "L" + "0" + ":[" + "" + "]" == "L0:[]";
  }

  lemma {:induction false} ListBytes(first: Canon, second: Canon)
    ensures Encoding(CList([first, second])) == "L2:[" + (Encoding(first) + Encoding(second)) + "]"
  {
    var c := CList([first, second]);
    var body := EncodeItems(c, 0);
    OneDigit(2);
    assert Encoding(c) == "L" + "2" + ":[" + body + "]" by { hide Decimal, EncodeItems; }
    TwoItems(c, first, second);
    hide *;
    assert "L" + "2" + ":[" == "L2:[";
  }

  lemma {:induction false} TwoItems(c: Canon, first: Canon, second: Canon)
    requires c == CList([first, second])
    ensures EncodeItems(c, 0) == Encoding(first) + Encoding(second)
  {
    hide Encoding;
    assert EncodeItems(c, 2) == "";
    assert EncodeItems(c, 1) == Encoding(second) + "";
  }

  lemma TableBytes()
    ensures Encoding(CTable(map["force" := CTruth(false)])) == "M1:{S5:forceB:false}"
  {
    OneEntry("force", CTruth(false));
    OneDigit(1);
    OneDigit(5);
    assert EncodeText("force") == "S" + "5" + ":" + "force";
    assert Encoding(CTruth(false)) == "B:false";
    hide *;
    assert "S" + "5" + ":" + "force" == "S5:force";
    assert "M" + "1" + ":{" + ("S5:force" + "B:false") + "}" == "M1:{S5:forceB:false}";
  }
}
