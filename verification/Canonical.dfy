/** The canonical parameter encoding: dynamic values, the normal form that decides when two
    of them are the same parameter, the encoding of a normal form, and a decoder that shows
    the encoding can be read back in exactly one way. */
module Canonical {
  import opened ByteStrings

  datatype Option<+T> = None | Some(value: T)

  // ---------- Values and normal forms ----------

  newtype Int64 = n: int | -0x8000_0000_0000_0000 <= n < 0x8000_0000_0000_0000
  newtype Uint64 = n: int | 0 <= n < 0x1_0000_0000_0000_0000

  datatype Width = Native | W8 | W16 | W32 | W64

  /** A value of type `any`, by its dynamic type. */
  datatype Value =
    | Nil
    | Text(text: string)
    | Truth(truth: bool)
    | Signed(signedWidth: Width, signed: Int64)
    | Unsigned(unsignedWidth: Width, unsigned: Uint64)
    | List(items: seq<Value>)
    | TextList(texts: seq<string>)
    | Table(entries: map<string, Value>)
    | TextTable(textEntries: map<string, string>)
    | Unsupported

  datatype Canon =
    | CText(text: string)
    | CTruth(truth: bool)
    | CSigned(signed: Int64)
    | CUnsigned(unsigned: Uint64)
    | CList(items: seq<Canon>)
    | CTable(entries: map<string, Canon>)

  predicate Continuation(c: char) { '\U{80}' <= c <= '\U{BF}' }

  /** `utf8.ValidString`: shortest forms only, no surrogates, nothing above U+10FFFF. */
  predicate ValidUtf8(s: string) {
    if s == [] then true
    else if s[0] <= '\U{7F}' then ValidUtf8(s[1..])
    else if '\U{C2}' <= s[0] <= '\U{DF}' then
      |s| >= 2 && Continuation(s[1]) && ValidUtf8(s[2..])
    else if '\U{E0}' <= s[0] <= '\U{EF}' then
      && |s| >= 3 && Continuation(s[1]) && Continuation(s[2])
      && (s[0] == '\U{E0}' ==> s[1] >= '\U{A0}') && (s[0] == '\U{ED}' ==> s[1] <= '\U{9F}')
      && ValidUtf8(s[3..])
    else if '\U{F0}' <= s[0] <= '\U{F4}' then
      && |s| >= 4 && Continuation(s[1]) && Continuation(s[2]) && Continuation(s[3])
      && (s[0] == '\U{F0}' ==> s[1] >= '\U{90}') && (s[0] == '\U{F4}' ==> s[1] <= '\U{8F}')
      && ValidUtf8(s[4..])
    else false
  }

  predicate Encodable(s: string) {
    ValidUtf8(s) && '\0' !in s
  }

  ghost predicate AllEncodable(texts: seq<string>) {
    forall i :: 0 <= i < |texts| ==> Encodable(texts[i])
  }

  /** The normal form: list and table flavours and integer widths are merged, signed and
      unsigned stay apart. A value with a nil, an unsupported type or an unencodable string
      anywhere inside has none. */
  ghost function Normal(v: Value): Option<Canon> {
    match v
    case Text(s) => if Encodable(s) then Some(CText(s)) else None
    case Truth(b) => Some(CTruth(b))
    case Signed(_, n) => Some(CSigned(n))
    case Unsigned(_, n) => Some(CUnsigned(n))
    case List(items) =>
      if forall i :: 0 <= i < |items| ==> Normal(items[i]).Some?
      then Some(CList(seq(|items|, i requires 0 <= i < |items| => Normal(items[i]).value)))
      else None
    case TextList(texts) => if AllEncodable(texts) then Some(TextListCanon(texts)) else None
    case Table(m) =>
      if forall k :: k in m ==> Encodable(k) && Normal(m[k]).Some?
      then Some(CTable(map k | k in m :: Normal(m[k]).value))
      else None
    case TextTable(m) =>
      if forall k :: k in m ==> Encodable(k) && Encodable(m[k])
      then Some(CTable(map k | k in m :: CText(m[k])))
      else None
    case _ => None
  }

  ghost function TextListCanon(texts: seq<string>): Canon {
    CList(seq(|texts|, i requires 0 <= i < |texts| => CText(texts[i])))
  }

  /** The normal form of a parameter map, which may be nil. */
  ghost function NormalParameters(params: Option<map<string, Value>>): Option<Canon> {
    if params.None? then Some(CTable(map[])) else Normal(Table(params.value))
  }

  // ---------- Encoding ----------

  function SignedDecimal(n: Int64): string {
    if n < 0 then "-" + Decimal(-(n as int)) else Decimal(n as int)
  }

  function EncodeText(s: string): string {
    "S" + Decimal(|s|) + ":" + s
  }

  ghost function Encoding(c: Canon): (s: string)
    ensures s != []
    decreases c, 1, 0
  {
    match c
    case CText(s) => EncodeText(s)
    case CTruth(b) => if b then "B:true" else "B:false"
    case CSigned(n) => "I:" + SignedDecimal(n)
    case CUnsigned(n) => "U:" + Decimal(n as int)
    case CList(items) => "L" + Decimal(|items|) + ":[" + EncodeItems(c, 0) + "]"
    case CTable(m) =>
      "M" + Decimal(|m|) + ":{" + EncodeEntries(c, SortedKeys(m.Keys)) + "}"
  }

  ghost function EncodeItems(c: Canon, from: nat): string
    requires c.CList? && from <= |c.items|
    decreases c, 0, |c.items| - from
  {
    if from == |c.items| then "" else Encoding(c.items[from]) + EncodeItems(c, from + 1)
  }

  ghost function EncodeEntries(c: Canon, keys: seq<string>): string
    requires c.CTable? && forall k :: k in keys ==> k in c.entries
    decreases c, 0, |keys|
  {
    if keys == [] then ""
    else EncodeText(keys[0]) + Encoding(c.entries[keys[0]]) + EncodeEntries(c, keys[1..])
  }

  // ---------- Decoding ----------

  /** A numeral, the given separator, and what follows it. */
  function ReadSize(s: string, separator: string): (r: Option<(nat, string)>)
    ensures r.Some? ==> |r.value.1| + |separator| <= |s|
  {
    var (n, rest) := ReadDigits(0, s);
    if StartsWithDigit(s) && separator <= rest then Some((n, rest[|separator|..])) else None
  }

  function DecodeText(s: string): (r: Option<(string, string)>)
    ensures r.Some? ==> |r.value.1| < |s|
  {
    if s == [] || s[0] != 'S' then None
    else
      var size := ReadSize(s[1..], ":");
      if size.None? then None
      else
        var (n, rest) := size.value;
        if |rest| < n then None else Some((rest[..n], rest[n..]))
  }

  function DecodeNumber(s: string): (r: Option<(int, string)>)
    ensures r.Some? ==> |r.value.1| <= |s|
  {
    if s != [] && s[0] == '-' then
      var (n, rest) := ReadDigits(0, s[1..]);
      var negative: int := 0 - n;
      Some((negative, rest))
    else
      var (n, rest) := ReadDigits(0, s);
      Some((n, rest))
  }

  function DecodeScalar(s: string): (r: Option<(Canon, string)>)
    ensures r.Some? ==> |r.value.1| < |s|
  {
    if s == [] then None
    else if s[0] == 'S' then
      var text := DecodeText(s);
      if text.None? then None else Some((CText(text.value.0), text.value.1))
    else if s[0] == 'B' then
      if "B:true" <= s then Some((CTruth(true), s[6..]))
      else if "B:false" <= s then Some((CTruth(false), s[7..]))
      else None
    else if s[0] == 'I' then
      if !("I:" <= s) then None
      else
      var number := DecodeNumber(s[2..]).value;
      if -0x8000_0000_0000_0000 <= number.0 < 0x8000_0000_0000_0000
      then Some((CSigned(number.0 as Int64), number.1)) else None
    else if s[0] == 'U' then
      if !("U:" <= s) then None
      else
      var (n, rest) := ReadDigits(0, s[2..]);
      if n < 0x1_0000_0000_0000_0000 then Some((CUnsigned(n as Uint64), rest)) else None
    else None
  }

  function Decode(s: string): (r: Option<(Canon, string)>)
    ensures r.Some? ==> |r.value.1| < |s|
    decreases |s|, 0, 0
  {
    if s == [] then None
    else if s[0] == 'L' then
      var size := ReadSize(s[1..], ":[");
      if size.None? then None
      else
        var items := DecodeItems(size.value.0, size.value.1);
        if items.Some? && "]" <= items.value.1
        then Some((CList(items.value.0), items.value.1[1..])) else None
    else if s[0] == 'M' then
      var size := ReadSize(s[1..], ":{");
      if size.None? then None
      else
        var entries := DecodeEntries(size.value.0, size.value.1);
        if entries.Some? && "}" <= entries.value.1
        then Some((CTable(entries.value.0), entries.value.1[1..])) else None
    else DecodeScalar(s)
  }

  function DecodeItems(n: nat, s: string): (r: Option<(seq<Canon>, string)>)
    ensures r.Some? ==> |r.value.1| <= |s|
    decreases |s|, 1, n
  {
    if n == 0 then Some(([], s))
    else
      var item := Decode(s);
      if item.None? then None
      else
        var rest := DecodeItems(n - 1, item.value.1);
        if rest.None? then None else Some(([item.value.0] + rest.value.0, rest.value.1))
  }

  function DecodeEntries(n: nat, s: string): (r: Option<(map<string, Canon>, string)>)
    ensures r.Some? ==> |r.value.1| <= |s|
    decreases |s|, 1, n
  {
    if n == 0 then Some((map[], s))
    else
      var key := DecodeText(s);
      if key.None? then None
      else
        var item := Decode(key.value.1);
        if item.None? then None
        else
          var rest := DecodeEntries(n - 1, item.value.1);
          if rest.None? then None
          else Some((map[key.value.0 := item.value.0] + rest.value.0, rest.value.1))
  }

  // ---------- Unique decodability ----------

  lemma {:induction false} ReadSizeRoundTrip(n: nat, separator: string, rest: string)
    requires separator != [] && !IsDigit(separator[0])
    ensures ReadSize(Decimal(n) + separator + rest, separator) == Some((n, rest))
  {
    assert Decimal(n) + separator + rest == Decimal(n) + (separator + rest);
    DecimalRoundTrip(n, separator + rest);
    assert (separator + rest)[|separator|..] == rest;
  }

  lemma DecodeTextRoundTrip(s: string, rest: string)
    ensures DecodeText(EncodeText(s) + rest) == Some((s, rest))
  {
    var whole := EncodeText(s) + rest;
    assert whole[1..] == Decimal(|s|) + ":" + (s + rest);
    ReadSizeRoundTrip(|s|, ":", s + rest);
    assert (s + rest)[..|s|] == s && (s + rest)[|s|..] == rest;
  }

  lemma DecodeSignedRoundTrip(n: Int64, rest: string)
    requires !StartsWithDigit(rest)
    ensures DecodeNumber(SignedDecimal(n) + rest) == Some((n as int, rest))
  {
    if n < 0 {
      var magnitude := -(n as int);
      DecimalRoundTrip(magnitude, rest);
      assert (SignedDecimal(n) + rest)[1..] == Decimal(magnitude) + rest;
    } else {
      DecimalRoundTrip(n as int, rest);
    }
  }

  /** Every encoding starts with its type letter, so a value never runs into the next one. */
  lemma {:induction false} EncodingStart(c: Canon)
    ensures Encoding(c)[0] in {'S', 'B', 'I', 'U', 'L', 'M'}
  {
  }

  lemma {:induction false} ScalarDecodable(c: Canon, rest: string)
    requires !c.CList? && !c.CTable? && !StartsWithDigit(rest)
    ensures DecodeScalar(Encoding(c) + rest) == Some((c, rest))
  {
    var whole := Encoding(c) + rest;
    match c
    case CText(s) =>
      DecodeTextRoundTrip(s, rest);
    case CTruth(b) =>
      assert whole[2] == if b then 't' else 'f';
      assert whole[if b then 6 else 7..] == rest;
    case CSigned(n) =>
      assert whole[2..] == SignedDecimal(n) + rest;
      DecodeSignedRoundTrip(n, rest);
    case CUnsigned(n) =>
      assert whole[2..] == Decimal(n as int) + rest;
      DecimalRoundTrip(n as int, rest);
  }

  lemma {:induction false} ListFraming(s: string, items: seq<Canon>, body: string, rest: string)
    requires s != [] && s[0] == 'L' && ReadSize(s[1..], ":[") == Some((|items|, body))
    requires DecodeItems(|items|, body) == Some((items, "]" + rest))
    ensures Decode(s) == Some((CList(items), rest))
  {
    assert ("]" + rest)[1..] == rest;
  }

  lemma {:induction false} TableFraming(s: string, m: map<string, Canon>, body: string, rest: string)
    requires s != [] && s[0] == 'M' && ReadSize(s[1..], ":{") == Some((|m|, body))
    requires DecodeEntries(|m|, body) == Some((m, "}" + rest))
    ensures Decode(s) == Some((CTable(m), rest))
  {
    assert ("}" + rest)[1..] == rest;
  }

  lemma {:induction false} ScalarFraming(s: string)
    requires s != [] && s[0] in "SBIU"
    ensures Decode(s) == DecodeScalar(s)
  {
  }

  lemma ItemFraming(n: nat, s: string, item: Canon, after: string, items: seq<Canon>, rest: string)
    requires Decode(s) == Some((item, after)) && DecodeItems(n, after) == Some((items, rest))
    ensures DecodeItems(n + 1, s) == Some(([item] + items, rest))
  {
  }

  lemma EntryFraming(n: nat, s: string, key: string, body: string, item: Canon, after: string, m: map<string, Canon>, rest: string)
    requires DecodeText(s) == Some((key, body)) && Decode(body) == Some((item, after))
    requires DecodeEntries(n, after) == Some((m, rest))
    ensures DecodeEntries(n + 1, s) == Some((map[key := item] + m, rest))
  {
  }

  /** A letter, a size, an opening and a body: taking the letter off leaves the size first. */
  lemma {:induction false} FramedSize(letter: char, n: nat, opening: string, inner: string, closing: string, rest: string)
    requires opening != [] && !IsDigit(opening[0])
    ensures var s := [letter] + Decimal(n) + opening + inner + closing + rest;
            s[0] == letter && ReadSize(s[1..], opening) == Some((n, inner + (closing + rest)))
  {
    var s := [letter] + Decimal(n) + opening + inner + closing + rest;
    assert s[1..] == Decimal(n) + opening + (inner + (closing + rest));
    ReadSizeRoundTrip(n, opening, inner + (closing + rest));
  }

  ghost function Restrict(m: map<string, Canon>, keys: seq<string>): map<string, Canon>
    requires forall k :: k in keys ==> k in m
  {
    map k | k in keys :: m[k]
  }

  lemma RestrictToAll(m: map<string, Canon>)
    ensures forall k :: k in SortedKeys(m.Keys) ==> k in m
    ensures Restrict(m, SortedKeys(m.Keys)) == m
  {
    assert forall k :: k in m <==> k in Elements(SortedKeys(m.Keys));
  }

  lemma RestrictSplit(m: map<string, Canon>, keys: seq<string>)
    requires (forall k :: k in keys ==> k in m) && Ascending(keys) && keys != []
    ensures Restrict(m, keys) == map[keys[0] := m[keys[0]]] + Restrict(m, keys[1..])
  {
    AscendingDistinct(keys, keys[0]);
    assert forall k :: k in Elements(keys[1..]) <==> k in Elements(keys) && k != keys[0];
  }

  /** The main result: an encoding followed by anything that is not a digit is read back
      whole, and the reader stops exactly where it ends. */
  lemma {:induction false} UniquelyDecodable(c: Canon, rest: string)
    requires !StartsWithDigit(rest)
    ensures Decode(Encoding(c) + rest) == Some((c, rest))
    decreases c, 1, 0
  {
    if c.CList? {
      ItemsDecodable(c, 0, "]" + rest);
      assert c.items[0..] == c.items;
      FramedSize('L', |c.items|, ":[", EncodeItems(c, 0), "]", rest);
      ListFraming(Encoding(c) + rest, c.items, EncodeItems(c, 0) + ("]" + rest), rest);
    } else if c.CTable? {
      var keys := SortedKeys(c.entries.Keys);
      EntriesDecodable(c, keys, "}" + rest);
      RestrictToAll(c.entries);
      FramedSize('M', |c.entries|, ":{", EncodeEntries(c, keys), "}", rest);
      TableFraming(Encoding(c) + rest, c.entries, EncodeEntries(c, keys) + ("}" + rest), rest);
    } else {
      ScalarDecodable(c, rest);
      assert Encoding(c)[0] in "SBIU";
      ScalarFraming(Encoding(c) + rest);
    }
  }

  lemma FirstItem(c: Canon, from: nat, rest: string)
    requires c.CList? && from < |c.items| && !StartsWithDigit(rest)
    ensures EncodeItems(c, from) + rest == Encoding(c.items[from]) + (EncodeItems(c, from + 1) + rest)
    ensures !StartsWithDigit(EncodeItems(c, from + 1) + rest)
  {
    if from + 1 < |c.items| {
      EncodingStart(c.items[from + 1]);
    } else {
      assert EncodeItems(c, from + 1) + rest == rest;
    }
  }

  ghost predicate ReadsItems(n: nat, s: string, items: seq<Canon>, rest: string) {
    DecodeItems(n, s) == Some((items, rest))
  }

  lemma {:induction false} NoItems(c: Canon, rest: string)
    requires c.CList?
    ensures ReadsItems(0, EncodeItems(c, |c.items|) + rest, c.items[|c.items|..], rest)
  {
    assert EncodeItems(c, |c.items|) + rest == rest;
    assert c.items[|c.items|..] == [];
  }

  lemma {:induction false} ItemsFrom(c: Canon, from: nat, after: string, rest: string)
    requires c.CList? && from < |c.items|
    requires Decode(Encoding(c.items[from]) + after) == Some((c.items[from], after))
    requires ReadsItems(|c.items| - (from + 1), after, c.items[from + 1..], rest)
    ensures ReadsItems(|c.items| - from, Encoding(c.items[from]) + after, c.items[from..], rest)
  {
    hide Encoding, Decode, DecodeItems;
    ItemFraming(|c.items| - (from + 1), Encoding(c.items[from]) + after, c.items[from], after, c.items[from + 1..], rest);
    assert c.items[from..] == [c.items[from]] + c.items[from + 1..];
  }

  lemma {:induction false} ItemsDecodable(c: Canon, from: nat, rest: string)
    requires c.CList? && from <= |c.items| && !StartsWithDigit(rest)
    ensures ReadsItems(|c.items| - from, EncodeItems(c, from) + rest, c.items[from..], rest)
    decreases c, 0, |c.items| - from
  {
    hide *;
    if from == |c.items| {
      NoItems(c, rest);
    } else {
      var after := EncodeItems(c, from + 1) + rest;
      FirstItem(c, from, rest);
      UniquelyDecodable(c.items[from], after);
      ItemsDecodable(c, from + 1, rest);
      ItemsFrom(c, from, after, rest);
    }
  }

  lemma {:induction false} FirstEntry(c: Canon, keys: seq<string>, rest: string)
    requires c.CTable? && (forall k :: k in keys ==> k in c.entries) && keys != [] && !StartsWithDigit(rest)
    ensures var after := EncodeEntries(c, keys[1..]) + rest;
            && EncodeEntries(c, keys) + rest == EncodeText(keys[0]) + (Encoding(c.entries[keys[0]]) + after)
            && !StartsWithDigit(after)
  {
    hide Encoding, EncodeText;
    EntriesStart(c, keys[1..], rest);
    Reassociate(EncodeText(keys[0]), Encoding(c.entries[keys[0]]), EncodeEntries(c, keys[1..]), rest);
  }

  lemma Reassociate(a: string, b: string, c: string, d: string)
    ensures a + b + c + d == a + (b + (c + d))
  {
  }

  lemma {:induction false} EntriesStart(c: Canon, keys: seq<string>, rest: string)
    requires c.CTable? && (forall k :: k in keys ==> k in c.entries) && !StartsWithDigit(rest)
    ensures !StartsWithDigit(EncodeEntries(c, keys) + rest)
  {
    hide Encoding;
    if keys == [] {
      assert EncodeEntries(c, keys) + rest == rest;
    } else {
      assert EncodeText(keys[0])[0] == 'S';
    }
  }

  ghost predicate ReadsEntries(n: nat, s: string, m: map<string, Canon>, rest: string) {
    DecodeEntries(n, s) == Some((m, rest))
  }

  lemma {:induction false} NoEntries(c: Canon, rest: string)
    requires c.CTable?
    ensures ReadsEntries(0, EncodeEntries(c, []) + rest, Restrict(c.entries, []), rest)
  {
    assert EncodeEntries(c, []) + rest == rest;
  }

  lemma {:induction false} EntriesFrom(c: Canon, keys: seq<string>, after: string, rest: string)
    requires c.CTable? && (forall k :: k in keys ==> k in c.entries) && Ascending(keys) && keys != []
    requires Decode(Encoding(c.entries[keys[0]]) + after) == Some((c.entries[keys[0]], after))
    requires ReadsEntries(|keys| - 1, after, Restrict(c.entries, keys[1..]), rest)
    ensures ReadsEntries(|keys|, EncodeText(keys[0]) + (Encoding(c.entries[keys[0]]) + after), Restrict(c.entries, keys), rest)
  {
    hide Encoding, Decode, DecodeEntries, Restrict, EncodeText;
    var body := Encoding(c.entries[keys[0]]) + after;
    DecodeTextRoundTrip(keys[0], body);
    EntryFraming(|keys| - 1, EncodeText(keys[0]) + body, keys[0], body, c.entries[keys[0]], after,
                 Restrict(c.entries, keys[1..]), rest);
    RestrictSplit(c.entries, keys);
  }

  lemma {:induction false} EntriesDecodable(c: Canon, keys: seq<string>, rest: string)
    requires c.CTable? && (forall k :: k in keys ==> k in c.entries) && Ascending(keys)
    requires !StartsWithDigit(rest)
    ensures ReadsEntries(|keys|, EncodeEntries(c, keys) + rest, Restrict(c.entries, keys), rest)
    decreases c, 0, |keys|
  {
    hide Encoding, EncodeEntries, EncodeText, Decode, DecodeEntries, Restrict, ReadsEntries, StartsWithDigit;
    if keys == [] {
      NoEntries(c, rest);
    } else {
      var after := EncodeEntries(c, keys[1..]) + rest;
      FirstEntry(c, keys, rest);
      UniquelyDecodable(c.entries[keys[0]], after);
      EntriesDecodable(c, keys[1..], rest);
      EntriesFrom(c, keys, after, rest);
    }
  }

  // ---------- Consequences ----------

  /** Encodings are prefix-free up to digits: equal texts split at the same place. */
  lemma {:induction false} EncodingSplits(a: Canon, b: Canon, restA: string, restB: string)
    requires Encoding(a) + restA == Encoding(b) + restB
    requires !StartsWithDigit(restA) && !StartsWithDigit(restB)
    ensures a == b && restA == restB
  {
    UniquelyDecodable(a, restA);
    UniquelyDecodable(b, restB);
  }

  /** Two parameter maps that encode at all have equal bytes exactly when they are the same
      parameters. */
  lemma EqualBytesIffEqualParameters(p: Option<map<string, Value>>, q: Option<map<string, Value>>)
    requires NormalParameters(p).Some? && NormalParameters(q).Some?
    ensures Encoding(NormalParameters(p).value) == Encoding(NormalParameters(q).value)
            <==> NormalParameters(p) == NormalParameters(q)
  {
    var a, b := NormalParameters(p).value, NormalParameters(q).value;
    if Encoding(a) == Encoding(b) {
      assert Encoding(a) + "" == Encoding(b) + "";
      EncodingSplits(a, b, "", "");
    }
  }
}
