/** UTF-8 as the encoding of text, against the byte-by-byte check. One character of a byte string stands for one byte. */
module Utf8 {
  import opened Canonical

  function Byte(n: nat): char
    requires n < 256
  {
    n as char
  }

  /** The bytes of one scalar value. */
  function Bytes(c: char): (s: string)
    ensures 1 <= |s| <= 4
  {
    var n := c as int;
    if n < 0x80 then [Byte(n)]
    else if n < 0x800 then [Byte(0xC0 + n / 64), Byte(0x80 + n % 64)]
    else if n < 0x10000 then [Byte(0xE0 + n / 64 / 64), Byte(0x80 + n / 64 % 64), Byte(0x80 + n % 64)]
    else [Byte(0xF0 + n / 64 / 64 / 64), Byte(0x80 + n / 64 / 64 % 64), Byte(0x80 + n / 64 % 64), Byte(0x80 + n % 64)]
  }

  function Encoded(text: string): string {
    if text == [] then [] else Bytes(text[0]) + Encoded(text[1..])
  }

  lemma {:induction false} BytesAreValid(c: char, rest: string)
    ensures ValidUtf8(Bytes(c) + rest) <==> ValidUtf8(rest)
  {
    var s := Bytes(c) + rest;
    assert s[|Bytes(c)|..] == rest;
    assert forall i :: 0 <= i < |Bytes(c)| ==> s[i] == Bytes(c)[i];
  }

  lemma Digits(high: nat, low: nat)
    requires low < 64
    ensures (high * 64 + low) / 64 == high && (high * 64 + low) % 64 == low
  {
  }

  function Low(c: char): nat
    requires Continuation(c)
    ensures Low(c) < 64
  {
    c as int - 0x80
  }

  lemma TwoBytes(a: char, b: char) returns (c: char)
    requires '\U{C2}' <= a <= '\U{DF}' && Continuation(b)
    ensures Bytes(c) == [a, b]
  {
    var high := a as int - 0xC0;
    var n := high * 64 + Low(b);
    Digits(high, Low(b));
    c := n as char;
  }

  lemma ThreeBytes(a: char, b: char, d: char) returns (c: char)
    requires '\U{E0}' <= a <= '\U{EF}' && Continuation(b) && Continuation(d)
    requires (a == '\U{E0}' ==> b >= '\U{A0}') && (a == '\U{ED}' ==> b <= '\U{9F}')
    ensures Bytes(c) == [a, b, d]
  {
    var high := a as int - 0xE0;
    var middle := high * 64 + Low(b);
    var n := middle * 64 + Low(d);
    Digits(high, Low(b));
    Digits(middle, Low(d));
    assert 0x800 <= n < 0xD800 || 0xE000 <= n < 0x10000;
    c := n as char;
  }

  lemma FourBytes(a: char, b: char, d: char, e: char) returns (c: char)
    requires '\U{F0}' <= a <= '\U{F4}' && Continuation(b) && Continuation(d) && Continuation(e)
    requires (a == '\U{F0}' ==> b >= '\U{90}') && (a == '\U{F4}' ==> b <= '\U{8F}')
    ensures Bytes(c) == [a, b, d, e]
  {
    var high := a as int - 0xF0;
    var upper := high * 64 + Low(b);
    var middle := upper * 64 + Low(d);
    var n := middle * 64 + Low(e);
    Digits(high, Low(b));
    Digits(upper, Low(d));
    Digits(middle, Low(e));
    assert 0x10000 <= n < 0x110000;
    c := n as char;
  }

  /** Every valid byte string starts with the bytes of one scalar value. */
  lemma FirstScalar(s: string) returns (c: char)
    requires ValidUtf8(s) && s != []
    ensures Bytes(c) <= s && ValidUtf8(s[|Bytes(c)|..])
  {
    var a := s[0] as int;
    if a < 0x80 {
      c := s[0];
    } else if a < 0xE0 {
      c := TwoBytes(s[0], s[1]);
      hide Bytes;
      assert s[..2] == [s[0], s[1]];
    } else if a < 0xF0 {
      c := ThreeBytes(s[0], s[1], s[2]);
      hide Bytes;
      assert s[..3] == [s[0], s[1], s[2]];
    } else {
      c := FourBytes(s[0], s[1], s[2], s[3]);
      hide Bytes;
      assert s[..4] == [s[0], s[1], s[2], s[3]];
    }
  }

  lemma {:induction false} EncodedIsValid(text: string)
    ensures ValidUtf8(Encoded(text))
  {
    if text != [] {
      EncodedIsValid(text[1..]);
      BytesAreValid(text[0], Encoded(text[1..]));
    }
  }

  lemma {:induction false} ValidIsEncoded(s: string) returns (text: string)
    requires ValidUtf8(s)
    ensures Encoded(text) == s
    decreases |s|
  {
    if s == [] {
      text := [];
    } else {
      var c := FirstScalar(s);
      var rest := ValidIsEncoded(s[|Bytes(c)|..]);
      hide Bytes, ValidUtf8;
      text := [c] + rest;
      assert text[1..] == rest;
      assert s == s[..|Bytes(c)|] + s[|Bytes(c)|..];
    }
  }

  /** The check accepts exactly the encodings of texts. */
  lemma {:induction false} ValidExactly(s: string)
    ensures ValidUtf8(s) <==> exists text :: Encoded(text) == s
  {
    if ValidUtf8(s) { var text := ValidIsEncoded(s); }
    if text :| Encoded(text) == s { EncodedIsValid(text); }
  }
}
