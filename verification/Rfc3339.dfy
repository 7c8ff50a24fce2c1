/** The text of a UTC instant as `time.RFC3339Nano` prints it. Fields are padded to a fixed
    width, the fraction loses its trailing zeros and disappears when it is zero. */
module Rfc3339 {
  import opened ByteStrings

  /** A UTC instant by its calendar fields, which determine it. */
  datatype Instant = Instant(year: nat, month: nat, day: nat, hour: nat, minute: nat, second: nat, nanos: nat)
  {
    predicate Valid() {
      1 <= month <= 12 && 1 <= day <= 31 && hour < 24 && minute < 60 && second < 60 && nanos < 1_000_000_000
    }
  }

  /** `time.Time{}`. */
  const ZERO_TIME := Instant(1, 1, 1, 0, 0, 0, 0)

  function Zeros(n: nat): (s: string)
    ensures |s| == n && forall i :: 0 <= i < n ==> s[i] == '0'
  {
    if n == 0 then "" else "0" + Zeros(n - 1)
  }

  function Pad(n: nat, width: nat): (s: string)
    ensures s != [] && (forall i :: 0 <= i < |s| ==> IsDigit(s[i])) && |s| >= width
  {
    var digits := Decimal(n);
    if |digits| >= width then digits else Zeros(width - |digits|) + digits
  }

  function TrimZeros(s: string): (r: string)
    ensures r <= s
  {
    if s != [] && s[|s| - 1] == '0' then TrimZeros(s[..|s| - 1]) else s
  }

  function Fraction(nanos: nat): string {
    if nanos == 0 then "" else "." + TrimZeros(Pad(nanos, 9))
  }

  function Format(t: Instant): string {
    Pad(t.year, 4) + "-" + (Pad(t.month, 2) + "-" + (Pad(t.day, 2) + "T" + (Pad(t.hour, 2) + ":" +
    (Pad(t.minute, 2) + ":" + (Pad(t.second, 2) + (Fraction(t.nanos) + "Z"))))))
  }

  // ---------- Reading a field back ----------

  lemma {:induction false} ReadLeadingZeros(n: nat, s: string)
    ensures ReadDigits(0, Zeros(n) + s) == ReadDigits(0, s)
  {
    if n == 0 {
      assert Zeros(n) + s == s;
    } else {
      assert (Zeros(n) + s)[1..] == Zeros(n - 1) + s;
      assert ReadDigits(0, Zeros(n) + s) == ReadDigits(0, Zeros(n - 1) + s);
      ReadLeadingZeros(n - 1, s);
    }
  }

  lemma {:induction false} PadRoundTrip(n: nat, width: nat, rest: string)
    requires !StartsWithDigit(rest)
    ensures ReadDigits(0, Pad(n, width) + rest) == (n, rest)
  {
    var digits := Decimal(n);
    DecimalRoundTrip(n, rest);
    if |digits| < width {
      assert Pad(n, width) + rest == Zeros(width - |digits|) + (digits + rest);
      ReadLeadingZeros(width - |digits|, digits + rest);
    }
  }

  /** Two padded fields in front of non-digits split at the same place. */
  lemma FieldSplits(a: nat, b: nat, width: nat, restA: string, restB: string)
    requires Pad(a, width) + restA == Pad(b, width) + restB
    requires !StartsWithDigit(restA) && !StartsWithDigit(restB)
    ensures a == b && restA == restB
  {
    PadRoundTrip(a, width, restA);
    PadRoundTrip(b, width, restB);
  }

  // ---------- The fraction ----------

  lemma {:induction false} DecimalLength(n: nat, width: nat)
    requires 1 <= width && n < Pow10(width)
    ensures |Decimal(n)| <= width
  {
    if n >= 10 {
      DecimalLength(n / 10, width - 1);
    }
  }

  function Pow10(n: nat): nat {
    if n == 0 then 1 else 10 * Pow10(n - 1)
  }

  lemma {:induction false} TrimRestored(s: string)
    ensures s == TrimZeros(s) + Zeros(|s| - |TrimZeros(s)|)
  {
    if s != [] && s[|s| - 1] == '0' {
      var head := s[..|s| - 1];
      TrimRestored(head);
      var missing := |head| - |TrimZeros(head)|;
      assert Zeros(missing) + "0" == Zeros(missing + 1) by {
        assert forall i :: 0 <= i <= missing ==> (Zeros(missing) + "0")[i] == Zeros(missing + 1)[i];
      }
      assert s == head + "0";
    }
  }

  lemma PadExact(nanos: nat)
    requires nanos < 1_000_000_000
    ensures |Pad(nanos, 9)| == 9
  {
    assert Pow10(9) == 1_000_000_000;
    DecimalLength(nanos, 9);
  }

  lemma FractionInjective(a: nat, b: nat)
    requires a < 1_000_000_000 && b < 1_000_000_000 && Fraction(a) == Fraction(b)
    ensures a == b
  {
    if a != 0 && b != 0 {
      PadExact(a);
      PadExact(b);
      assert Fraction(a)[1..] == TrimZeros(Pad(a, 9)) && Fraction(b)[1..] == TrimZeros(Pad(b, 9));
      TrimRestored(Pad(a, 9));
      TrimRestored(Pad(b, 9));
      assert Pad(a, 9) + "" == Pad(b, 9) + "";
      FieldSplits(a, b, 9, "", "");
    }
  }

  /** The printed text determines the instant. */
  lemma FormatInjective(a: Instant, b: Instant)
    requires a.Valid() && b.Valid() && Format(a) == Format(b)
    ensures a == b
  {
    var secondA, secondB := Pad(a.second, 2) + (Fraction(a.nanos) + "Z"), Pad(b.second, 2) + (Fraction(b.nanos) + "Z");
    var minuteA, minuteB := Pad(a.minute, 2) + ":" + secondA, Pad(b.minute, 2) + ":" + secondB;
    var hourA, hourB := Pad(a.hour, 2) + ":" + minuteA, Pad(b.hour, 2) + ":" + minuteB;
    var dayA, dayB := Pad(a.day, 2) + "T" + hourA, Pad(b.day, 2) + "T" + hourB;
    var monthA, monthB := Pad(a.month, 2) + "-" + dayA, Pad(b.month, 2) + "-" + dayB;
    SeparatedField(a.year, b.year, 4, '-', monthA, monthB);
    SeparatedField(a.month, b.month, 2, '-', dayA, dayB);
    SeparatedField(a.day, b.day, 2, 'T', hourA, hourB);
    SeparatedField(a.hour, b.hour, 2, ':', minuteA, minuteB);
    SeparatedField(a.minute, b.minute, 2, ':', secondA, secondB);
    FieldSplits(a.second, b.second, 2, Fraction(a.nanos) + "Z", Fraction(b.nanos) + "Z");
    assert (Fraction(a.nanos) + "Z")[..|Fraction(a.nanos)|] == Fraction(a.nanos);
    assert (Fraction(b.nanos) + "Z")[..|Fraction(b.nanos)|] == Fraction(b.nanos);
    FractionInjective(a.nanos, b.nanos);
  }

  lemma SeparatedField(a: nat, b: nat, width: nat, separator: char, restA: string, restB: string)
    requires !IsDigit(separator)
    requires Pad(a, width) + [separator] + restA == Pad(b, width) + [separator] + restB
    ensures a == b && restA == restB
  {
    hide Pad;
    assert Pad(a, width) + [separator] + restA == Pad(a, width) + ([separator] + restA);
    assert Pad(b, width) + [separator] + restB == Pad(b, width) + ([separator] + restB);
    FieldSplits(a, b, width, [separator] + restA, [separator] + restB);
    assert ([separator] + restA)[1..] == restA && ([separator] + restB)[1..] == restB;
  }

  /** Digits, dashes, colons, 'T', '.' and 'Z' only. */
  lemma FormatHasNoNewline(t: Instant)
    ensures '\n' !in Format(t)
  {
    FractionHasNoNewline(t.nanos);
    hide Pad, Fraction;
  }

  lemma FractionHasNoNewline(nanos: nat)
    ensures '\n' !in Fraction(nanos)
  {
    TrimRestored(Pad(nanos, 9));
    hide Pad, TrimZeros;
  }

  // ---------- The fields in their places ----------

  /** The digits are those of the number, padded to the width. */
  predicate Reads(digits: string, n: nat, width: nat) { |digits| == width && ReadDigits(0, digits) == (n, "") }

  lemma {:induction false} PadReads(n: nat, width: nat)
    requires width in {2, 4, 9} && n < Pow10(width)
    ensures Reads(Pad(n, width), n, width)
  {
    DecimalLength(n, width);
    PadRoundTrip(n, width, "");
    assert Pad(n, width) + "" == Pad(n, width);
  }

  /** A fraction has one to nine digits, the last of them not zero; filled up with zeros they are the nanoseconds. */
  predicate FractionReads(digits: string, nanos: nat) {
    1 <= |digits| <= 9 && digits[|digits| - 1] != '0' && Reads(digits + Zeros(9 - |digits|), nanos, 9)
  }

  lemma {:induction false} TrimEnds(s: string)
    ensures var r := TrimZeros(s); r != [] ==> r[|r| - 1] != '0'
    decreases |s|
  {
    if s != [] && s[|s| - 1] == '0' { TrimEnds(s[..|s| - 1]); }
  }

  lemma {:induction false} ZerosRead(n: nat)
    ensures ReadDigits(0, Zeros(n)) == (0, "")
  {
    ReadLeadingZeros(n, "");
    assert Zeros(n) + "" == Zeros(n);
  }

  lemma FractionShape(nanos: nat)
    requires 0 < nanos < 1_000_000_000
    ensures var f := Fraction(nanos); f != "" && f[0] == '.' && FractionReads(f[1..], nanos)
  {
    var digits := Pad(nanos, 9);
    PadExact(nanos);
    assert Pow10(9) == 1_000_000_000;
    PadReads(nanos, 9);
    TrimRestored(digits);
    TrimEnds(digits);
    if TrimZeros(digits) == [] {
      assert digits == Zeros(9);
      ZerosRead(9);
      assert false;
    }
    assert Fraction(nanos)[1..] == TrimZeros(digits);
  }

  /** Section 5.6 of RFC 3339: four digits of year, two of every other field, and a fraction only if there is one. */
  lemma FormatShape(t: Instant)
    requires t.Valid() && t.year < 10_000
    ensures var f := Format(t);
            && |f| >= 20 && f[4] == '-' && f[7] == '-' && f[10] == 'T' && f[13] == ':' && f[16] == ':' && f[|f| - 1] == 'Z'
            && Reads(f[..4], t.year, 4) && Reads(f[5..7], t.month, 2) && Reads(f[8..10], t.day, 2)
            && Reads(f[11..13], t.hour, 2) && Reads(f[14..16], t.minute, 2) && Reads(f[17..19], t.second, 2)
            && (t.nanos == 0 <==> |f| == 20)
            && (t.nanos != 0 ==> f[19] == '.' && FractionReads(f[20..|f| - 1], t.nanos))
  {
    assert Pow10(2) == 100 && Pow10(4) == 10_000;
    PadReads(t.year, 4);
    PadReads(t.month, 2);
    PadReads(t.day, 2);
    PadReads(t.hour, 2);
    PadReads(t.minute, 2);
    PadReads(t.second, 2);
    if t.nanos != 0 { FractionShape(t.nanos); }
    var y, mo, d, h, mi, s, z := Pad(t.year, 4), Pad(t.month, 2), Pad(t.day, 2), Pad(t.hour, 2), Pad(t.minute, 2), Pad(t.second, 2), Fraction(t.nanos);
    assert z == "" <==> t.nanos == 0;
    hide Pad, Fraction, Reads, FractionReads, Pow10;
    Places(y, mo, d, h, mi, s, z);
  }

  lemma Places(y: string, mo: string, d: string, h: string, mi: string, s: string, z: string)
    requires |y| == 4 && |mo| == |d| == |h| == |mi| == |s| == 2
    ensures var f := y + "-" + (mo + "-" + (d + "T" + (h + ":" + (mi + ":" + (s + (z + "Z"))))));
            && |f| == 20 + |z| && f[..4] == y && f[4] == '-' && f[5..7] == mo && f[7] == '-' && f[8..10] == d && f[10] == 'T'
            && f[11..13] == h && f[13] == ':' && f[14..16] == mi && f[16] == ':' && f[17..19] == s
            && f[19..|f| - 1] == z && f[|f| - 1] == 'Z'
  {
  }
}
