/** Byte-string facts shared by the encoders: the order of `sort.Strings`, the one
    ascending enumeration of a key set, and decimal numerals. A Go string is a `string`
    with one character per byte. */
module ByteStrings {

  // ---------- Lexicographic order ----------

  predicate Less(a: string, b: string) {
    b != [] && (a == [] || a[0] < b[0] || (a[0] == b[0] && Less(a[1..], b[1..])))
  }

  lemma {:induction false} LessTotal(a: string, b: string)
    ensures Less(a, b) || a == b || Less(b, a)
  {
    if a != [] && b != [] && a[0] == b[0] {
      LessTotal(a[1..], b[1..]);
      assert a == [a[0]] + a[1..] && b == [b[0]] + b[1..];
    }
  }

  lemma {:induction false} LessTransitive(a: string, b: string, c: string)
    requires Less(a, b) && Less(b, c)
    ensures Less(a, c)
  {
    if a != [] && a[0] == b[0] == c[0] {
      LessTransitive(a[1..], b[1..], c[1..]);
    }
  }

  lemma {:induction false} LessIrreflexive(a: string)
    ensures !Less(a, a)
  {
    if a != [] {
      LessIrreflexive(a[1..]);
    }
  }

  // ---------- Ascending key sequences ----------

  ghost predicate Ascending(keys: seq<string>) {
    forall i, j :: 0 <= i < j < |keys| ==> Less(keys[i], keys[j])
  }

  ghost function Elements(keys: seq<string>): set<string> {
    set k | k in keys
  }

  lemma {:induction false} LeastExists(keys: set<string>) returns (least: string)
    requires keys != {}
    ensures IsLeast(least, keys)
  {
    least :| least in keys;
    var rest := keys - {least};
    if rest == {} {
      assert forall k :: k in keys ==> k == least || k in rest;
    } else {
      var other := LeastExists(rest);
      LessTotal(least, other);
      if Less(other, least) {
        least := other;
      } else {
        forall k | k in keys && k != least ensures Less(least, k) {
          assert k in rest;
          if k != other { LessTransitive(least, other, k); }
        }
      }
    }
  }

  ghost predicate IsLeast(k: string, keys: set<string>) {
    k in keys && forall o :: o in keys && o != k ==> Less(k, o)
  }

  ghost function Least(keys: set<string>): (k: string)
    requires keys != {}
    ensures IsLeast(k, keys)
  {
    assert exists k :: IsLeast(k, keys) by {
      var least := LeastExists(keys);
    }
    var k :| IsLeast(k, keys);
    k
  }

  /** The ascending enumeration of a key set. */
  ghost function SortedKeys(keys: set<string>): (sorted: seq<string>)
    ensures Ascending(sorted) && Elements(sorted) == keys && |sorted| == |keys|
  {
    if keys == {} then []
    else
      var k := Least(keys);
      var rest := SortedKeys(keys - {k});
      PrependLeast(k, rest, keys);
      [k] + rest
  }

  lemma PrependLeast(k: string, rest: seq<string>, keys: set<string>)
    requires IsLeast(k, keys) && Ascending(rest) && Elements(rest) == keys - {k}
    ensures Ascending([k] + rest) && Elements([k] + rest) == keys
  {
    forall j | 0 <= j < |rest| ensures Less(k, rest[j]) {
      assert rest[j] in Elements(rest);
    }
    assert forall o :: o in Elements([k] + rest) <==> o == k || o in Elements(rest);
  }

  /** Whatever order keys were collected in, sorting them gives one sequence only. */
  lemma {:induction false} AscendingUnique(a: seq<string>, b: seq<string>)
    requires Ascending(a) && Ascending(b) && Elements(a) == Elements(b)
    ensures a == b
  {
    assert a != [] ==> a[0] in Elements(b);
    assert b != [] ==> b[0] in Elements(a);
    if a != [] {
      var i :| 0 <= i < |b| && b[i] == a[0];
      var j :| 0 <= j < |a| && a[j] == b[0];
      if i > 0 && j > 0 {
        LessTransitive(a[0], b[0], a[0]);
        LessIrreflexive(a[0]);
        assert false;
      }
      assert a[0] == b[0];
      AscendingDistinct(a, a[0]);
      AscendingDistinct(b, a[0]);
      AscendingUnique(a[1..], b[1..]);
    }
  }

  lemma AscendingDistinct(a: seq<string>, head: string)
    requires Ascending(a) && a != [] && a[0] == head
    ensures Ascending(a[1..]) && Elements(a[1..]) == Elements(a) - {head}
  {
    LessIrreflexive(head);
    forall k | k in Elements(a) && k != head ensures k in Elements(a[1..]) {
      var i :| 0 <= i < |a| && a[i] == k;
      assert a[1..][i - 1] == k;
    }
  }

  /** `sort.Strings`: insertion into an already ascending prefix. */
  method SortStrings(keys: seq<string>) returns (sorted: seq<string>)
    requires forall i, j :: 0 <= i < j < |keys| ==> keys[i] != keys[j]
    ensures sorted == SortedKeys(Elements(keys))
  {
    sorted := [];
    for n := 0 to |keys|
      invariant Ascending(sorted) && Elements(sorted) == Elements(keys[..n])
    {
      var at := 0;
      while at < |sorted| && Less(sorted[at], keys[n])
        invariant at <= |sorted|
        invariant forall i :: 0 <= i < at ==> Less(sorted[i], keys[n])
      {
        at := at + 1;
      }
      InsertKeepsAscending(sorted, at, keys[n], keys[..n]);
      sorted := sorted[..at] + [keys[n]] + sorted[at..];
      assert keys[..n + 1] == keys[..n] + [keys[n]];
    }
    assert keys[..|keys|] == keys;
    AscendingUnique(sorted, SortedKeys(Elements(keys)));
  }

  lemma {:induction false} InsertKeepsAscending(sorted: seq<string>, at: nat, key: string, seen: seq<string>)
    requires Ascending(sorted) && at <= |sorted| && key !in seen && Elements(sorted) == Elements(seen)
    requires forall i :: 0 <= i < at ==> Less(sorted[i], key)
    requires at < |sorted| ==> !Less(sorted[at], key)
    ensures var next := sorted[..at] + [key] + sorted[at..];
            Ascending(next) && Elements(next) == Elements(seen + [key])
  {
    var next := sorted[..at] + [key] + sorted[at..];
    forall i | at <= i < |sorted| ensures Less(key, sorted[i]) {
      assert sorted[i] in Elements(sorted) && sorted[at] in Elements(sorted);
      LessTotal(sorted[at], key);
      if i > at { LessTransitive(key, sorted[at], sorted[i]); }
    }
    forall k | k in Elements(sorted) ensures k in Elements(next) {
      var i :| 0 <= i < |sorted| && sorted[i] == k;
      assert next[if i < at then i else i + 1] == k;
    }
    assert next[at] == key;
    assert Elements(next) == Elements(sorted) + {key};
    assert Elements(seen + [key]) == Elements(seen) + {key};
  }

  // ---------- Decimal numerals ----------

  predicate IsDigit(c: char) { '0' <= c <= '9' }

  predicate StartsWithDigit(s: string) { s != [] && IsDigit(s[0]) }

  function Decimal(n: nat): (s: string)
    ensures s != [] && forall i :: 0 <= i < |s| ==> IsDigit(s[i])
  {
    var last := ['0' + (n % 10) as char];
    if n < 10 then last else Decimal(n / 10) + last
  }

  /** Reads the longest run of digits after the value read so far. */
  function ReadDigits(acc: nat, s: string): (r: (nat, string))
    decreases |s|
    ensures |r.1| <= |s| && (StartsWithDigit(s) ==> |r.1| < |s|)
  {
    if StartsWithDigit(s) then ReadDigits(10 * acc + (s[0] - '0') as nat, s[1..]) else (acc, s)
  }

  lemma {:induction false} ReadDigitsRun(acc: nat, digits: string, rest: string)
    requires forall i :: 0 <= i < |digits| ==> IsDigit(digits[i])
    requires !StartsWithDigit(rest)
    ensures ReadDigits(acc, digits + rest) == (ReadDigits(acc, digits).0, rest)
    decreases |digits|
  {
    if digits == [] {
      assert digits + rest == rest;
    } else {
      assert (digits + rest)[1..] == digits[1..] + rest;
      ReadDigitsRun(10 * acc + (digits[0] - '0') as nat, digits[1..], rest);
    }
  }

  lemma {:induction false} ReadDigitsAppend(acc: nat, digits: string, last: char)
    requires IsDigit(last) && forall i :: 0 <= i < |digits| ==> IsDigit(digits[i])
    ensures ReadDigits(acc, digits + [last]).0 == 10 * ReadDigits(acc, digits).0 + (last - '0') as nat
    decreases |digits|
  {
    if digits == [] {
      assert digits + [last] == [last];
      assert ReadDigits(acc, [last]) == ReadDigits(10 * acc + (last - '0') as nat, []);
    } else {
      assert (digits + [last])[1..] == digits[1..] + [last];
      ReadDigitsAppend(10 * acc + (digits[0] - '0') as nat, digits[1..], last);
    }
  }

  lemma {:induction false} ReadDecimal(n: nat)
    ensures ReadDigits(0, Decimal(n)).0 == n
  {
    var last := '0' + (n % 10) as char;
    if n < 10 {
      assert ReadDigits(0, [last]) == ReadDigits(n, []);
    } else {
      ReadDecimal(n / 10);
      ReadDigitsAppend(0, Decimal(n / 10), last);
    }
  }

  /** Decimal round trip in context: the numeral is read back and nothing after it is touched. */
  lemma {:induction false} DecimalRoundTrip(n: nat, rest: string)
    requires !StartsWithDigit(rest)
    ensures ReadDigits(0, Decimal(n) + rest) == (n, rest)
  {
    ReadDecimal(n);
    ReadDigitsRun(0, Decimal(n), rest);
  }
}
