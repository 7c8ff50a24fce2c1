/** Quoting of one native argument, undone by the Microsoft C/C++ command-line argument rules. */
module WindowsQuoting {
  /** A Go string as `range` sees it: its runes, and the bytes that belong to no valid rune. */
  datatype Unit = Rune(c: char) | Stray(byte: nat)

  type Text = seq<Unit>

  const SLASH := Rune('\\')
  const QUOTE := Rune('"')
  const SPACE := Rune(' ')

  predicate Blank(u: Unit) { u == SPACE || u == Rune('\t') }

  function Slashes(n: nat): (t: Text)
    ensures |t| == n && forall i :: 0 <= i < n ==> t[i] == SLASH
  {
    seq(n, _ => SLASH)
  }

  // ---------- The quoting loop ----------

  predicate NeedsQuoting(value: Text) { value == [] || exists u :: u in value && (Blank(u) || u == QUOTE) }

  /** Writing a rune read from a stray byte writes the replacement character. */
  function Written(u: Unit): Unit { if u.Stray? then Rune('\U{FFFD}') else u }

  /** What is still to be written after `backslashes` unwritten backslashes. */
  function Remainder(value: Text, backslashes: nat): Text
    decreases |value|
  {
    if value == [] then Slashes(backslashes * 2) + [QUOTE]
    else if value[0] == SLASH then Remainder(value[1..], backslashes + 1)
    else
      Slashes(if value[0] == QUOTE then backslashes * 2 + 1 else backslashes)
      + ([Written(value[0])] + Remainder(value[1..], 0))
  }

  function Quoted(value: Text): Text { if NeedsQuoting(value) then [QUOTE] + Remainder(value, 0) else value }

  lemma {:induction false} RemainderGrows(value: Text, backslashes: nat)
    ensures |Remainder(value, backslashes)| > |value| + backslashes
    decreases |value|
  {
    if value != [] { RemainderGrows(value[1..], if value[0] == SLASH then backslashes + 1 else 0); }
  }

  /** A value is left as it is exactly if it is not empty and has neither blanks nor double quotes. */
  lemma QuotedAsItIs(value: Text)
    ensures Quoted(value) == value <==> value != [] && SPACE !in value && Rune('\t') !in value && QUOTE !in value
    ensures Quoted(value) != value ==> |Quoted(value)| >= 2 && Quoted(value)[0] == QUOTE
  {
    RemainderGrows(value, 0);
  }

  method QuoteWindowsArgument(value: Text) returns (quoted: Text)
    ensures quoted == Quoted(value)
  {
    if !NeedsQuoting(value) { return value; }
    quoted := [QUOTE];
    var backslashes := 0;
    for i := 0 to |value|
      invariant quoted + Remainder(value[i..], backslashes) == [QUOTE] + Remainder(value, 0)
    {
      assert value[i..][0] == value[i] && value[i..][1..] == value[i + 1..];
      if value[i] == SLASH {
        backslashes := backslashes + 1;
        continue;
      }
      ghost var before := quoted;
      var run := Slashes(if value[i] == QUOTE then backslashes * 2 + 1 else backslashes);
      quoted := quoted + run;
      quoted := quoted + [Written(value[i])];
      Regroup(before, run, [Written(value[i])], Remainder(value[i + 1..], 0));
      backslashes := 0;
    }
    quoted := quoted + Slashes(backslashes * 2);
    quoted := quoted + [QUOTE];
  }

  lemma Regroup(a: Text, b: Text, c: Text, d: Text)
    ensures a + b + c + d == a + (b + (c + d))
  {
  }

  // ---------- The Microsoft C/C++ rules ----------

  function LeadingSlashes(t: Text): (n: nat)
    ensures n <= |t| && t[..n] == Slashes(n) && (n < |t| ==> t[n] != SLASH)
  {
    if t == [] || t[0] != SLASH then 0
    else
      var n := 1 + LeadingSlashes(t[1..]);
      assert t[..n] == [SLASH] + t[1..][..n - 1];
      n
  }

  /** One argument read from the front of the command line, and the rest. A run of backslashes is halved
      before a double quote mark, which is then literal if the run was odd; otherwise the mark opens or closes
      a quoted part, except that two marks inside a quoted part are one literal mark. */
  function Argument(t: Text, inQuotes: bool): (r: (Text, Text))
    ensures |r.1| <= |t|
    ensures t != [] && (inQuotes || !Blank(t[0])) ==> |r.1| < |t|
    decreases |t|
  {
    var n := LeadingSlashes(t);
    if n == |t| then (Slashes(n), [])
    else if t[n] == QUOTE && n % 2 == 1 then
      var (more, rest) := Argument(t[n + 1..], inQuotes);
      (Slashes(n / 2) + ([QUOTE] + more), rest)
    else if t[n] == QUOTE && inQuotes && n + 1 < |t| && t[n + 1] == QUOTE then
      var (more, rest) := Argument(t[n + 2..], inQuotes);
      (Slashes(n / 2) + ([QUOTE] + more), rest)
    else if t[n] == QUOTE then
      var (more, rest) := Argument(t[n + 1..], !inQuotes);
      (Slashes(n / 2) + more, rest)
    else if !inQuotes && Blank(t[n]) then (Slashes(n), t[n..])
    else
      var (more, rest) := Argument(t[n + 1..], inQuotes);
      (Slashes(n) + ([t[n]] + more), rest)
  }

  function Arguments(t: Text): seq<Text>
    decreases |t|
  {
    if t == [] then []
    else if Blank(t[0]) then Arguments(t[1..])
    else
      var (argument, rest) := Argument(t, false);
      [argument] + Arguments(rest)
  }

  // ---------- One argument ----------

  predicate Ends(rest: Text) { rest == [] || Blank(rest[0]) }

  /** The argument as the program receives it. */
  function AsWritten(value: Text): (r: Text)
    ensures |r| == |value| && forall i :: 0 <= i < |value| ==> r[i] == Written(value[i])
  {
    if value == [] then [] else [Written(value[0])] + AsWritten(value[1..])
  }

  function Received(value: Text): Text { if NeedsQuoting(value) then AsWritten(value) else value }

  lemma {:induction false} SlashRun(n: nat, tail: Text)
    requires tail != [] ==> tail[0] != SLASH
    ensures LeadingSlashes(Slashes(n) + tail) == n && (Slashes(n) + tail)[n..] == tail
  {
    var t := Slashes(n) + tail;
    var k := LeadingSlashes(t);
    forall i | 0 <= i < k ensures t[i] == SLASH { assert t[i] == t[..k][i]; }
    assert n < |t| ==> t[n] == tail[0];
  }

  /** `Argument` on a run of backslashes followed by something else. */
  lemma ReadRun(n: nat, c: Unit, tail: Text, inQuotes: bool)
    requires c != SLASH
    ensures
      var t := Slashes(n) + ([c] + tail);
      && LeadingSlashes(t) == n < |t| && t[n] == c && t[n + 1..] == tail
  {
    SlashRun(n, [c] + tail);
  }

  lemma {:induction false} LiteralMark(k: nat, tail: Text, inQuotes: bool)
    ensures
      var (more, rest) := Argument(tail, inQuotes);
      Argument(Slashes(k * 2 + 1) + ([QUOTE] + tail), inQuotes) == (Slashes(k) + ([QUOTE] + more), rest)
  {
    ReadRun(k * 2 + 1, QUOTE, tail, inQuotes);
  }

  lemma {:induction false} OrdinaryUnit(n: nat, c: Unit, tail: Text, inQuotes: bool)
    requires c != SLASH && c != QUOTE && (inQuotes || !Blank(c))
    ensures
      var (more, rest) := Argument(tail, inQuotes);
      Argument(Slashes(n) + ([c] + tail), inQuotes) == (Slashes(n) + ([c] + more), rest)
  {
    ReadRun(n, c, tail, inQuotes);
  }

  lemma {:induction false} OpeningMark(tail: Text)
    ensures Argument([QUOTE] + tail, false) == Argument(tail, true)
  {
    ReadRun(0, QUOTE, tail, false);
    assert Slashes(0) + ([QUOTE] + tail) == [QUOTE] + tail;
    assert Slashes(0) + Argument(tail, true).0 == Argument(tail, true).0;
  }

  lemma {:induction false} AtEnd(n: nat, rest: Text)
    requires Ends(rest)
    ensures Argument(Slashes(n) + rest, false) == (Slashes(n), rest)
  {
    SlashRun(n, rest);
    if rest == [] { assert Slashes(n) + rest == Slashes(n); }
  }

  lemma {:induction false} ClosingMark(k: nat, rest: Text)
    requires Ends(rest)
    ensures Argument(Slashes(k * 2) + ([QUOTE] + rest), true) == (Slashes(k), rest)
  {
    ReadRun(k * 2, QUOTE, rest, true);
    assert Argument(rest, false) == ([], rest) by {
      AtEnd(0, rest);
      assert Slashes(0) + rest == rest;
    }
    hide Slashes;
    assert Slashes(k) + [] == Slashes(k);
  }

  lemma MoreSlashes(k: nat, tail: Text)
    ensures Slashes(k + 1) + tail == Slashes(k) + ([SLASH] + tail)
  {
  }

  /** The quoted part, read back from any point of the loop. */
  lemma {:induction false} ReadRemainder(value: Text, k: nat, rest: Text)
    requires Ends(rest)
    ensures Argument(Remainder(value, k) + rest, true) == (Slashes(k) + AsWritten(value), rest)
    decreases |value|
  {
    if value == [] {
      assert Remainder(value, k) + rest == Slashes(k * 2) + ([QUOTE] + rest);
      ClosingMark(k, rest);
      assert Slashes(k) + [] == Slashes(k);
    } else if value[0] == SLASH {
      ReadRemainder(value[1..], k + 1, rest);
      MoreSlashes(k, AsWritten(value[1..]));
    } else {
      var c := Written(value[0]);
      var run := Slashes(if value[0] == QUOTE then k * 2 + 1 else k);
      var tail := Remainder(value[1..], 0) + rest;
      Reassociate(run, [c], Remainder(value[1..], 0), rest);
      assert Remainder(value, k) + rest == run + ([c] + tail);
      if value[0] == QUOTE { LiteralMark(k, tail, true); } else { OrdinaryUnit(k, c, tail, true); }
      ReadRemainder(value[1..], 0, rest);
      assert Slashes(0) + AsWritten(value[1..]) == AsWritten(value[1..]);
    }
  }

  lemma Reassociate(a: Text, b: Text, c: Text, d: Text)
    ensures a + (b + c) + d == a + (b + (c + d))
  {
  }

  lemma {:induction false} ReadQuoted(value: Text, rest: Text)
    requires Ends(rest)
    ensures Argument([QUOTE] + Remainder(value, 0) + rest, false) == (AsWritten(value), rest)
  {
    assert [QUOTE] + Remainder(value, 0) + rest == [QUOTE] + (Remainder(value, 0) + rest);
    OpeningMark(Remainder(value, 0) + rest);
    ReadRemainder(value, 0, rest);
    assert Slashes(0) + AsWritten(value) == AsWritten(value);
  }

  lemma {:induction false} ReadPlain(value: Text, rest: Text)
    requires Ends(rest) && forall u :: u in value ==> !Blank(u) && u != QUOTE
    ensures Argument(value + rest, false) == (value, rest)
    decreases |value|
  {
    var n := LeadingSlashes(value);
    if n == |value| {
      assert value[..n] == value;
      AtEnd(n, rest);
    } else {
      var c, tail := value[n], value[n + 1..];
      assert c in value;
      assert value[..n] + ([c] + tail) == value;
      Reassociate(Slashes(n), [c], tail, rest);
      OrdinaryUnit(n, c, tail + rest, false);
      ReadPlain(tail, rest);
    }
  }

  lemma {:induction false} ReadArgument(value: Text, rest: Text)
    requires Ends(rest)
    ensures Argument(Quoted(value) + rest, false) == (Received(value), rest)
    ensures Quoted(value) != [] && !Blank(Quoted(value)[0])
  {
    if NeedsQuoting(value) { ReadQuoted(value, rest); } else { ReadPlain(value, rest); }
  }

  // ---------- The joined list ----------

  function CommandLine(values: seq<Text>): Text {
    if values == [] then []
    else if |values| == 1 then Quoted(values[0])
    else Quoted(values[0]) + ([SPACE] + CommandLine(values[1..]))
  }

  function ReceivedAll(values: seq<Text>): (r: seq<Text>)
    ensures |r| == |values| && forall i :: 0 <= i < |values| ==> r[i] == Received(values[i])
  {
    if values == [] then [] else [Received(values[0])] + ReceivedAll(values[1..])
  }

  /** What the program receives, for every list of strings whatever. */
  lemma {:induction false} CommandLineArguments(values: seq<Text>)
    ensures Arguments(CommandLine(values)) == ReceivedAll(values)
    decreases |values|
  {
    if values != [] {
      var rest := if |values| == 1 then [] else [SPACE] + CommandLine(values[1..]);
      assert CommandLine(values) == Quoted(values[0]) + rest;
      ReadArgument(values[0], rest);
      if |values| > 1 {
        assert rest[1..] == CommandLine(values[1..]);
        CommandLineArguments(values[1..]);
        assert Arguments(rest) == ReceivedAll(values[1..]);
      }
    }
  }

  /** A value with a stray byte survives only if nothing in it asks for quotes. */
  predicate Survives(value: Text) {
    NeedsQuoting(value) ==> forall u :: u in value ==> u.Rune?
  }

  lemma ReceivedAsSent(value: Text)
    ensures Received(value) == value <==> Survives(value)
  {
    if NeedsQuoting(value) {
      if !Survives(value) {
        var i :| 0 <= i < |value| && value[i].Stray?;
        assert AsWritten(value)[i].Rune?;
      } else {
        forall i | 0 <= i < |value| ensures AsWritten(value)[i] == value[i] { assert value[i] in value; }
      }
    }
  }

  /** The round trip, and exactly when it holds. */
  lemma {:induction false} RoundTrip(values: seq<Text>)
    ensures Arguments(CommandLine(values)) == values <==> forall v :: v in values ==> Survives(v)
  {
    CommandLineArguments(values);
    forall v ensures Received(v) == v <==> Survives(v) { ReceivedAsSent(v); }
    if v :| v in values && !Survives(v) {
      var i :| 0 <= i < |values| && values[i] == v;
      assert ReceivedAll(values)[i] != values[i];
    }
  }

  /** A value that does not survive. */
  lemma StrayByteIsReplaced()
    ensures Arguments(CommandLine([[SPACE, Stray(255)]])) == [[SPACE, Rune('\U{FFFD}')]] != [[SPACE, Stray(255)]]
  {
    var value := [SPACE, Stray(255)];
    CommandLineArguments([value]);
    assert SPACE in value;
    assert Received(value) == [SPACE, Rune('\U{FFFD}')];
  }

  /** PowerShell's `-join ' '`. */
  function Spaced(parts: seq<Text>): Text {
    if parts == [] then [] else if |parts| == 1 then parts[0] else parts[0] + ([SPACE] + Spaced(parts[1..]))
  }

  /** Every argument of the launcher is either a fixed plain word or a quoted value. */
  predicate LauncherParts(parts: seq<Text>, values: seq<Text>) {
    && |parts| == |values|
    && forall i :: 0 <= i < |values| ==> parts[i] == Quoted(values[i]) || (parts[i] == values[i] && !NeedsQuoting(values[i]))
  }

  lemma {:induction false} SpacedIsCommandLine(parts: seq<Text>, values: seq<Text>)
    requires LauncherParts(parts, values)
    ensures Spaced(parts) == CommandLine(values)
    decreases |values|
  {
    if |values| > 1 { SpacedIsCommandLine(parts[1..], values[1..]); }
  }

  /** The process that the launcher starts receives the fixed words and the configured values. */
  lemma {:induction false} LauncherPassesValues(parts: seq<Text>, values: seq<Text>)
    requires LauncherParts(parts, values) && forall v :: v in values ==> Survives(v)
    ensures Arguments(Spaced(parts)) == values
  {
    SpacedIsCommandLine(parts, values);
    RoundTrip(values);
  }

  // ---------- What a launcher is published with ----------

  const MAX_LENGTH := 4096

  /** Bytes of a unit in UTF-8. */
  function Width(u: Unit): nat {
    match u
    case Stray(_) => 1
    case Rune(c) => if c < '\U{80}' then 1 else if c < '\U{800}' then 2 else if c < '\U{10000}' then 3 else 4
  }

  function Length(value: Text): nat { if value == [] then 0 else Width(value[0]) + Length(value[1..]) }

  predicate Control(u: Unit) { u.Rune? && (u.c < ' ' || '\U{7F}' <= u.c <= '\U{9F}') }

  predicate White(u: Unit) {
    && u.Rune?
    && (u.c in {'\t', '\n', '\U{B}', '\U{C}', '\r', ' ', '\U{85}', '\U{A0}', '\U{1680}', '\U{2028}', '\U{2029}', '\U{202F}', '\U{205F}', '\U{3000}'}
        || '\U{2000}' <= u.c <= '\U{200A}')
  }

  /** `ValidateBoundedString`, which the specification of a launcher applies to every value that it quotes. */
  predicate Accepted(value: Text) {
    && 1 <= Length(value) <= MAX_LENGTH
    && (forall u :: u in value ==> u.Rune? && !Control(u))
    && value != [] && !White(value[0]) && !White(value[|value| - 1])
  }

  /** Every list that can be published is received unchanged: fixed words and values that validation accepts. */
  lemma {:induction false} PublishedLauncherPassesValues(parts: seq<Text>, values: seq<Text>)
    requires LauncherParts(parts, values) && forall v :: v in values ==> Accepted(v) || !NeedsQuoting(v)
    ensures Arguments(Spaced(parts)) == values
  {
    hide NeedsQuoting, Length, White, Control;
    forall v | v in values ensures Survives(v) {}
    LauncherPassesValues(parts, values);
  }

  /** What validation refuses is all that the round trip can lose. */
  lemma LostIsRefused(value: Text)
    requires !Survives(value)
    ensures !Accepted(value)
  {
    var u :| u in value && u.Stray?;
  }
}
