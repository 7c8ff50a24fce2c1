/** The text an operation fingerprint is a digest of, with the validation that precedes it,
    and the exact condition under which two operations share that text. */
module Fingerprint {
  import opened ByteStrings
  import opened Canonical
  import opened CanonicalEncoder
  import opened Parameters
  import Rfc3339

  // ---------- Bounded strings ----------

  predicate ControlAt(s: string, i: nat)
    requires i < |s|
  {
    || s[i] < ' ' || s[i] == '\U{7F}'
    || (s[i] == '\U{C2}' && i + 1 < |s| && '\U{80}' <= s[i + 1] <= '\U{9F}')
  }

  /** The encodings of the white space runes that are not control characters. */
  predicate SpaceRune(r: string) {
    || r == " " || r == "\U{C2}\U{A0}" || r == "\U{E1}\U{9A}\U{80}"
    || (|r| == 3 && r[0] == '\U{E2}' && r[1] == '\U{80}' && ('\U{80}' <= r[2] <= '\U{8A}' || r[2] in "\U{A8}\U{A9}\U{AF}"))
    || r == "\U{E2}\U{81}\U{9F}" || r == "\U{E3}\U{80}\U{80}"
  }

  predicate Trimmed(s: string) {
    forall n :: 1 <= n <= 3 && n <= |s| ==> !SpaceRune(s[..n]) && !SpaceRune(s[|s| - n..])
  }

  /** `ValidateBoundedString`. */
  predicate Bounded(s: string, least: nat, most: nat) {
    && least <= |s| <= most
    && ValidUtf8(s)
    && Trimmed(s)
    && forall i :: 0 <= i < |s| ==> !ControlAt(s, i)
  }

  lemma BoundedIsOneLine(s: string, least: nat, most: nat)
    requires Bounded(s, least, most)
    ensures '\n' !in s && Encodable(s)
  {
    if c :| c in s && c < ' ' {
      var i :| 0 <= i < |s| && s[i] == c;
      assert ControlAt(s, i);
    }
  }

  // ---------- Operations ----------

  datatype Operation = Operation(
    caller: string, effectiveActor: string,
    // the outcome of the scope and delegation checks of ActorContext.Validate
    actorAuthority: bool,
    target: string, kind: string, opClass: string, reason: string, deadline: Rfc3339.Instant,
    key: string, capability: string, scopes: seq<string>, sensitivity: string,
    parameters: Option<map<string, Value>>)

  predicate IsMutation(opClass: string) { opClass == "reversible_mutation" || opClass == "destructive_privileged" }

  predicate ValidClass(opClass: string) { opClass == "observe" || IsMutation(opClass) || opClass == "forbidden" }

  predicate ValidSensitivity(s: string) { s == "" || s == "standard" || s == "sensitive" }

  predicate ValidHeader(op: Operation) {
    && Bounded(op.caller, 1, 256) && Bounded(op.effectiveActor, 1, 256) && op.actorAuthority
    && Bounded(op.target, 1, 256)
    && Bounded(op.kind, 1, 128)
    && ValidClass(op.opClass)
    && ValidSensitivity(op.sensitivity)
    && op.deadline != Rfc3339.ZERO_TIME
    && (op.capability != "" ==> Bounded(op.capability, 1, 256))
  }

  predicate ValidReasonAndKey(op: Operation) {
    if IsMutation(op.opClass) then Bounded(op.key, 1, 256) && Bounded(op.reason, 1, 1024)
    else (op.reason != "" ==> Bounded(op.reason, 1, 1024)) && (op.key != "" ==> Bounded(op.key, 1, 256))
  }

  /** Exactly the operations that have a fingerprint. */
  ghost predicate Fingerprintable(op: Operation) {
    && op.deadline.Valid()
    && ValidHeader(op) && ValidReasonAndKey(op)
    && (forall i :: 0 <= i < |op.scopes| ==> Bounded(op.scopes[i], 1, 256))
    && NormalParameters(op.parameters).Some?
  }

  /** What makes an operation fit for a fingerprint, field by field: a mutation needs a key and a reason, any other
      operation may leave them out. */
  lemma FingerprintedExactly(op: Operation)
    requires op.deadline.Valid()
    ensures
      var mutates := op.opClass in {"reversible_mutation", "destructive_privileged"};
      Fingerprintable(op) <==>
      && Bounded(op.caller, 1, 256) && Bounded(op.effectiveActor, 1, 256) && op.actorAuthority
      && Bounded(op.target, 1, 256) && Bounded(op.kind, 1, 128)
      && (mutates || op.opClass in {"observe", "forbidden"})
      && (Bounded(op.key, 1, 256) || (op.key == "" && !mutates))
      && (Bounded(op.reason, 1, 1024) || (op.reason == "" && !mutates))
      && (Bounded(op.capability, 1, 256) || op.capability == "")
      && op.deadline != Rfc3339.Instant(1, 1, 1, 0, 0, 0, 0)
      && op.sensitivity in {"", "standard", "sensitive"}
      && (forall scope :: scope in op.scopes ==> Bounded(scope, 1, 256))
      && AcceptableParameters(op.parameters)
  {
    AcceptedParameters(op.parameters);
    hide NormalParameters, AcceptableParameters, ValidUtf8, Trimmed, ControlAt;
  }

  // ---------- The preimage ----------

  function Lines(lines: seq<string>): string {
    if lines == [] then "" else lines[0] + "\n" + Lines(lines[1..])
  }

  function IdentityLines(op: Operation, includeDeadline: bool): seq<string> {
    [if includeDeadline then "AMC_OP_V2" else "AMC_IDEMP_V1",
     "CALLER:" + op.caller, "ACTOR:" + op.effectiveActor, "TARGET:" + op.target,
     "KIND:" + op.kind, "CLASS:" + op.opClass, "REASON:" + op.reason]
  }

  function HeaderLines(op: Operation, includeDeadline: bool): seq<string> {
    IdentityLines(op, includeDeadline)
    + (if includeDeadline then ["DEADLINE:" + Rfc3339.Format(op.deadline)] else [])
    + ["IDEMPOTENCY:" + op.key, "CAPABILITY:" + op.capability]
  }

  ghost function ScopesCanon(op: Operation): Canon {
    TextListCanon(SortedKeys(Elements(op.scopes)))
  }

  ghost function AfterScopes(op: Operation): string
    requires NormalParameters(op.parameters).Some?
  {
    "\n" + ("EVIDENCE_SENSITIVITY:" + op.sensitivity + "\n"
            + ("PARAMS:" + (Encoding(NormalParameters(op.parameters).value) + "\n")))
  }

  ghost function Preimage(op: Operation, includeDeadline: bool): string
    requires NormalParameters(op.parameters).Some?
  {
    Lines(HeaderLines(op, includeDeadline)) + ("SCOPES:" + (Encoding(ScopesCanon(op)) + AfterScopes(op)))
  }

  // ---------- Splitting texts at line ends ----------

  lemma {:induction false} LineSplits(a: string, b: string, restA: string, restB: string)
    requires '\n' !in a && '\n' !in b && a + "\n" + restA == b + "\n" + restB
    ensures a == b && restA == restB
  {
    var whole := a + "\n" + restA;
    assert whole[|a|] == '\n' && whole[|b|] == '\n';
    assert forall i :: 0 <= i < |a| ==> a[i] in a && whole[i] == a[i];
    assert forall i :: 0 <= i < |b| ==> b[i] in b && whole[i] == b[i];
    assert |a| == |b|;
    assert whole[..|a|] == a && whole[..|b|] == b;
    assert whole[|a| + 1..] == restA && whole[|b| + 1..] == restB;
  }

  lemma {:induction false} LinesSplit(a: seq<string>, b: seq<string>, restA: string, restB: string)
    requires |a| == |b| && Lines(a) + restA == Lines(b) + restB
    requires forall i :: 0 <= i < |a| ==> '\n' !in a[i] && '\n' !in b[i]
    ensures a == b && restA == restB
  {
    if a == [] {
      assert "" + restA == restA && "" + restB == restB;
    } else {
      var tailA, tailB := Lines(a[1..]) + restA, Lines(b[1..]) + restB;
      assert Lines(a) + restA == a[0] + "\n" + tailA;
      assert Lines(b) + restB == b[0] + "\n" + tailB;
      LineSplits(a[0], b[0], tailA, tailB);
      LinesSplit(a[1..], b[1..], restA, restB);
      assert a == [a[0]] + a[1..] && b == [b[0]] + b[1..];
    }
  }

  predicate OneLineFields(op: Operation) {
    && '\n' !in op.caller && '\n' !in op.effectiveActor && '\n' !in op.target && '\n' !in op.kind
    && '\n' !in op.opClass && '\n' !in op.reason && '\n' !in op.key && '\n' !in op.capability
    && '\n' !in op.sensitivity
  }

  lemma FieldsAreLines(op: Operation)
    requires Fingerprintable(op)
    ensures OneLineFields(op)
  {
    hide Bounded, NormalParameters, Encodable, ValidClass, ValidSensitivity, ValidReasonAndKey;
    BoundedIsOneLine(op.caller, 1, 256);
    BoundedIsOneLine(op.effectiveActor, 1, 256);
    BoundedIsOneLine(op.target, 1, 256);
    BoundedIsOneLine(op.kind, 1, 128);
    if op.capability != "" { BoundedIsOneLine(op.capability, 1, 256); }
    ReasonAndKeyAreLines(op);
    WordsAreLines(op);
  }

  lemma ReasonAndKeyAreLines(op: Operation)
    requires ValidReasonAndKey(op)
    ensures '\n' !in op.reason && '\n' !in op.key
  {
    hide Bounded, Encodable, IsMutation;
    if op.reason != "" { BoundedIsOneLine(op.reason, 1, 1024); }
    if op.key != "" { BoundedIsOneLine(op.key, 1, 256); }
  }

  lemma WordsAreLines(op: Operation)
    requires ValidClass(op.opClass) && ValidSensitivity(op.sensitivity)
    ensures '\n' !in op.opClass && '\n' !in op.sensitivity
  {
    assert '\n' !in "observe" && '\n' !in "reversible_mutation" && '\n' !in "destructive_privileged" && '\n' !in "forbidden";
    assert '\n' !in "" && '\n' !in "standard" && '\n' !in "sensitive";
  }

  lemma LabelledLine(prefix: string, s: string)
    requires '\n' !in prefix && '\n' !in s
    ensures '\n' !in prefix + s
  {
  }

  lemma HeaderIsLines(op: Operation, includeDeadline: bool)
    requires OneLineFields(op)
    ensures forall i :: 0 <= i < |HeaderLines(op, includeDeadline)| ==> '\n' !in HeaderLines(op, includeDeadline)[i]
  {
    hide Rfc3339.Format;
    Rfc3339.FormatHasNoNewline(op.deadline);
    LabelledLine("CALLER:", op.caller);
    LabelledLine("ACTOR:", op.effectiveActor);
    LabelledLine("TARGET:", op.target);
    LabelledLine("KIND:", op.kind);
    LabelledLine("CLASS:", op.opClass);
    LabelledLine("REASON:", op.reason);
    LabelledLine("DEADLINE:", Rfc3339.Format(op.deadline));
    LabelledLine("IDEMPOTENCY:", op.key);
    LabelledLine("CAPABILITY:", op.capability);
  }

  lemma LabelDrops(prefix: string, a: string, b: string)
    requires prefix + a == prefix + b
    ensures a == b
  {
    assert (prefix + a)[|prefix|..] == a && (prefix + b)[|prefix|..] == b;
  }

  lemma FieldAt(linesA: seq<string>, linesB: seq<string>, i: nat, prefix: string, a: string, b: string)
    requires linesA == linesB && i < |linesA| && linesA[i] == prefix + a && linesB[i] == prefix + b
    ensures a == b
  {
    LabelDrops(prefix, a, b);
  }

  lemma HeaderInjective(a: Operation, b: Operation, includeDeadline: bool)
    requires HeaderLines(a, includeDeadline) == HeaderLines(b, includeDeadline)
    ensures a.caller == b.caller && a.effectiveActor == b.effectiveActor && a.target == b.target
    ensures a.kind == b.kind && a.opClass == b.opClass && a.reason == b.reason
    ensures a.key == b.key && a.capability == b.capability
    ensures includeDeadline ==> Rfc3339.Format(a.deadline) == Rfc3339.Format(b.deadline)
  {
    var linesA, linesB := HeaderLines(a, includeDeadline), HeaderLines(b, includeDeadline);
    var key := if includeDeadline then 8 else 7;
    FieldAt(linesA, linesB, 1, "CALLER:", a.caller, b.caller);
    FieldAt(linesA, linesB, 2, "ACTOR:", a.effectiveActor, b.effectiveActor);
    FieldAt(linesA, linesB, 3, "TARGET:", a.target, b.target);
    FieldAt(linesA, linesB, 4, "KIND:", a.kind, b.kind);
    FieldAt(linesA, linesB, 5, "CLASS:", a.opClass, b.opClass);
    FieldAt(linesA, linesB, 6, "REASON:", a.reason, b.reason);
    FieldAt(linesA, linesB, key, "IDEMPOTENCY:", a.key, b.key);
    FieldAt(linesA, linesB, key + 1, "CAPABILITY:", a.capability, b.capability);
    if includeDeadline {
      FieldAt(linesA, linesB, 7, "DEADLINE:", Rfc3339.Format(a.deadline), Rfc3339.Format(b.deadline));
    }
  }

  // ---------- Exactness ----------

  lemma TailInjective(a: Operation, b: Operation)
    requires Fingerprintable(a) && Fingerprintable(b) && AfterScopes(a) == AfterScopes(b)
    ensures a.sensitivity == b.sensitivity
    ensures NormalParameters(a.parameters) == NormalParameters(b.parameters)
  {
    var paramsA := Encoding(NormalParameters(a.parameters).value) + "\n";
    var paramsB := Encoding(NormalParameters(b.parameters).value) + "\n";
    FieldsAreLines(a);
    FieldsAreLines(b);
    LabelDrops("\n", "EVIDENCE_SENSITIVITY:" + a.sensitivity + "\n" + ("PARAMS:" + paramsA),
      "EVIDENCE_SENSITIVITY:" + b.sensitivity + "\n" + ("PARAMS:" + paramsB));
    LineSplits("EVIDENCE_SENSITIVITY:" + a.sensitivity, "EVIDENCE_SENSITIVITY:" + b.sensitivity,
      "PARAMS:" + paramsA, "PARAMS:" + paramsB);
    LabelDrops("EVIDENCE_SENSITIVITY:", a.sensitivity, b.sensitivity);
    LabelDrops("PARAMS:", paramsA, paramsB);
    EncodingSplits(NormalParameters(a.parameters).value, NormalParameters(b.parameters).value, "\n", "\n");
  }

  lemma ScopesInjective(a: Operation, b: Operation)
    requires ScopesCanon(a) == ScopesCanon(b)
    ensures Elements(a.scopes) == Elements(b.scopes)
  {
    var keysA, keysB := SortedKeys(Elements(a.scopes)), SortedKeys(Elements(b.scopes));
    assert |ScopesCanon(a).items| == |keysA| && |ScopesCanon(b).items| == |keysB|;
    forall i | 0 <= i < |keysA| ensures keysA[i] == keysB[i] {
      assert ScopesCanon(a).items[i] == CText(keysA[i]) && ScopesCanon(b).items[i] == CText(keysB[i]);
    }
    assert keysA == keysB;
  }

  /** The main result: with the deadline bound or not, equal texts mean equal requests, and
      equal requests (whatever the order or repetition of scopes, whatever the map order or
      representation of the parameters) have equal texts. */
  lemma PreimageExact(a: Operation, b: Operation, includeDeadline: bool)
    requires Fingerprintable(a) && Fingerprintable(b)
    ensures Preimage(a, includeDeadline) == Preimage(b, includeDeadline)
            <==>
            && a.caller == b.caller && a.effectiveActor == b.effectiveActor && a.target == b.target
            && a.kind == b.kind && a.opClass == b.opClass && a.reason == b.reason && a.key == b.key
            && a.capability == b.capability && Elements(a.scopes) == Elements(b.scopes)
            && a.sensitivity == b.sensitivity && SameParameters(a.parameters, b.parameters)
            && (includeDeadline ==> a.deadline == b.deadline)
  {
    SameNormal(a.parameters, b.parameters);
    if Preimage(a, includeDeadline) == Preimage(b, includeDeadline) { PreimageDetermines(a, b, includeDeadline); }
    hide Fingerprintable, NormalParameters, SameParameters;
  }

  lemma PreimageDetermines(a: Operation, b: Operation, includeDeadline: bool)
    requires Fingerprintable(a) && Fingerprintable(b) && Preimage(a, includeDeadline) == Preimage(b, includeDeadline)
    ensures a.caller == b.caller && a.effectiveActor == b.effectiveActor && a.target == b.target
    ensures a.kind == b.kind && a.opClass == b.opClass && a.reason == b.reason && a.key == b.key
    ensures a.capability == b.capability && Elements(a.scopes) == Elements(b.scopes)
    ensures a.sensitivity == b.sensitivity && NormalParameters(a.parameters) == NormalParameters(b.parameters)
    ensures includeDeadline ==> a.deadline == b.deadline
  {
    assert |HeaderLines(a, includeDeadline)| == |HeaderLines(b, includeDeadline)|;
    assert !StartsWithDigit(AfterScopes(a)) && !StartsWithDigit(AfterScopes(b));
    hide Lines, HeaderLines, IdentityLines, OneLineFields, AfterScopes, ScopesCanon, Encoding, Elements;
    var scopesA := Encoding(ScopesCanon(a)) + AfterScopes(a);
    var scopesB := Encoding(ScopesCanon(b)) + AfterScopes(b);
    FieldsAreLines(a);
    FieldsAreLines(b);
    HeaderIsLines(a, includeDeadline);
    HeaderIsLines(b, includeDeadline);
    LinesSplit(HeaderLines(a, includeDeadline), HeaderLines(b, includeDeadline),
      "SCOPES:" + scopesA, "SCOPES:" + scopesB);
    HeaderInjective(a, b, includeDeadline);
    LabelDrops("SCOPES:", scopesA, scopesB);
    EncodingSplits(ScopesCanon(a), ScopesCanon(b), AfterScopes(a), AfterScopes(b));
    ScopesInjective(a, b);
    TailInjective(a, b);
    if includeDeadline { Rfc3339.FormatInjective(a.deadline, b.deadline); }
  }

  /** An operation fingerprint and an idempotency fingerprint are never over the same text. */
  lemma KindsNeverCoincide(a: Operation, b: Operation)
    requires Fingerprintable(a) && Fingerprintable(b)
    ensures Preimage(a, true) != Preimage(b, false)
  {
    if Preimage(a, true) == Preimage(b, false) {
      var restA := FirstLine(a, true);
      var restB := FirstLine(b, false);
      LineSplits("AMC_OP_V2", "AMC_IDEMP_V1", restA, restB);
    }
  }

  lemma {:induction false} LinesHead(lines: seq<string>, tail: string)
    requires lines != []
    ensures Lines(lines) + tail == lines[0] + "\n" + (Lines(lines[1..]) + tail)
  {
  }

  lemma FirstLine(op: Operation, includeDeadline: bool) returns (rest: string)
    requires NormalParameters(op.parameters).Some?
    ensures Preimage(op, includeDeadline) ==
            (if includeDeadline then "AMC_OP_V2" else "AMC_IDEMP_V1") + "\n" + rest
  {
    hide Encoding, ScopesCanon, AfterScopes, Lines;
    var tail := "SCOPES:" + (Encoding(ScopesCanon(op)) + AfterScopes(op));
    LinesHead(HeaderLines(op, includeDeadline), tail);
    rest := Lines(HeaderLines(op, includeDeadline)[1..]) + tail;
  }

  // ---------- The program ----------

  /** The loop of `canonicalizeScopes`: check every scope, keep the first of each. */
  method DistinctScopes(scopes: seq<string>) returns (ok: bool, distinct: seq<string>)
    ensures ok <==> forall i :: 0 <= i < |scopes| ==> Bounded(scopes[i], 1, 256)
    ensures ok ==> Elements(distinct) == Elements(scopes)
    ensures ok ==> forall i, j :: 0 <= i < j < |distinct| ==> distinct[i] != distinct[j]
  {
    var seen: set<string> := {};
    distinct := [];
    for n := 0 to |scopes|
      invariant forall i :: 0 <= i < n ==> Bounded(scopes[i], 1, 256)
      invariant seen == Elements(distinct) == Elements(scopes[..n])
      invariant forall i, j :: 0 <= i < j < |distinct| ==> distinct[i] != distinct[j]
    {
      if !Bounded(scopes[n], 1, 256) { return false, []; }
      ElementsSnoc(scopes[..n], scopes[n]);
      assert scopes[..n + 1] == scopes[..n] + [scopes[n]];
      if scopes[n] !in seen {
        ElementsSnoc(distinct, scopes[n]);
        assert forall i :: 0 <= i < |distinct| ==> distinct[i] in Elements(distinct);
        seen := seen + {scopes[n]};
        distinct := distinct + [scopes[n]];
      }
    }
    assert scopes[..|scopes|] == scopes;
    return true, distinct;
  }

  lemma ElementsSnoc(s: seq<string>, last: string)
    ensures Elements(s + [last]) == Elements(s) + {last}
  {
  }

  lemma ScopesEncodable(scopes: seq<string>, sorted: seq<string>)
    requires forall i :: 0 <= i < |scopes| ==> Bounded(scopes[i], 1, 256)
    requires Elements(sorted) == Elements(scopes)
    ensures AllEncodable(sorted)
  {
    forall i | 0 <= i < |sorted| ensures Encodable(sorted[i]) {
      assert sorted[i] in Elements(sorted);
      var j :| 0 <= j < |scopes| && scopes[j] == sorted[i];
      BoundedIsOneLine(scopes[j], 1, 256);
    }
  }

  /** `canonicalizeScopes`: drop repetitions, then sort. */
  method CanonicalizeScopes(scopes: seq<string>) returns (ok: bool, sorted: seq<string>)
    ensures ok <==> forall i :: 0 <= i < |scopes| ==> Bounded(scopes[i], 1, 256)
    ensures ok ==> sorted == SortedKeys(Elements(scopes)) && AllEncodable(sorted)
  {
    if |scopes| == 0 { return true, []; }
    ok, sorted := DistinctScopes(scopes);
    if !ok { return; }
    sorted := SortStrings(sorted);
    ScopesEncodable(scopes, sorted);
  }

  /** `computeFingerprintInternal` up to the digest of the buffer. */
  method ComputePreimage(op: Operation, includeDeadline: bool) returns (r: Option<string>)
    requires op.deadline.Valid()
    ensures r == if Fingerprintable(op) then Some(Preimage(op, includeDeadline)) else None
  {
    if !ValidHeader(op) || !ValidReasonAndKey(op) { return None; }
    var scopesOk, sortedScopes := CanonicalizeScopes(op.scopes);
    if !scopesOk { return None; }
    var canonicalParams := CanonicalizeParameters(op.parameters);
    if canonicalParams.None? { return None; }
    var buf := new Buffer();
    WriteHeader(buf, op, includeDeadline);
    buf.WriteString("SCOPES:");
    var encoded := EncodeStringSlice(buf, sortedScopes);
    if !encoded { return None; }
    buf.WriteString("\n");
    buf.WriteString("EVIDENCE_SENSITIVITY:" + op.sensitivity + "\n");
    buf.WriteString("PARAMS:");
    buf.WriteString(canonicalParams.value);
    buf.WriteString("\n");
    PreimageAssembled(op, includeDeadline);
    return Some(buf.data);
  }

  lemma PreimageAssembled(op: Operation, includeDeadline: bool)
    requires NormalParameters(op.parameters).Some?
    ensures Preimage(op, includeDeadline) ==
            Lines(HeaderLines(op, includeDeadline)) + "SCOPES:" + Encoding(ScopesCanon(op)) + "\n"
            + ("EVIDENCE_SENSITIVITY:" + op.sensitivity + "\n") + "PARAMS:"
            + Encoding(NormalParameters(op.parameters).value) + "\n"
  {
    hide Encoding, ScopesCanon, Lines, HeaderLines, NormalParameters;
  }

  method WriteIdentity(buf: Buffer, op: Operation, includeDeadline: bool)
    requires buf.data == ""
    modifies buf
    ensures buf.data == Lines(IdentityLines(op, includeDeadline))
  {
    ghost var written := [];
    if includeDeadline {
      written := WriteLine(buf, "AMC_OP_V2", written);
    } else {
      written := WriteLine(buf, "AMC_IDEMP_V1", written);
    }
    written := WriteLine(buf, "CALLER:" + op.caller, written);
    written := WriteLine(buf, "ACTOR:" + op.effectiveActor, written);
    written := WriteLine(buf, "TARGET:" + op.target, written);
    written := WriteLine(buf, "KIND:" + op.kind, written);
    written := WriteLine(buf, "CLASS:" + op.opClass, written);
    written := WriteLine(buf, "REASON:" + op.reason, written);
    assert written == IdentityLines(op, includeDeadline);
  }

  method WriteHeader(buf: Buffer, op: Operation, includeDeadline: bool)
    requires buf.data == ""
    modifies buf
    ensures buf.data == Lines(HeaderLines(op, includeDeadline))
  {
    WriteIdentity(buf, op, includeDeadline);
    ghost var written := IdentityLines(op, includeDeadline);
    if includeDeadline {
      written := WriteLine(buf, "DEADLINE:" + Rfc3339.Format(op.deadline), written);
    }
    written := WriteLine(buf, "IDEMPOTENCY:" + op.key, written);
    written := WriteLine(buf, "CAPABILITY:" + op.capability, written);
    assert written == HeaderLines(op, includeDeadline);
  }

  /** One `fmt.Fprintf` of a line after the lines written so far. */
  method WriteLine(buf: Buffer, line: string, ghost written: seq<string>) returns (ghost after: seq<string>)
    requires buf.data == Lines(written)
    modifies buf
    ensures after == written + [line] && buf.data == Lines(after)
  {
    buf.WriteString(line + "\n");
    LinesSnoc(written, line);
    after := written + [line];
  }

  lemma {:induction false} LinesSnoc(lines: seq<string>, last: string)
    ensures Lines(lines + [last]) == Lines(lines) + (last + "\n")
  {
    if lines != [] {
      assert (lines + [last])[1..] == lines[1..] + [last];
      LinesSnoc(lines[1..], last);
    }
  }
}
