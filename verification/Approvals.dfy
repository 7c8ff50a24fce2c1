/** The approval store: issued records and consumption records as files of one directory. */
module Approvals {
  import opened Canonical

  /** `wellFormed` is the verdict of the header checks other than that of the ID; time 0 is the zero time. */
  datatype Approval = Approval(
    id: string, actor: string, target: string, opClass: string, fingerprint: string, key: string, wellFormed: bool,
    issuedAt: int, expiresAt: int, consumed: bool, consumedAt: Option<int>)

  const MAX_ID_LENGTH := 128

  predicate Alphanumeric(c: char) { 'a' <= c <= 'z' || 'A' <= c <= 'Z' || '0' <= c <= '9' }

  predicate ValidId(s: string) {
    && 1 <= |s| <= MAX_ID_LENGTH
    && forall i :: 0 <= i < |s| ==> Alphanumeric(s[i]) || ((s[i] == '-' || s[i] == '_') && 0 < i < |s| - 1)
  }

  predicate Valid(a: Approval) {
    && ValidId(a.id) && a.wellFormed
    && a.issuedAt != 0 && a.expiresAt != 0 && a.issuedAt < a.expiresAt
    && (if a.consumed then a.consumedAt.Some? && a.consumedAt.value != 0 && a.issuedAt <= a.consumedAt.value <= a.expiresAt
        else a.consumedAt.None?)
  }

  /** `sameApprovalAuthority`, field by field; the verdict on the fields goes with them. */
  predicate SameAuthority(a: Approval, b: Approval) {
    && a.id == b.id && a.actor == b.actor && a.target == b.target && a.opClass == b.opClass
    && a.fingerprint == b.fingerprint && a.key == b.key && a.consumed == b.consumed
    && a.issuedAt == b.issuedAt && a.expiresAt == b.expiresAt && a.consumedAt == b.consumedAt
    && a.wellFormed == b.wellFormed
  }

  function IssuedPath(id: string): string { id + ".issued.json" }

  function ConsumedPath(id: string): string { id + ".json" }

  lemma DotPosition(a: string, b: string, restA: string, restB: string)
    requires ValidId(a) && ValidId(b) && a + "." + restA == b + "." + restB
    ensures a == b && restA == restB
  {
    var whole := a + "." + restA;
    assert whole[|a|] == '.' && whole[|b|] == '.';
    assert forall i :: 0 <= i < |a| ==> whole[i] == a[i];
    assert forall i :: 0 <= i < |b| ==> whole[i] == b[i];
    assert |a| == |b|;
    assert whole[..|a|] == a && whole[..|b|] == b && whole[|a| + 1..] == restA && whole[|b| + 1..] == restB;
  }

  /** No two records of canonical IDs share a file. */
  lemma PathsNeverCollide(a: string, b: string)
    requires ValidId(a) && ValidId(b)
    ensures IssuedPath(a) != ConsumedPath(b)
    ensures IssuedPath(a) == IssuedPath(b) <==> a == b
    ensures ConsumedPath(a) == ConsumedPath(b) <==> a == b
  {
    assert IssuedPath(a) == a + "." + "issued.json" && IssuedPath(b) == b + "." + "issued.json";
    assert ConsumedPath(a) == a + "." + "json" && ConsumedPath(b) == b + "." + "json";
    if IssuedPath(a) == ConsumedPath(b) { DotPosition(a, b, "issued.json", "json"); }
    if IssuedPath(a) == IssuedPath(b) { DotPosition(a, b, "issued.json", "issued.json"); }
    if ConsumedPath(a) == ConsumedPath(b) { DotPosition(a, b, "json", "json"); }
  }

  // ---------- Operations on the directory ----------

  type Files = map<string, Approval>

  datatype Outcome = Done | Invalid | Exists | NotIssued | AlreadyConsumed

  function IssueFile(f: Files, a: Approval): (Files, Outcome) {
    if !Valid(a) || a.consumed then (f, Invalid)
    else if IssuedPath(a.id) in f then (f, Exists)
    else (f[IssuedPath(a.id) := a], Done)
  }

  function CheckIssued(f: Files, a: Approval): Outcome {
    if !ValidId(a.id) then Invalid
    else if IssuedPath(a.id) !in f then NotIssued
    else if !Valid(f[IssuedPath(a.id)]) then Invalid
    else if f[IssuedPath(a.id)].consumed || !SameAuthority(f[IssuedPath(a.id)], a) then NotIssued
    else Done
  }

  function Consumption(a: Approval, at: int): Approval { a.(consumed := true, consumedAt := Some(at)) }

  function ConsumeFile(f: Files, a: Approval, at: int): (Files, Outcome) {
    if !CheckIssued(f, a).Done? then (f, CheckIssued(f, a))
    else if ConsumedPath(a.id) in f then (f, AlreadyConsumed)
    else (f[ConsumedPath(a.id) := Consumption(a, at)], Done)
  }

  /** The consumption record is read back, and so validated, before it is removed. */
  function ReleaseFile(f: Files, a: Approval): (Files, Outcome) {
    if !ValidId(a.id) then (f, Invalid)
    else if ConsumedPath(a.id) !in f then (f, Done)
    else
      var c := f[ConsumedPath(a.id)];
      if !Valid(c) then (f, Invalid)
      else if !c.consumed || !SameAuthority(c.(consumed := false, consumedAt := None), a) then (f, NotIssued)
      else (f - {ConsumedPath(a.id)}, Done)
  }

  class Store {
    var files: Files

    constructor ()
      ensures files == map[]
    {
      files := map[];
    }

    method Issue(a: Approval) returns (outcome: Outcome)
      modifies this
      ensures (files, outcome) == IssueFile(old(files), a)
    {
      if !Valid(a) || a.consumed { return Invalid; }
      var path := IssuedPath(a.id);
      if path in files { return Exists; }
      files := files[path := a];
      return Done;
    }

    method LoadIssued(id: string) returns (issued: Option<Approval>, outcome: Outcome)
      ensures outcome.Done? <==> issued.Some?
      ensures issued.Some? <==> ValidId(id) && IssuedPath(id) in files && Valid(files[IssuedPath(id)]) && !files[IssuedPath(id)].consumed
      ensures issued.Some? ==> issued.value == files[IssuedPath(id)]
      ensures ValidId(id) && IssuedPath(id) !in files ==> outcome == NotIssued
    {
      if !ValidId(id) { return None, Invalid; }
      var path := IssuedPath(id);
      if path !in files { return None, NotIssued; }
      var a := files[path];
      if !Valid(a) { return None, Invalid; }
      if a.consumed { return None, NotIssued; }
      return Some(a), Done;
    }

    method ValidateIssued(a: Approval) returns (outcome: Outcome)
      ensures outcome.Done? <==> ValidId(a.id) && IssuedPath(a.id) in files && files[IssuedPath(a.id)] == a && Valid(a) && !a.consumed
    {
      var issued;
      issued, outcome := LoadIssued(a.id);
      if !outcome.Done? { return; }
      if !SameAuthority(issued.value, a) { return NotIssued; }
    }

    method IsConsumed(id: string) returns (consumed: bool, outcome: Outcome)
      ensures outcome.Done? <==> ValidId(id)
      ensures outcome.Done? ==> consumed == (ConsumedPath(id) in files)
    {
      if !ValidId(id) { return false, Invalid; }
      return ConsumedPath(id) in files, Done;
    }

    method MarkConsumed(a: Approval, at: int) returns (outcome: Outcome)
      modifies this
      ensures files == ConsumeFile(old(files), a, at).0
      ensures outcome.Done? <==> ConsumeFile(old(files), a, at).1.Done?
      ensures outcome.AlreadyConsumed? <==> ConsumeFile(old(files), a, at).1.AlreadyConsumed?
    {
      outcome := ValidateIssued(a);
      if !outcome.Done? {
        return if outcome.AlreadyConsumed? then NotIssued else outcome;
      }
      var consumed := Consumption(a, at);
      var path := ConsumedPath(a.id);
      if path in files { return AlreadyConsumed; }
      files := files[path := consumed];
    }

    method ReleaseUnexecuted(a: Approval) returns (outcome: Outcome)
      modifies this
      ensures (files, outcome) == ReleaseFile(old(files), a)
    {
      if !ValidId(a.id) { return Invalid; }
      var path := ConsumedPath(a.id);
      if path !in files { return Done; }
      var consumed := files[path];
      if !Valid(consumed) { return Invalid; }
      var restored := consumed.(consumed := false, consumedAt := None);
      if !consumed.consumed || !SameAuthority(restored, a) { return NotIssued; }
      files := files - {path};
      return Done;
    }
  }

  // ---------- One use ----------

  datatype Call = Issue(a: Approval) | Consume(a: Approval, at: int) | Release(a: Approval)

  function Apply(f: Files, c: Call): Files {
    match c
    case Issue(a) => IssueFile(f, a).0
    case Consume(a, at) => ConsumeFile(f, a, at).0
    case Release(a) => ReleaseFile(f, a).0
  }

  function Run(f: Files, calls: seq<Call>): Files
    decreases |calls|
  {
    if calls == [] then f else Run(Apply(f, calls[0]), calls[1..])
  }

  /** Issued records are as issued, and a consumption record has an issued record of the same authority. */
  ghost predicate Inv(f: Files) {
    forall id :: ValidId(id) ==>
      && (IssuedPath(id) in f ==> f[IssuedPath(id)].id == id && Valid(f[IssuedPath(id)]) && !f[IssuedPath(id)].consumed)
      && (ConsumedPath(id) in f ==>
            && IssuedPath(id) in f && f[ConsumedPath(id)].consumed && f[ConsumedPath(id)].consumedAt.Some?
            && f[ConsumedPath(id)].(consumed := false, consumedAt := None) == f[IssuedPath(id)])
  }

  lemma ApplyKeeps(f: Files, c: Call)
    requires Inv(f)
    ensures Inv(Apply(f, c))
    ensures forall id :: ValidId(id) && IssuedPath(id) in f ==> IssuedPath(id) in Apply(f, c) && Apply(f, c)[IssuedPath(id)] == f[IssuedPath(id)]
  {
    forall id | ValidId(id) ensures ValidId(c.a.id) ==>
        && IssuedPath(c.a.id) != ConsumedPath(id) && IssuedPath(id) != ConsumedPath(c.a.id)
        && (IssuedPath(c.a.id) == IssuedPath(id) <==> c.a.id == id) && (ConsumedPath(c.a.id) == ConsumedPath(id) <==> c.a.id == id)
    {
      if ValidId(c.a.id) { PathsNeverCollide(c.a.id, id); PathsNeverCollide(id, c.a.id); }
    }
    hide IssuedPath, ConsumedPath, ValidId, Valid;
  }

  /** One success more or less: a consumption of this approval, or a release that removed its record. */
  function Change(f: Files, c: Call, id: string): int {
    match c
    case Issue(_) => 0
    case Consume(a, at) => if a.id == id && ConsumeFile(f, a, at).1.Done? then 1 else 0
    case Release(a) => if a.id == id && ReleaseFile(f, a).1.Done? && ConsumedPath(id) in f then 0 - 1 else 0
  }

  /** How often an approval was consumed, less how often it was given back. */
  function Balance(f: Files, calls: seq<Call>, id: string): int
    decreases |calls|
  {
    if calls == [] then 0 else Change(f, calls[0], id) + Balance(Apply(f, calls[0]), calls[1..], id)
  }

  lemma ChangeIsEffect(f: Files, c: Call, id: string)
    requires Inv(f) && ValidId(id)
    ensures (if ConsumedPath(id) in f then 1 else 0) + Change(f, c, id) == if ConsumedPath(id) in Apply(f, c) then 1 else 0
  {
    if ValidId(c.a.id) { PathsNeverCollide(c.a.id, id); }
    hide IssuedPath, ConsumedPath, Valid;
  }

  /** A consumption succeeds exactly if this very approval, field by field, is issued and not consumed; its record
      differs from the issued one in the instant alone. Until it is given back none succeeds again, whoever asks. */
  lemma ConsumeOnce(f: Files, a: Approval, at: int)
    requires Inv(f)
    ensures ConsumeFile(f, a, at).1.Done? <==>
              ValidId(a.id) && IssuedPath(a.id) in f && f[IssuedPath(a.id)] == a && ConsumedPath(a.id) !in f
    ensures ConsumeFile(f, a, at).1.Done? ==>
              ConsumeFile(f, a, at).0 == f[ConsumedPath(a.id) := f[IssuedPath(a.id)].(consumed := true, consumedAt := Some(at))]
    ensures !ConsumeFile(f, a, at).1.Done? ==> ConsumeFile(f, a, at).0 == f
    ensures ConsumeFile(f, a, at).1.Done? ==> forall other: Approval, again: int ::
              other.id == a.id ==> !ConsumeFile(ConsumeFile(f, a, at).0, other, again).1.Done?
  {
  }

  /** Giving back removes exactly the consumption record of the approval as issued, and only a readable one; with no
      record there is nothing to do, and otherwise nothing is removed. */
  lemma ReleaseOnce(f: Files, a: Approval)
    requires Inv(f)
    ensures var (g, outcome) := ReleaseFile(f, a);
            var stands := ValidId(a.id) && ConsumedPath(a.id) in f;
            && (outcome.Done? <==> ValidId(a.id) && (stands ==> f[IssuedPath(a.id)] == a && Valid(f[ConsumedPath(a.id)])))
            && g == (if stands && outcome.Done? then f - {ConsumedPath(a.id)} else f)
  {
  }

  /** An approval is issued exactly if its ID is canonical and unused, it is to expire after it is issued, and it says
      nothing of a consumption; it is stored as it is. */
  lemma IssueOnce(f: Files, a: Approval)
    ensures var (g, outcome) := IssueFile(f, a);
            && (outcome.Done? <==>
                  && ValidId(a.id) && a.wellFormed && IssuedPath(a.id) !in f && !a.consumed && a.consumedAt.None?
                  && a.issuedAt != 0 && a.expiresAt != 0 && a.issuedAt < a.expiresAt)
            && g == (if outcome.Done? then f[IssuedPath(a.id) := a] else f)
  {
  }

  /** Over any calls the issued records stay as they are and every approval is consumed at most once more than it
      was given back. */
  lemma {:induction false} RunKeepsOneUse(f: Files, calls: seq<Call>, id: string)
    requires Inv(f) && ValidId(id)
    ensures Inv(Run(f, calls))
    ensures (if ConsumedPath(id) in f then 1 else 0) + Balance(f, calls, id) == if ConsumedPath(id) in Run(f, calls) then 1 else 0
    ensures IssuedPath(id) in f ==> IssuedPath(id) in Run(f, calls) && Run(f, calls)[IssuedPath(id)] == f[IssuedPath(id)]
    decreases |calls|
  {
    hide Inv, Apply, Change, IssuedPath, ConsumedPath;
    if calls != [] {
      ChangeIsEffect(f, calls[0], id);
      ApplyKeeps(f, calls[0]);
      RunKeepsOneUse(Apply(f, calls[0]), calls[1..], id);
    }
  }

  /** Giving back undoes a consumption exactly when it was recorded within the approval's validity: a record
      with another instant is written, but no longer accepted when read back. */
  lemma ReleaseUndoesConsumption(f: Files, a: Approval, at: int)
    requires Inv(f) && ConsumeFile(f, a, at).1.Done?
    ensures var (g, outcome) := ReleaseFile(ConsumeFile(f, a, at).0, a);
            && (outcome.Done? <==> at != 0 && a.issuedAt <= at <= a.expiresAt)
            && (outcome.Done? ==> g == f)
            && (!outcome.Done? ==> g == ConsumeFile(f, a, at).0)
  {
    var consumed := ConsumeFile(f, a, at).0;
    assert consumed - {ConsumedPath(a.id)} == f;
  }
}
