/** The append-only audit log: exact terminal evidence, and the indexed batch that must agree with
    ensuring the receipts one at a time. */
module AuditLog {
  import opened Receipts

  const SCHEMA := "1"
  const ADMISSION := "admission_intent"
  const TERMINAL := "terminal_outcome"

  datatype Event = Event(
    schema: string, timestamp: int, eventType: string, identity: Identity,
    receiptId: string, outcome: ExecutionOutcome, rollbackRef: string)

  const NO_OUTCOME := ExecutionOutcome("", 0, "", "")

  function TerminalEvent(r: Receipt): Event {
    Event(SCHEMA, r.completedAt, TERMINAL, r.identity, r.id, r.outcome, r.rollbackRef)
  }

  function AdmissionEvent(now: int, identity: Identity): Event {
    Event(SCHEMA, now, ADMISSION, identity.(idempotencyFingerprint := "", opClass := ""), "", NO_OUTCOME, "")
  }

  /** The event says who is admitted to do what, and bears no receipt. */
  predicate Admits(e: Event, identity: Identity, now: int) {
    && e.schema == "1" && e.eventType == "admission_intent" && e.timestamp == now && e.receiptId == ""
    && e.identity.actor == identity.actor && e.identity.target == identity.target && e.identity.kind == identity.kind
    && e.identity.fingerprint == identity.fingerprint && e.identity.key == identity.key
  }

  predicate ValidEnvelope(e: Event) { e.schema == SCHEMA && (e.eventType == ADMISSION || e.eventType == TERMINAL) }

  predicate Concerns(e: Event, id: string) { e.eventType == TERMINAL && e.receiptId == id }

  predicate Matches(e: Event, r: Receipt) {
    e.identity == r.identity && e.outcome == r.outcome && e.rollbackRef == r.rollbackRef
  }

  // ---------- What the log proves ----------

  predicate WellFormed(log: seq<Event>) { forall e :: e in log ==> ValidEnvelope(e) }

  /** The terminal events of one receipt ID, oldest first. */
  function Evidence(log: seq<Event>, id: string): (found: seq<Event>)
    ensures forall e :: e in found <==> e in log && Concerns(e, id)
  {
    if log == [] then []
    else
      var before := Evidence(log[..|log| - 1], id);
      assert log == log[..|log| - 1] + [log[|log| - 1]];
      if Concerns(log[|log| - 1], id) then before + [log[|log| - 1]] else before
  }

  lemma {:induction false} EvidenceAppend(log: seq<Event>, e: Event, id: string)
    ensures Evidence(log + [e], id) == Evidence(log, id) + if Concerns(e, id) then [e] else []
  {
    assert (log + [e])[..|log|] == log;
  }

  lemma {:induction false} EvidenceOfEvidence(log: seq<Event>, id: string)
    ensures Evidence(Evidence(log, id), id) == Evidence(log, id)
    decreases |log|
  {
    if log != [] {
      EvidenceOfEvidence(log[..|log| - 1], id);
      if Concerns(log[|log| - 1], id) {
        EvidenceAppend(Evidence(log[..|log| - 1], id), log[|log| - 1], id);
      }
    }
  }

  lemma {:induction false} EvidenceGrows(log: seq<Event>, more: seq<Event>, id: string)
    ensures Evidence(log, id) <= Evidence(log + more, id)
    decreases |more|
  {
    if more == [] {
      assert log + more == log;
    } else {
      var init := more[..|more| - 1];
      EvidenceGrows(log, init, id);
      assert log + more == (log + init) + [more[|more| - 1]];
      EvidenceAppend(log + init, more[|more| - 1], id);
    }
  }

  datatype Finding = Found | Missing | Contradicted

  /** The log proves a receipt when exactly one terminal event bears its ID and that event matches it. */
  function Find(log: seq<Event>, r: Receipt): Finding {
    var evidence := Evidence(log, r.id);
    if !WellFormed(log) then Contradicted
    else if evidence == [] then Missing
    else if |evidence| == 1 && Matches(evidence[0], r) then Found
    else Contradicted
  }

  /** The events at the places the scan has passed all fit the receipt. */
  predicate Fits(log: seq<Event>, r: Receipt) {
    WellFormed(log) && forall e :: e in log && Concerns(e, r.id) ==> Matches(e, r)
  }

  lemma DuplicateContradicts(log: seq<Event>, i: nat, r: Receipt)
    requires i < |log| && |Evidence(log[..i + 1], r.id)| > 1
    ensures Find(log, r).Contradicted?
  {
    EvidenceGrows(log[..i + 1], log[i + 1..], r.id);
    assert log == log[..i + 1] + log[i + 1..];
  }

  lemma MismatchContradicts(log: seq<Event>, i: nat, r: Receipt)
    requires i < |log| && Concerns(log[i], r.id) && !Matches(log[i], r)
    ensures Find(log, r).Contradicted?
  {
    assert log[i] in log && log[i] in Evidence(log, r.id);
  }

  lemma {:induction false} FittingIsFound(log: seq<Event>, r: Receipt)
    requires Fits(log, r) && |Evidence(log, r.id)| <= 1
    ensures Find(log, r) == if Evidence(log, r.id) == [] then Missing else Found
  {
    if Evidence(log, r.id) != [] { assert Evidence(log, r.id)[0] in log; }
  }

  method FindExactTerminalOutcome(log: seq<Event>, r: Receipt) returns (found: Finding)
    ensures found == Find(log, r)
  {
    var matched := 0;
    for i := 0 to |log|
      invariant Fits(log[..i], r)
      invariant matched == |Evidence(log[..i], r.id)|
    {
      assert log[..i + 1] == log[..i] + [log[i]] && log[i] in log;
      EvidenceAppend(log[..i], log[i], r.id);
      if !ValidEnvelope(log[i]) { return Contradicted; }
      if !Concerns(log[i], r.id) { continue; }
      if !Matches(log[i], r) {
        MismatchContradicts(log, i, r);
        return Contradicted;
      }
      matched := matched + 1;
    }
    assert log[..|log|] == log;
    if matched > 1 { return Contradicted; }
    FittingIsFound(log, r);
    return if matched == 1 then Found else Missing;
  }

  // ---------- The store, and what each operation makes of it ----------

  /** The log with the fates of the writes to come; a script that has run out means no more faults. */
  datatype State = State(log: seq<Event>, fates: seq<Fate>)

  datatype Request = Request(receipt: Receipt, requireExisting: bool)

  function Append(s: State, e: Event): (State, Outcome) {
    (State(if Writes(s.fates) then s.log + [e] else s.log, Tail(s.fates)), Result(s.fates))
  }

  function Ensure(s: State, r: Receipt): (State, Outcome) {
    match Find(s.log, r)
    case Found => (s, Done)
    case Contradicted => (s, Conflict)
    case Missing => Append(s, TerminalEvent(r))
  }

  function Verify(log: seq<Event>, r: Receipt): Outcome { if Find(log, r).Found? then Done else Conflict }

  function Serve(s: State, q: Request): (State, Outcome) {
    if q.requireExisting then (s, Verify(s.log, q.receipt)) else Ensure(s, q.receipt)
  }

  /** Requests served one at a time up to the first that fails. */
  function ServeAll(s: State, qs: seq<Request>): (State, Outcome)
    decreases |qs|
  {
    if qs == [] then (s, Done)
    else
      var (t, outcome) := Serve(s, qs[0]);
      if outcome.Done? then ServeAll(t, qs[1..]) else (t, outcome)
  }

  lemma {:induction false} ServeAllSplit(s: State, qs: seq<Request>, i: nat)
    requires i <= |qs| && ServeAll(s, qs[..i]).1.Done?
    ensures ServeAll(s, qs) == ServeAll(ServeAll(s, qs[..i]).0, qs[i..])
    decreases i
  {
    if i == 0 {
      assert qs[0..] == qs;
    } else {
      assert qs[..i][0] == qs[0] && qs[..i][1..] == qs[1..][..i - 1] && qs[i..] == qs[1..][i - 1..];
      ServeAllSplit(Serve(s, qs[0]).0, qs[1..], i - 1);
    }
  }

  lemma {:induction false} ServeNone(s: State, qs: seq<Request>)
    ensures ServeAll(s, qs[..0]) == (s, Done) && qs[..|qs|] == qs
  {
  }

  lemma {:induction false} MalformedFails(s: State, qs: seq<Request>)
    requires !WellFormed(s.log) && qs != []
    ensures ServeAll(s, qs) == (s, Conflict)
  {
  }

  lemma {:induction false} ServeAllStep(s: State, qs: seq<Request>, i: nat)
    requires i < |qs| && ServeAll(s, qs[..i]).1.Done?
    ensures
      var (t, outcome) := Serve(ServeAll(s, qs[..i]).0, qs[i]);
      if outcome.Done? then ServeAll(s, qs[..i + 1]) == (t, Done) else ServeAll(s, qs) == (t, outcome)
  {
    assert qs[..i + 1][..i] == qs[..i] && qs[..i + 1][i..] == [qs[i]] && qs[i..][0] == qs[i];
    ServeAllSplit(s, qs, i);
    ServeAllSplit(s, qs[..i + 1], i);
  }

  type Index = map<string, seq<Event>>

  function Lookup(index: Index, id: string): seq<Event> { if id in index then index[id] else [] }

  /** The index of the batch holds exactly the evidence of the log. */
  ghost predicate Indexes(index: Index, log: seq<Event>) { forall id :: Lookup(index, id) == Evidence(log, id) }

  lemma IndexedFind(index: Index, log: seq<Event>, r: Receipt)
    requires Indexes(index, log) && WellFormed(log)
    ensures Find(Lookup(index, r.id), r) == Find(log, r)
  {
    EvidenceOfEvidence(log, r.id);
  }

  lemma IndexAppend(index: Index, log: seq<Event>, e: Event)
    requires Indexes(index, log) && e.eventType == TERMINAL
    ensures Indexes(index[e.receiptId := Lookup(index, e.receiptId) + [e]], log + [e])
  {
    forall id ensures Lookup(index[e.receiptId := Lookup(index, e.receiptId) + [e]], id) == Evidence(log + [e], id) {
      EvidenceAppend(log, e, id);
    }
  }

  /** A receipt found missing leaves the log well formed and its index entry a single event. */
  lemma IndexNewReceipt(index: Index, log: seq<Event>, r: Receipt)
    requires Indexes(index, log) && WellFormed(log) && Find(log, r).Missing?
    ensures WellFormed(log + [TerminalEvent(r)])
    ensures Indexes(index[r.id := [TerminalEvent(r)]], log + [TerminalEvent(r)])
  {
    IndexAppend(index, log, TerminalEvent(r));
    assert Lookup(index, r.id) + [TerminalEvent(r)] == [TerminalEvent(r)];
  }

  lemma IndexSkip(index: Index, log: seq<Event>, e: Event)
    requires Indexes(index, log) && e.eventType != TERMINAL
    ensures Indexes(index, log + [e])
  {
    forall id ensures Lookup(index, id) == Evidence(log + [e], id) {
      EvidenceAppend(log, e, id);
    }
  }

  class Store {
    var log: seq<Event>
    var fates: seq<Fate>

    ghost function Contents(): State reads this { State(log, fates) }

    constructor (log: seq<Event>, fates: seq<Fate>)
      ensures Contents() == State(log, fates)
    {
      this.log, this.fates := log, fates;
    }

    method WriteEvent(e: Event) returns (outcome: Outcome)
      modifies this
      ensures (Contents(), outcome) == Append(old(Contents()), e)
    {
      if Writes(fates) { log := log + [e]; }
      outcome := Result(fates);
      fates := Tail(fates);
    }

    /** `valid` is the verdict of the receipt's own validation. */
    method EnsureTerminalOutcome(r: Receipt, valid: bool) returns (outcome: Outcome)
      modifies this
      ensures (Contents(), outcome) == if valid then Ensure(old(Contents()), r) else (old(Contents()), Conflict)
    {
      if !valid { return Conflict; }
      var found := FindExactTerminalOutcome(log, r);
      match found
      case Found => outcome := Done;
      case Contradicted => outcome := Conflict;
      case Missing => outcome := WriteEvent(TerminalEvent(r));
    }

    method VerifyTerminalOutcome(r: Receipt) returns (outcome: Outcome)
      ensures outcome == Verify(log, r)
    {
      var matched := false;
      for i := 0 to |log|
        invariant Fits(log[..i], r)
        invariant |Evidence(log[..i], r.id)| == if matched then 1 else 0
      {
        assert log[..i + 1] == log[..i] + [log[i]] && log[i] in log;
        EvidenceAppend(log[..i], log[i], r.id);
        if !ValidEnvelope(log[i]) { return Conflict; }
        if !Concerns(log[i], r.id) { continue; }
        if matched {
          DuplicateContradicts(log, i, r);
          return Conflict;
        }
        matched := true;
        if !Matches(log[i], r) {
          MismatchContradicts(log, i, r);
          return Conflict;
        }
      }
      assert log[..|log|] == log;
      FittingIsFound(log, r);
      return if matched then Done else Conflict;
    }

    /** The indexed batch: whatever the log, the requests (repeated IDs included) and the faults, the same
        outcome and the same log, including a prefix appended before a failure, as one at a time. */
    method EnsureTerminalOutcomes(requests: seq<Request>, valid: seq<bool>) returns (outcome: Outcome)
      requires |valid| == |requests|
      modifies this
      ensures
        (Contents(), outcome) ==
        if forall i :: 0 <= i < |valid| ==> valid[i] then ServeAll(old(Contents()), requests) else (old(Contents()), Conflict)
    {
      hide Evidence, Find, WellFormed, Indexes, ServeAll;
      for i := 0 to |requests|
        invariant forall j :: 0 <= j < i ==> valid[j]
      {
        if !valid[i] { return Conflict; }
      }
      ServeNone(old(Contents()), requests);
      if requests == [] { return Done; }
      var wellFormed, index := BuildIndex();
      if !wellFormed {
        MalformedFails(old(Contents()), requests);
        return Conflict;
      }
      for i := 0 to |requests|
        invariant WellFormed(log) && Indexes(index, log)
        invariant ServeAll(old(Contents()), requests[..i]) == (Contents(), Done)
      {
        var r := requests[i].receipt;
        ServeAllStep(old(Contents()), requests, i);
        IndexedFind(index, log, r);
        var found := FindExactTerminalOutcome(Lookup(index, r.id), r);
        if found.Contradicted? { return Conflict; }
        if found.Found? { continue; }
        if requests[i].requireExisting { return Conflict; }
        IndexNewReceipt(index, log, r);
        outcome := WriteEvent(TerminalEvent(r));
        if !outcome.Done? { return; }
        index := index[r.id := [TerminalEvent(r)]];
      }
      return Done;
    }

    method BuildIndex() returns (wellFormed: bool, index: Index)
      ensures wellFormed <==> WellFormed(log)
      ensures wellFormed ==> Indexes(index, log)
    {
      index := map[];
      for i := 0 to |log|
        invariant WellFormed(log[..i]) && Indexes(index, log[..i])
      {
        assert log[..i + 1] == log[..i] + [log[i]] && log[i] in log;
        if !ValidEnvelope(log[i]) { return false, map[]; }
        if log[i].eventType == TERMINAL {
          IndexAppend(index, log[..i], log[i]);
          index := index[log[i].receiptId := Lookup(index, log[i].receiptId) + [log[i]]];
        } else {
          IndexSkip(index, log[..i], log[i]);
        }
      }
      assert log[..|log|] == log;
      return true, index;
    }

    /** `fingerprinted` tells whether the operation has a fingerprint. */
    method RecordAdmissionIntent(identity: Identity, fingerprinted: bool, now: int) returns (outcome: Outcome)
      modifies this
      ensures
        (Contents(), outcome) ==
        if fingerprinted then Append(old(Contents()), AdmissionEvent(now, identity)) else (old(Contents()), Conflict)
      ensures outcome.Done? ==> exists e :: Contents().log == old(Contents().log) + [e] && Admits(e, identity, now)
    {
      if !fingerprinted { return Conflict; }
      outcome := WriteEvent(AdmissionEvent(now, identity));
      assert Admits(AdmissionEvent(now, identity), identity, now);
    }
  }

  // ---------- Stability of evidence over any run ----------

  datatype Operation = Single(receipt: Receipt) | Batch(requests: seq<Request>) | Admission(now: int, identity: Identity)

  function Apply(s: State, op: Operation): State {
    match op
    case Single(r) => Ensure(s, r).0
    case Batch(qs) => ServeAll(s, qs).0
    case Admission(now, identity) => Append(s, AdmissionEvent(now, identity)).0
  }

  function Run(s: State, ops: seq<Operation>): State
    decreases |ops|
  {
    if ops == [] then s else Run(Apply(s, ops[0]), ops[1..])
  }

  /** What every operation keeps: an append-only log without duplicate evidence. */
  ghost predicate Consistent(log: seq<Event>) {
    WellFormed(log) && forall id :: |Evidence(log, id)| <= 1
  }

  ghost predicate Extends(before: seq<Event>, after: seq<Event>) {
    && before <= after
    && (WellFormed(before) ==> WellFormed(after))
    && forall id :: Evidence(after, id) == Evidence(before, id) || (Evidence(before, id) == [] && |Evidence(after, id)| == 1)
  }

  lemma AppendExtends(s: State, e: Event)
    requires ValidEnvelope(e) && (e.eventType == TERMINAL ==> Evidence(s.log, e.receiptId) == [])
    ensures Extends(s.log, Append(s, e).0.log)
  {
    forall id ensures Evidence(s.log + [e], id) == Evidence(s.log, id) + if Concerns(e, id) then [e] else [] {
      EvidenceAppend(s.log, e, id);
    }
  }

  lemma ServeExtends(s: State, q: Request)
    ensures Extends(s.log, Serve(s, q).0.log)
  {
    if !q.requireExisting && Find(s.log, q.receipt).Missing? {
      AppendExtends(s, TerminalEvent(q.receipt));
    }
  }

  lemma {:induction false} ServeAllExtends(s: State, qs: seq<Request>)
    ensures Extends(s.log, ServeAll(s, qs).0.log)
    decreases |qs|
  {
    if qs != [] {
      ServeExtends(s, qs[0]);
      ServeAllExtends(Serve(s, qs[0]).0, qs[1..]);
    }
  }

  lemma {:induction false} RunExtends(s: State, ops: seq<Operation>)
    ensures Extends(s.log, Run(s, ops).log)
    decreases |ops|
  {
    if ops != [] {
      match ops[0] {
        case Single(r) => ServeExtends(s, Request(r, false));
        case Batch(qs) => ServeAllExtends(s, qs);
        case Admission(now, identity) => AppendExtends(s, AdmissionEvent(now, identity));
      }
      RunExtends(Apply(s, ops[0]), ops[1..]);
    }
  }

  /** A batch that succeeds leaves the log proving every receipt asked for. */
  lemma {:induction false} ServedAreFound(s: State, qs: seq<Request>)
    requires ServeAll(s, qs).1.Done?
    ensures forall i :: 0 <= i < |qs| ==> Find(ServeAll(s, qs).0.log, qs[i].receipt).Found?
    decreases |qs|
  {
    if qs != [] {
      var t := Serve(s, qs[0]).0;
      var r := qs[0].receipt;
      if Find(s.log, r).Missing? { AppendFinds(s.log, r); }
      ServedAreFound(t, qs[1..]);
      ServeAllExtends(t, qs[1..]);
      FoundStays(t.log, ServeAll(t, qs[1..]).0.log, r);
      forall i | 0 < i < |qs| ensures Find(ServeAll(s, qs).0.log, qs[i].receipt).Found? { assert qs[i] == qs[1..][i - 1]; }
    }
  }

  /** What a batch adds is the event of one of its receipts. */
  lemma {:induction false} ServedEvidence(s: State, qs: seq<Request>, id: string)
    ensures var after := Evidence(ServeAll(s, qs).0.log, id);
            after == Evidence(s.log, id)
            || exists i :: 0 <= i < |qs| && qs[i].receipt.id == id && after == [TerminalEvent(qs[i].receipt)]
    decreases |qs|
  {
    if qs != [] {
      var t := Serve(s, qs[0]).0;
      if t.log != s.log { EvidenceAppend(s.log, TerminalEvent(qs[0].receipt), id); }
      if Serve(s, qs[0]).1.Done? {
        ServeAllExtends(t, qs[1..]);
        ServedEvidence(t, qs[1..], id);
        assert forall i :: 0 < i < |qs| ==> qs[i] == qs[1..][i - 1];
      }
    }
  }

  /** Requests that nothing contradicts. */
  ghost predicate Servable(log: seq<Event>, qs: seq<Request>) {
    && (forall i :: 0 <= i < |qs| ==> if qs[i].requireExisting then Find(log, qs[i].receipt).Found? else !Find(log, qs[i].receipt).Contradicted?)
    && forall i, j :: 0 <= i < j < |qs| ==> qs[i].receipt.id != qs[j].receipt.id
  }

  lemma {:induction false} ServableSucceeds(s: State, qs: seq<Request>)
    requires Servable(s.log, qs) && s.fates == []
    ensures ServeAll(s, qs).1.Done? && ServeAll(s, qs).0.fates == []
    decreases |qs|
  {
    if qs != [] {
      var t := Serve(s, qs[0]).0;
      if t.log != s.log {
        forall i | 0 < i < |qs| ensures Find(t.log, qs[i].receipt) == Find(s.log, qs[i].receipt) {
          EvidenceAppend(s.log, TerminalEvent(qs[0].receipt), qs[i].receipt.id);
        }
      }
      assert forall i :: 0 < i < |qs| ==> qs[i] == qs[1..][i - 1];
      ServableSucceeds(t, qs[1..]);
    }
  }

  /** Any run, under any faults, leaves at most one terminal event to a receipt ID. */
  lemma {:induction false} AtMostOneTerminalEvent(fates: seq<Fate>, ops: seq<Operation>)
    ensures Consistent(Run(State([], fates), ops).log)
  {
    RunExtends(State([], fates), ops);
  }

  lemma FoundStays(before: seq<Event>, after: seq<Event>, r: Receipt)
    requires Extends(before, after) && Find(before, r).Found?
    ensures Find(after, r).Found?
  {
  }

  lemma AppendFinds(log: seq<Event>, r: Receipt)
    requires Find(log, r).Missing?
    ensures Find(log + [TerminalEvent(r)], r).Found?
  {
    EvidenceAppend(log, TerminalEvent(r), r.id);
  }

  /** Once a receipt has been ensured it verifies after any further run, and ensuring it again, alone or in
      a batch, is a success that leaves the log as it is. */
  lemma {:induction false} EnsuredForever(s: State, r: Receipt, ops: seq<Operation>)
    requires Ensure(s, r).1.Done?
    ensures
      var t := Run(Ensure(s, r).0, ops);
      Verify(t.log, r).Done? && Ensure(t, r) == (t, Done) && ServeAll(t, [Request(r, false)]) == (t, Done)
  {
    if Find(s.log, r).Missing? { AppendFinds(s.log, r); }
    RunExtends(Ensure(s, r).0, ops);
    FoundStays(Ensure(s, r).0.log, Run(Ensure(s, r).0, ops).log, r);
  }

  /** A receipt whose ID already has other evidence is never accepted again, and never written. */
  lemma {:induction false} CollisionForever(s: State, r: Receipt, ops: seq<Operation>)
    requires Find(s.log, r).Contradicted? && WellFormed(s.log)
    ensures var t := Run(s, ops); Ensure(t, r) == (t, Conflict) && Verify(t.log, r).Conflict?
  {
    RunExtends(s, ops);
  }

  // ---------- Exactly which receipts the log proves ----------

  /** Two receipts say the same about an operation, field by field. */
  predicate Agree(q: Receipt, r: Receipt) {
    && q.identity.actor == r.identity.actor && q.identity.target == r.identity.target && q.identity.kind == r.identity.kind
    && q.identity.fingerprint == r.identity.fingerprint
    && q.identity.idempotencyFingerprint == r.identity.idempotencyFingerprint
    && q.identity.key == r.identity.key && q.identity.opClass == r.identity.opClass
    && q.outcome.status == r.outcome.status && q.outcome.exitCode == r.outcome.exitCode
    && q.outcome.category == r.outcome.category && q.outcome.message == r.outcome.message
    && q.rollbackRef == r.rollbackRef
  }

  /** The event is the terminal event of this receipt, whenever it was written. */
  predicate Tells(e: Event, q: Receipt) {
    && e.schema == "1" && e.eventType == "terminal_outcome" && e.receiptId == q.id
    && Agree(Receipt(q.id, e.identity, e.outcome, e.rollbackRef, q.backend, q.startedAt, q.completedAt, q.observation, q.evidence, q.redaction), q)
  }

  predicate Bears(log: seq<Event>, i: nat, id: string)
    requires i < |log|
  {
    log[i].eventType == "terminal_outcome" && log[i].receiptId == id
  }

  lemma {:induction false} EvidenceBorne(log: seq<Event>, id: string)
    ensures Evidence(log, id) != [] ==> exists j :: 0 <= j < |log| && Bears(log, j, id)
  {
    if Evidence(log, id) != [] {
      var e := Evidence(log, id)[0];
      assert e in Evidence(log, id);
      var j :| 0 <= j < |log| && log[j] == e;
      assert Bears(log, j, id);
    }
  }

  lemma {:induction false} OneEvidence(log: seq<Event>, id: string, i: nat)
    requires i < |log| && Bears(log, i, id)
    ensures Evidence(log, id) == [log[i]] <==> forall j :: 0 <= j < |log| && Bears(log, j, id) ==> j == i
    decreases |log|
  {
    var init := log[..|log| - 1];
    if i < |log| - 1 {
      OneEvidence(init, id, i);
      assert forall j :: 0 <= j < |init| ==> (Bears(init, j, id) <==> Bears(log, j, id));
      if Bears(log, |log| - 1, id) { assert init[i] in Evidence(init, id); }
    } else if forall j :: 0 <= j < |log| && Bears(log, j, id) ==> j == i {
      assert forall j :: 0 <= j < |init| ==> (Bears(init, j, id) ==> Bears(log, j, id));
      EvidenceBorne(init, id);
    } else {
      var j :| 0 <= j < |log| && Bears(log, j, id) && j != i;
      assert init[j] in Evidence(init, id);
    }
  }

  lemma {:induction false} FoundTells(log: seq<Event>, q: Receipt)
    requires Find(log, q).Found?
    ensures |Evidence(log, q.id)| == 1 && Tells(Evidence(log, q.id)[0], q)
  {
    assert Evidence(log, q.id)[0] in Evidence(log, q.id);
  }

  /** A receipt verifies exactly if every event of the log is of a known kind and exactly one of them is a terminal event
      with its ID, which agrees with it. */
  lemma VerifiedExactly(log: seq<Event>, q: Receipt)
    ensures Verify(log, q).Done? <==>
      && (forall e :: e in log ==> e.schema == "1" && e.eventType in {"admission_intent", "terminal_outcome"})
      && exists i :: 0 <= i < |log| && Tells(log[i], q) && forall j :: 0 <= j < |log| && Bears(log, j, q.id) ==> j == i
  {
    if Verify(log, q).Done? {
      var e := Evidence(log, q.id)[0];
      assert e in Evidence(log, q.id);
      var i :| 0 <= i < |log| && log[i] == e;
      OneEvidence(log, q.id, i);
      assert Tells(log[i], q);
    }
    if i :| 0 <= i < |log| && Tells(log[i], q) && forall j :: 0 <= j < |log| && Bears(log, j, q.id) ==> j == i {
      OneEvidence(log, q.id, i);
    }
  }

  /** An ensure that finds no event of the receipt's ID, and whose write completes, appends one that tells the receipt
      and its completion; one that finds any appends nothing. */
  lemma EnsureAppends(s: State, r: Receipt)
    ensures Find(s.log, r).Missing? && Ensure(s, r).1.Done? ==>
              exists e :: Ensure(s, r).0.log == s.log + [e] && Tells(e, r) && e.timestamp == r.completedAt
    ensures !Find(s.log, r).Missing? ==> Ensure(s, r).0.log == s.log
  {
    assert Tells(TerminalEvent(r), r);
  }

  /** After a receipt has been ensured, another one of the same ID verifies exactly if it agrees with it; if not, it is
      refused for ever, alone or in a batch, without a write. */
  lemma {:induction false} EnsuredDecides(s: State, r: Receipt, q: Receipt, requireExisting: bool, ops: seq<Operation>)
    requires Ensure(s, r).1.Done? && q.id == r.id
    ensures
      var t := Run(Ensure(s, r).0, ops);
      && (Verify(t.log, q).Done? <==> Agree(q, r))
      && (!Agree(q, r) ==> Ensure(t, q) == (t, Conflict) && ServeAll(t, [Request(q, requireExisting)]) == (t, Conflict))
  {
    EnsuredForever(s, r, ops);
    hide Run, Ensure, Evidence;
    var t := Run(Ensure(s, r).0, ops);
    assert Evidence(t.log, r.id) != [] && Matches(Evidence(t.log, r.id)[0], r);
    assert Matches(Evidence(t.log, r.id)[0], q) <==> Agree(q, r);
    assert Find(t.log, q) == if Agree(q, r) then Found else Contradicted;
    RefusedAlways(t, q, requireExisting);
  }

  lemma {:induction false} RefusedAlways(t: State, q: Receipt, requireExisting: bool)
    ensures Find(t.log, q).Contradicted? ==>
              Ensure(t, q) == (t, Conflict) && ServeAll(t, [Request(q, requireExisting)]) == (t, Conflict)
  {
  }

  lemma {:induction false} RunSnoc(s: State, ops: seq<Operation>, op: Operation)
    ensures Run(s, ops + [op]) == Apply(Run(s, ops), op)
    decreases |ops|
  {
    hide Apply;
    if ops == [] {
      assert [] + [op] == [op] && [op][1..] == [];
      assert Run(s, [op]) == Run(Apply(s, op), []);
    } else {
      assert (ops + [op])[1..] == ops[1..] + [op];
      RunSnoc(Apply(s, ops[0]), ops[1..], op);
    }
  }

  lemma {:induction false} ServedVerifies(t: State, qs: seq<Request>, i: nat)
    requires i < |qs|
    ensures ServeAll(t, qs).1.Done? ==> Verify(ServeAll(t, qs).0.log, qs[i].receipt).Done?
  {
    if ServeAll(t, qs).1.Done? { ServedAreFound(t, qs); }
  }

  /** Nor does a batch that asks for it anywhere succeed, whatever else it asks for, and the evidence stays as it is. */
  lemma {:induction false} CollidingBatchFails(s: State, r: Receipt, ops: seq<Operation>, qs: seq<Request>, i: nat)
    requires Ensure(s, r).1.Done? && i < |qs| && qs[i].receipt.id == r.id && !Agree(qs[i].receipt, r)
    ensures var t := Run(Ensure(s, r).0, ops);
            !ServeAll(t, qs).1.Done? && Evidence(ServeAll(t, qs).0.log, r.id) == Evidence(t.log, r.id)
  {
    var t := Run(Ensure(s, r).0, ops);
    RunSnoc(Ensure(s, r).0, ops, Batch(qs));
    EnsuredDecides(s, r, qs[i].receipt, false, ops + [Batch(qs)]);
    EnsuredForever(s, r, ops);
    EnsuredForever(s, r, ops + [Batch(qs)]);
    ServedVerifies(t, qs, i);
    ServeAllExtends(t, qs);
    hide Run, Ensure, ServeAll, Evidence;
    assert |Evidence(t.log, r.id)| == 1 && |Evidence(ServeAll(t, qs).0.log, r.id)| == 1;
  }

  // ---------- Recovery of an interrupted batch ----------

  /** However a batch was interrupted, repeating it without faults ends with the outcome and the log of a
      batch that never met a fault. */
  lemma {:induction false} RetryRecovers(s: State, qs: seq<Request>)
    ensures ServeAll(State(ServeAll(s, qs).0.log, []), qs) == ServeAll(State(s.log, []), qs)
    decreases |qs|
  {
    if qs != [] {
      RetryHead(s, qs);
    }
  }

  lemma {:induction false} RetryHead(s: State, qs: seq<Request>)
    requires qs != []
    ensures ServeAll(State(ServeAll(s, qs).0.log, []), qs) == ServeAll(State(s.log, []), qs)
    decreases |qs|, 0
  {
    var (t, outcome) := Serve(s, qs[0]);
    var r := qs[0].receipt;
    if Find(s.log, r).Missing? && t.log != s.log { AppendFinds(s.log, r); }
    if outcome.Done? {
      var end := ServeAll(t, qs[1..]).0;
      ServeAllExtends(t, qs[1..]);
      FoundStays(t.log, end.log, r);
      RetryRecovers(t, qs[1..]);
      assert Serve(State(end.log, []), qs[0]) == (State(end.log, []), Done);
      assert Serve(State(s.log, []), qs[0]) == (State(t.log, []), Done);
    } else if t.log != s.log {
      assert Serve(State(t.log, []), qs[0]) == (State(t.log, []), Done) == Serve(State(s.log, []), qs[0]);
    }
  }
}
