/** Startup reconciliation of session mutation finalizations: which durable state any prefix of it leaves, and
    what a completed run means. */
module SessionReconcile {
  import opened Canonical
  import opened Receipts
  import AuditLog

  /** `Legacy` is a finalized record of the old schema, which names its receipt without holding it. */
  datatype Phase = Pending | Finalizing(receipt: Receipt) | Finalized(receipt: Receipt) | Legacy(receiptId: string)

  datatype Reservation = Reservation(identity: Identity, createdAt: int, phase: Phase)

  /** The three stores, and the fates of the durable writes to come. */
  datatype Disk = Disk(
    journal: map<string, Reservation>, receipts: map<string, Receipt>, log: seq<AuditLog.Event>, fates: seq<Fate>)

  function HeldReceipt(r: Reservation): Option<Receipt> {
    match r.phase
    case Finalizing(receipt) => Some(receipt)
    case Finalized(receipt) => Some(receipt)
    case _ => None
  }

  predicate Settled(r: Reservation) { r.phase.Finalized? || r.phase.Legacy? }

  /** What a read of the record checks. */
  predicate Readable(key: string, r: Reservation) {
    r.identity.key == key && (HeldReceipt(r).Some? ==> HeldReceipt(r).value.identity == r.identity)
  }

  function InterruptedReceipt(r: Reservation, id: string, now: int): Receipt {
    Receipt(id, r.identity, ExecutionOutcome("failed", 1, "", ""), "", "amcd", r.createdAt,
            if now > r.createdAt then now else r.createdAt + 1, "inferred", [], "applied")
  }

  // ---------- Store calls under faults ----------

  /** A record replaced, unless the write fails before it takes place. */
  function Replace(d: Disk, r: Reservation): (Disk, Outcome) {
    (d.(journal := if Writes(d.fates) then d.journal[r.identity.key := r] else d.journal, fates := Tail(d.fates)),
     Result(d.fates))
  }

  function SameReservation(a: Reservation, b: Reservation): bool { a.identity == b.identity && a.createdAt == b.createdAt }

  function RecordIntent(d: Disk, expected: Reservation, receipt: Receipt): (Disk, Outcome) {
    var key := expected.identity.key;
    if key !in d.journal then (d, Unavailable)
    else
      var current := d.journal[key];
      if !SameReservation(current, expected) || receipt.identity != current.identity then (d, Conflict)
      else if !current.phase.Pending? then (d, if HeldReceipt(current) == Some(receipt) then Done else Conflict)
      else Replace(d, current.(phase := Finalizing(receipt)))
  }

  function MarkFinalized(d: Disk, expected: Reservation): (Disk, Outcome) {
    var key := expected.identity.key;
    if key !in d.journal then (d, Unavailable)
    else
      var current := d.journal[key];
      if !SameReservation(current, expected) then (d, Conflict)
      else if Settled(current) then (d, Done)
      else if !current.phase.Finalizing? then (d, Unavailable)
      else Replace(d, current.(phase := Finalized(current.phase.receipt)))
  }

  function EnsureReceipt(d: Disk, r: Receipt): (Disk, Outcome) {
    if r.id in d.receipts then (d, if d.receipts[r.id] == r then Done else Conflict)
    else (d.(receipts := if Writes(d.fates) then d.receipts[r.id := r] else d.receipts, fates := Tail(d.fates)), Result(d.fates))
  }

  function EnsureEvidence(d: Disk, qs: seq<AuditLog.Request>): (Disk, Outcome) {
    var (s, outcome) := AuditLog.ServeAll(AuditLog.State(d.log, d.fates), qs);
    (d.(log := s.log, fates := s.fates), outcome)
  }

  // ---------- Reconciliation ----------

  /** `ensureRecoveryIntent`: the record as it is in memory afterwards. */
  function EnsureIntent(d: Disk, record: Reservation, id: string, now: int): (Disk, Reservation, Outcome) {
    if !record.phase.Pending? then (d, record, Done)
    else
      var receipt := InterruptedReceipt(record, id, now);
      var (e, outcome) := RecordIntent(d, record, receipt);
      (e, if outcome.Done? then record.(phase := Finalizing(receipt)) else record, outcome)
  }

  /** `prepareMutationTerminalEvidence` of a record past its intent. */
  function PrepareEvidence(d: Disk, record: Reservation): (r: (Disk, Option<AuditLog.Request>, Outcome))
    ensures r.2.Done? <==> r.1.Some?
  {
    match record.phase
    case Pending => (d, None, Conflict)
    case Legacy(id) =>
      if id !in d.receipts then (d, None, Unavailable)
      else if d.receipts[id].id != id || d.receipts[id].identity != record.identity then (d, None, Conflict)
      else (d, Some(AuditLog.Request(d.receipts[id], true)), Done)
    case _ =>
      var receipt := HeldReceipt(record).value;
      var (e, outcome) := EnsureReceipt(d, receipt);
      (e, if outcome.Done? then Some(AuditLog.Request(receipt, false)) else None, outcome)
  }

  function PrepareOne(d: Disk, record: Reservation, id: string, now: int): (r: (Disk, Reservation, Option<AuditLog.Request>, Outcome))
    ensures r.3.Done? <==> r.2.Some?
  {
    var (d1, r1, outcome) := EnsureIntent(d, record, id, now);
    if !outcome.Done? then (d1, r1, None, outcome)
    else
      var (d2, q, o) := PrepareEvidence(d1, r1);
      (d2, r1, q, o)
  }

  /** `ids` are the receipt IDs generated on the way. */
  function PrepareAll(d: Disk, records: seq<Reservation>, ids: seq<string>, now: int)
    : (Disk, seq<Reservation>, seq<AuditLog.Request>, Outcome)
    requires |ids| == |records|
    decreases |records|
  {
    if records == [] then (d, [], [], Done)
    else
      var (d1, r1, q, outcome) := PrepareOne(d, records[0], ids[0], now);
      if q.None? then (d1, [], [], outcome)
      else
        var (d2, rs, qs, o) := PrepareAll(d1, records[1..], ids[1..], now);
        (d2, [r1] + rs, [q.value] + qs, o)
  }

  function FinalizeAll(d: Disk, records: seq<Reservation>): (Disk, nat, Outcome)
    decreases |records|
  {
    if records == [] then (d, 0, Done)
    else if !records[0].phase.Finalizing? then FinalizeAll(d, records[1..])
    else
      var (d1, outcome) := MarkFinalized(d, records[0]);
      if !outcome.Done? then (d1, 0, outcome)
      else
        var (d2, n, o) := FinalizeAll(d1, records[1..]);
        (d2, n + 1, o)
  }

  /** `ReconcileMutationFinalizations` on a listing of the journal. */
  function Reconcile(d: Disk, records: seq<Reservation>, ids: seq<string>, now: int): (Disk, nat, Outcome)
    requires |ids| == |records|
  {
    if exists k :: k in d.journal && !Readable(k, d.journal[k]) then (d, 0, Conflict)
    else
      var (d1, rs, qs, prepared) := PrepareAll(d, records, ids, now);
      if !prepared.Done? then (d1, 0, prepared)
      else
        var (d2, evidenced) := EnsureEvidence(d1, qs);
        if !evidenced.Done? then (d2, 0, evidenced) else FinalizeAll(d2, rs)
  }

  /** The listing shows every record of the journal once. */
  ghost predicate Lists(records: seq<Reservation>, d: Disk) {
    && (forall i :: 0 <= i < |records| ==> records[i].identity.key in d.journal && d.journal[records[i].identity.key] == records[i])
    && (forall i, j :: 0 <= i < j < |records| ==> records[i].identity.key != records[j].identity.key)
    && forall k :: k in d.journal ==> exists i :: 0 <= i < |records| && records[i].identity.key == k
  }

  // ---------- What any prefix keeps ----------

  /** Records move only forwards and keep the receipt they once held; receipts and the log only grow. */
  ghost predicate Advances(d: Disk, e: Disk) {
    && e.journal.Keys == d.journal.Keys
    && (forall k :: k in d.journal ==> Later(d.journal[k], e.journal[k]))
    && (forall id :: id in d.receipts ==> id in e.receipts && e.receipts[id] == d.receipts[id])
    && AuditLog.Extends(d.log, e.log)
  }

  predicate Later(a: Reservation, b: Reservation) {
    && SameReservation(a, b)
    && match a.phase
       case Pending => !b.phase.Legacy?
       case Finalizing(r) => b.phase == Finalizing(r) || b.phase == Finalized(r)
       case _ => b.phase == a.phase
  }

  /** A finalized record's receipt is stored and proved by the log. */
  ghost predicate Evidenced(d: Disk, receipt: Receipt) {
    receipt.id in d.receipts && d.receipts[receipt.id] == receipt && AuditLog.Find(d.log, receipt).Found?
  }

  ghost predicate JournalInv(d: Disk) {
    forall k :: k in d.journal ==>
      Readable(k, d.journal[k]) && (d.journal[k].phase.Finalized? ==> Evidenced(d, d.journal[k].phase.receipt))
  }

  lemma AdvancesTransitive(a: Disk, b: Disk, c: Disk)
    requires Advances(a, b) && Advances(b, c)
    ensures Advances(a, c)
  {
    hide AuditLog.Evidence, AuditLog.WellFormed;
  }

  lemma EvidencedStays(d: Disk, e: Disk, receipt: Receipt)
    requires Advances(d, e) && Evidenced(d, receipt)
    ensures Evidenced(e, receipt)
  {
    AuditLog.FoundStays(d.log, e.log, receipt);
  }

  lemma AdvancesSelf(d: Disk, fates: seq<Fate>)
    ensures Advances(d, d.(fates := fates))
  {
    hide AuditLog.Evidence, AuditLog.WellFormed;
  }

  /** Anything that advances the disk without finalizing a record keeps the invariant. */
  lemma AdvanceKeeps(d: Disk, e: Disk)
    requires JournalInv(d) && Advances(d, e)
    requires forall k :: k in e.journal ==> Readable(k, e.journal[k]) && (e.journal[k].phase.Finalized? ==> d.journal[k].phase.Finalized?)
    ensures JournalInv(e)
  {
    hide AuditLog.Find, AuditLog.Extends;
    forall k | k in e.journal && e.journal[k].phase.Finalized? ensures Evidenced(e, e.journal[k].phase.receipt) {
      assert Later(d.journal[k], e.journal[k]);
      EvidencedStays(d, e, d.journal[k].phase.receipt);
    }
  }

  /** One journal record replaced by a later one, and nothing else. */
  lemma ReplaceAdvances(d: Disk, r: Reservation)
    requires r.identity.key in d.journal && Later(d.journal[r.identity.key], r)
    ensures Advances(d, Replace(d, r).0)
  {
    hide AuditLog.Evidence, AuditLog.WellFormed;
  }

  lemma EnsureReceiptAdvances(d: Disk, r: Receipt)
    ensures var (e, outcome) := EnsureReceipt(d, r);
            Advances(d, e) && e.journal == d.journal && e.log == d.log && (outcome.Done? ==> r.id in e.receipts && e.receipts[r.id] == r)
  {
    hide AuditLog.Evidence, AuditLog.WellFormed;
  }

  // ---------- Preparation ----------

  ghost predicate Holds(d: Disk, record: Reservation) { record.identity.key in d.journal && d.journal[record.identity.key] == record }

  /** The request stands for the record's stored receipt. */
  ghost predicate Prepared(e: Disk, record: Reservation, q: AuditLog.Request) {
    match record.phase
    case Pending => false
    case Legacy(id) => q.requireExisting && id in e.receipts && q.receipt == e.receipts[id] && q.receipt.id == id && q.receipt.identity == record.identity
    case _ => q == AuditLog.Request(HeldReceipt(record).value, false) && q.receipt.id in e.receipts && e.receipts[q.receipt.id] == q.receipt
  }

  /** Nothing but this record's entry changes in the journal, and the log stays as it is. */
  ghost predicate OnlyRecord(d: Disk, e: Disk, key: string) {
    e.log == d.log && forall k :: k in d.journal && k != key ==> k in e.journal && e.journal[k] == d.journal[k]
  }

  lemma EnsureIntentKeeps(d: Disk, record: Reservation, id: string, now: int)
    requires JournalInv(d) && Holds(d, record)
    ensures var (e, r, outcome) := EnsureIntent(d, record, id, now);
            && Advances(d, e) && JournalInv(e) && OnlyRecord(d, e, record.identity.key)
            && (outcome.Done? ==> Holds(e, r) && !r.phase.Pending? && SameReservation(r, record) && (Settled(r) <==> Settled(record)))
  {
    hide AuditLog.Find, AuditLog.Extends;
    var e := EnsureIntent(d, record, id, now).0;
    if record.phase.Pending? {
      var r := record.(phase := Finalizing(InterruptedReceipt(record, id, now)));
      ReplaceAdvances(d, r);
      AdvanceKeeps(d, e);
    } else {
      AdvancesSelf(d, d.fates);
    }
  }

  lemma PrepareEvidenceKeeps(d: Disk, record: Reservation)
    requires JournalInv(d) && Holds(d, record)
    ensures var (e, q, outcome) := PrepareEvidence(d, record);
            && Advances(d, e) && JournalInv(e) && e.journal == d.journal && e.log == d.log
            && (outcome.Done? ==> q.Some? && Prepared(e, record, q.value))
  {
    hide AuditLog.Find, AuditLog.Extends;
    if HeldReceipt(record).Some? {
      EnsureReceiptAdvances(d, HeldReceipt(record).value);
      AdvanceKeeps(d, EnsureReceipt(d, HeldReceipt(record).value).0);
    } else {
      AdvancesSelf(d, d.fates);
    }
  }

  lemma PrepareOneKeeps(d: Disk, record: Reservation, id: string, now: int)
    requires JournalInv(d) && Holds(d, record)
    ensures var (e, r, q, outcome) := PrepareOne(d, record, id, now);
            && Advances(d, e) && JournalInv(e) && OnlyRecord(d, e, record.identity.key)
            && (outcome.Done? ==> Holds(e, r) && SameReservation(r, record) && (Settled(r) <==> Settled(record))
                                  && q.Some? && Prepared(e, r, q.value))
  {
    hide JournalInv, Advances;
    EnsureIntentKeeps(d, record, id, now);
    var (d1, r1, outcome) := EnsureIntent(d, record, id, now);
    if outcome.Done? {
      PrepareEvidenceKeeps(d1, r1);
      AdvancesTransitive(d, d1, PrepareEvidence(d1, r1).0);
    }
  }

  ghost predicate Current(records: seq<Reservation>, d: Disk) {
    && (forall i :: 0 <= i < |records| ==> Holds(d, records[i]))
    && forall i, j :: 0 <= i < j < |records| ==> records[i].identity.key != records[j].identity.key
  }

  ghost predicate AllPrepared(e: Disk, records: seq<Reservation>, rs: seq<Reservation>, qs: seq<AuditLog.Request>) {
    && |rs| == |records| == |qs| && Current(rs, e)
    && forall i :: 0 <= i < |rs| ==>
         SameReservation(rs[i], records[i]) && (Settled(rs[i]) <==> Settled(records[i])) && Prepared(e, rs[i], qs[i])
  }

  ghost predicate OthersSame(d: Disk, e: Disk, records: seq<Reservation>) {
    forall k :: k in d.journal && (forall i :: 0 <= i < |records| ==> records[i].identity.key != k) ==> k in e.journal && e.journal[k] == d.journal[k]
  }

  lemma PreparedStays(d: Disk, e: Disk, record: Reservation, q: AuditLog.Request)
    requires Advances(d, e) && Prepared(d, record, q)
    ensures Prepared(e, record, q)
  {
  }

  lemma CurrentNext(d: Disk, e: Disk, records: seq<Reservation>)
    requires records != [] && Current(records, d) && OnlyRecord(d, e, records[0].identity.key)
    ensures Current(records[1..], e)
  {
  }

  lemma AllPreparedCons(e: Disk, records: seq<Reservation>, r: Reservation, q: AuditLog.Request, rs: seq<Reservation>, qs: seq<AuditLog.Request>)
    requires records != [] && AllPrepared(e, records[1..], rs, qs) && Holds(e, r) && Prepared(e, r, q)
    requires SameReservation(r, records[0]) && (Settled(r) <==> Settled(records[0]))
    requires forall i :: 0 < i < |records| ==> records[i].identity.key != records[0].identity.key
    ensures AllPrepared(e, records, [r] + rs, [q] + qs)
  {
    forall i | 0 <= i < |rs| ensures rs[i].identity.key != r.identity.key {
      assert SameReservation(rs[i], records[1..][i]);
      assert records[1..][i] == records[i + 1];
    }
    forall i | 0 <= i < |records|
      ensures SameReservation(([r] + rs)[i], records[i]) && (Settled(([r] + rs)[i]) <==> Settled(records[i])) && Prepared(e, ([r] + rs)[i], ([q] + qs)[i])
    {
      if i > 0 { assert records[1..][i - 1] == records[i]; }
    }
  }

  lemma {:induction false} PrepareAllKeeps(d: Disk, records: seq<Reservation>, ids: seq<string>, now: int)
    requires |ids| == |records| && JournalInv(d) && Current(records, d)
    ensures var (e, rs, qs, outcome) := PrepareAll(d, records, ids, now);
            && Advances(d, e) && JournalInv(e) && e.log == d.log && OthersSame(d, e, records)
            && (outcome.Done? ==> AllPrepared(e, records, rs, qs))
    decreases |records|
  {
    hide JournalInv, Advances, PrepareOne, Prepared, Settled;
    if records == [] {
      AdvancesSelf(d, d.fates);
    } else {
      var (d1, r1, q, outcome) := PrepareOne(d, records[0], ids[0], now);
      PrepareOneKeeps(d, records[0], ids[0], now);
      if outcome.Done? {
        CurrentNext(d, d1, records);
        PrepareAllKeeps(d1, records[1..], ids[1..], now);
        var (d2, rs, qs, o) := PrepareAll(d1, records[1..], ids[1..], now);
        AdvancesTransitive(d, d1, d2);
        OthersCompose(d, d1, d2, records);
        if o.Done? {
          assert Holds(d2, r1) by { HeadUntouched(d1, d2, records, r1); }
          PreparedStays(d1, d2, r1, q.value);
          AllPreparedCons(d2, records, r1, q.value, rs, qs);
        }
      } else {
        OthersOfOne(d, d1, records);
      }
    }
  }

  lemma OthersOfOne(d: Disk, e: Disk, records: seq<Reservation>)
    requires records != [] && OnlyRecord(d, e, records[0].identity.key)
    ensures OthersSame(d, e, records)
  {
  }

  lemma OthersCompose(d: Disk, d1: Disk, d2: Disk, records: seq<Reservation>)
    requires records != [] && OnlyRecord(d, d1, records[0].identity.key) && OthersSame(d1, d2, records[1..])
    ensures OthersSame(d, d2, records)
  {
    forall k | k in d.journal && forall i :: 0 <= i < |records| ==> records[i].identity.key != k
      ensures k in d2.journal && d2.journal[k] == d.journal[k]
    {
      assert records[0].identity.key != k;
      assert forall i :: 0 <= i < |records[1..]| ==> records[1..][i] == records[i + 1];
    }
  }

  lemma HeadUntouched(d1: Disk, d2: Disk, records: seq<Reservation>, r: Reservation)
    requires records != [] && Holds(d1, r) && r.identity.key == records[0].identity.key && OthersSame(d1, d2, records[1..])
    requires forall i :: 0 < i < |records| ==> records[i].identity.key != records[0].identity.key
    ensures Holds(d2, r)
  {
    assert forall i :: 0 <= i < |records[1..]| ==> records[1..][i] == records[i + 1];
  }

  // ---------- Finalization ----------

  function CountLive(records: seq<Reservation>): nat {
    if records == [] then 0 else (if Settled(records[0]) then 0 else 1) + CountLive(records[1..])
  }

  /** Every record about to be finalized has its evidence. */
  ghost predicate Ready(records: seq<Reservation>, d: Disk) {
    && Current(records, d)
    && forall i :: 0 <= i < |records| ==>
         !records[i].phase.Pending? && (records[i].phase.Finalizing? ==> Evidenced(d, records[i].phase.receipt))
  }

  function FinalPhase(p: Phase): Phase { if p.Finalizing? then Finalized(p.receipt) else p }

  ghost predicate AllFinal(e: Disk, records: seq<Reservation>) {
    forall i :: 0 <= i < |records| ==>
      records[i].identity.key in e.journal && e.journal[records[i].identity.key] == records[i].(phase := FinalPhase(records[i].phase))
  }

  lemma MarkFinalizedKeeps(d: Disk, record: Reservation)
    requires JournalInv(d) && Holds(d, record) && record.phase.Finalizing? && Evidenced(d, record.phase.receipt)
    ensures var (e, outcome) := MarkFinalized(d, record);
            && Advances(d, e) && JournalInv(e) && OnlyRecord(d, e, record.identity.key) && e.receipts == d.receipts
            && (outcome.Done? ==> Holds(e, record.(phase := Finalized(record.phase.receipt))))
  {
    hide AuditLog.Find, AuditLog.Extends;
    var e := MarkFinalized(d, record).0;
    ReplaceAdvances(d, record.(phase := Finalized(record.phase.receipt)));
    forall k | k in e.journal && e.journal[k].phase.Finalized? ensures Evidenced(e, e.journal[k].phase.receipt) {
      if k != record.identity.key { EvidencedStays(d, e, d.journal[k].phase.receipt); }
    }
  }

  lemma ReadyNext(d: Disk, e: Disk, records: seq<Reservation>)
    requires records != [] && Ready(records, d) && OnlyRecord(d, e, records[0].identity.key) && Advances(d, e)
    ensures Ready(records[1..], e)
  {
    hide AuditLog.Find, AuditLog.Extends, Advances, Evidenced;
    CurrentNext(d, e, records);
    forall i | 0 <= i < |records| - 1 && records[1..][i].phase.Finalizing? ensures Evidenced(e, records[1..][i].phase.receipt) {
      EvidencedStays(d, e, records[i + 1].phase.receipt);
    }
  }

  lemma {:induction false} FinalizeAllKeeps(d: Disk, records: seq<Reservation>)
    requires JournalInv(d) && Ready(records, d)
    ensures var (e, n, outcome) := FinalizeAll(d, records);
            && Advances(d, e) && JournalInv(e) && OthersSame(d, e, records) && e.log == d.log && e.receipts == d.receipts
            && (outcome.Done? ==> AllFinal(e, records) && n == CountLive(records))
    decreases |records|
  {
    hide JournalInv, Advances, MarkFinalized, Evidenced;
    if records == [] {
      AdvancesSelf(d, d.fates);
    } else {
      var r := records[0];
      var d1 := if r.phase.Finalizing? then MarkFinalized(d, r).0 else d;
      if r.phase.Finalizing? { MarkFinalizedKeeps(d, r); } else { AdvancesSelf(d, d.fates); }
      if r.phase.Finalizing? && !MarkFinalized(d, r).1.Done? {
        OthersOfOne(d, d1, records);
      } else {
        ReadyNext(d, d1, records);
        FinalizeAllKeeps(d1, records[1..]);
        var d2 := FinalizeAll(d1, records[1..]).0;
        AdvancesTransitive(d, d1, d2);
        OthersCompose(d, d1, d2, records);
        HeadUntouched(d1, d2, records, r.(phase := FinalPhase(r.phase)));
        if FinalizeAll(d1, records[1..]).2.Done? { AllFinalCons(d2, records); }
      }
    }
  }

  lemma AllFinalCons(e: Disk, records: seq<Reservation>)
    requires records != [] && AllFinal(e, records[1..]) && Holds(e, records[0].(phase := FinalPhase(records[0].phase)))
    ensures AllFinal(e, records)
  {
    assert forall i :: 0 < i < |records| ==> records[i] == records[1..][i - 1];
  }

  // ---------- The whole run ----------

  lemma EvidenceKeeps(d: Disk, qs: seq<AuditLog.Request>)
    requires JournalInv(d)
    ensures var e := EnsureEvidence(d, qs).0;
            Advances(d, e) && JournalInv(e) && e.journal == d.journal && e.receipts == d.receipts
  {
    AuditLog.ServeAllExtends(AuditLog.State(d.log, d.fates), qs);
    hide AuditLog.Find, AuditLog.Extends, AuditLog.ServeAll;
    AdvanceKeeps(d, EnsureEvidence(d, qs).0);
  }

  lemma EvidenceMakesReady(d: Disk, records: seq<Reservation>, rs: seq<Reservation>, qs: seq<AuditLog.Request>)
    requires AllPrepared(d, records, rs, qs) && EnsureEvidence(d, qs).1.Done?
    ensures var e := EnsureEvidence(d, qs).0;
            Ready(rs, e) && forall i :: 0 <= i < |qs| ==> AuditLog.Find(e.log, qs[i].receipt).Found?
  {
    AuditLog.ServedAreFound(AuditLog.State(d.log, d.fates), qs);
    hide AuditLog.Find, AuditLog.Extends, AuditLog.ServeAll;
    forall i | 0 <= i < |rs| && rs[i].phase.Finalizing? ensures Evidenced(EnsureEvidence(d, qs).0, rs[i].phase.receipt) {
      assert Prepared(d, rs[i], qs[i]);
    }
    forall i | 0 <= i < |rs| ensures !rs[i].phase.Pending? { assert Prepared(d, rs[i], qs[i]); }
  }

  /** Interrupted anywhere, by a failing write or a crash: records keep the receipt they hold, nothing durable is
      lost, and every finalized record has its evidence. */
  lemma AnyPrefixKeeps(d: Disk, records: seq<Reservation>, ids: seq<string>, now: int)
    requires |ids| == |records| && JournalInv(d) && Lists(records, d)
    ensures var e := Reconcile(d, records, ids, now).0; Advances(d, e) && JournalInv(e)
  {
    hide Advances, Evidenced, PrepareAll, FinalizeAll, EnsureEvidence, Prepared;
    AdvancesSelf(d, d.fates);
    var (d1, rs, qs, prepared) := PrepareAll(d, records, ids, now);
    PrepareAllKeeps(d, records, ids, now);
    if prepared.Done? {
      var (d2, evidenced) := EnsureEvidence(d1, qs);
      EvidenceKeeps(d1, qs);
      AdvancesTransitive(d, d1, d2);
      if evidenced.Done? {
        EvidenceMakesReady(d1, records, rs, qs);
        FinalizeAllKeeps(d2, rs);
        AdvancesTransitive(d, d2, FinalizeAll(d2, rs).0);
      }
    }
  }

  /** The receipt a settled record stands for is stored, belongs to the record and is proved by exactly one
      terminal event. */
  ghost predicate ProvedBy(d: Disk, record: Reservation, receipt: Receipt) {
    && receipt.id in d.receipts && d.receipts[receipt.id] == receipt && receipt.identity == record.identity
    && AuditLog.WellFormed(d.log)
    && (exists e :: AuditLog.Evidence(d.log, receipt.id) == [e] && AuditLog.Tells(e, receipt))
    && match record.phase
       case Finalized(held) => held == receipt
       case Legacy(id) => id == receipt.id
       case _ => false
  }

  ghost predicate Proved(d: Disk, record: Reservation) { exists receipt :: ProvedBy(d, record, receipt) }

  ghost predicate Converged(d: Disk) { forall k :: k in d.journal ==> Proved(d, d.journal[k]) }

  lemma {:induction false} CountLiveSame(a: seq<Reservation>, b: seq<Reservation>)
    requires |a| == |b| && forall i :: 0 <= i < |a| ==> (Settled(a[i]) <==> Settled(b[i]))
    ensures CountLive(a) == CountLive(b)
  {
    if a != [] { CountLiveSame(a[1..], b[1..]); }
  }

  /** A run that returns without error has finalized every reservation and counted exactly those that were not. */
  lemma {:induction false} CompletedRunConverges(d: Disk, records: seq<Reservation>, ids: seq<string>, now: int)
    requires |ids| == |records| && JournalInv(d) && Lists(records, d) && Reconcile(d, records, ids, now).2.Done?
    ensures var (e, n, _) := Reconcile(d, records, ids, now);
            && JournalInv(e) && Advances(d, e) && Converged(e) && n == CountLive(records)
  {
    AnyPrefixKeeps(d, records, ids, now);
    hide Advances, Evidenced, PrepareAll, FinalizeAll, EnsureEvidence, Prepared, AuditLog.Find;
    PrepareAllKeeps(d, records, ids, now);
    var (d1, rs, qs, _) := PrepareAll(d, records, ids, now);
    EvidenceKeeps(d1, qs);
    var d2 := EnsureEvidence(d1, qs).0;
    EvidenceMakesReady(d1, records, rs, qs);
    FinalizeAllKeeps(d2, rs);
    var e := FinalizeAll(d2, rs).0;
    CountLiveSame(rs, records);
    forall k | k in e.journal ensures Proved(e, e.journal[k]) {
      assert k in d.journal by { KeysKept(d, e, k); }
      var i :| 0 <= i < |records| && records[i].identity.key == k;
      FinalIsProved(d1, d2, e, records, rs, qs, i);
    }
  }

  lemma KeysKept(d: Disk, e: Disk, k: string)
    requires Advances(d, e)
    ensures k in e.journal <==> k in d.journal
  {
  }

  lemma FinalIsProved(d1: Disk, d2: Disk, e: Disk, records: seq<Reservation>, rs: seq<Reservation>, qs: seq<AuditLog.Request>, i: nat)
    requires AllPrepared(d1, records, rs, qs) && i < |rs| && d2.receipts == d1.receipts && d2.journal == d1.journal
    requires e.receipts == d2.receipts && e.log == d2.log && AllFinal(e, rs) && JournalInv(e)
    requires AuditLog.Find(e.log, qs[i].receipt).Found?
    ensures records[i].identity.key in e.journal && ProvedBy(e, e.journal[records[i].identity.key], qs[i].receipt)
  {
    assert Prepared(d1, rs[i], qs[i]) && SameReservation(rs[i], records[i]);
    assert Readable(rs[i].identity.key, e.journal[rs[i].identity.key]);
    AuditLog.FoundTells(e.log, qs[i].receipt);
    assert AuditLog.Evidence(e.log, qs[i].receipt.id) == [AuditLog.Evidence(e.log, qs[i].receipt.id)[0]];
  }

  /** A failed outcome, inferred at startup, for the time from the reservation on. */
  predicate Interrupts(receipt: Receipt, record: Reservation, id: string, now: int) {
    && receipt.id == id && receipt.identity == record.identity && receipt.outcome == ExecutionOutcome("failed", 1, "", "")
    && receipt.rollbackRef == "" && receipt.backend == "amcd" && receipt.startedAt == record.createdAt
    && receipt.startedAt < receipt.completedAt && (now > record.createdAt ==> receipt.completedAt == now)
    && receipt.observation == "inferred" && receipt.evidence == [] && receipt.redaction == "applied"
  }

  /** The record as preparation leaves it. */
  predicate Intended(r: Reservation, record: Reservation, id: string, now: int) {
    if record.phase.Pending? then
      r.phase.Finalizing? && r == record.(phase := Finalizing(r.phase.receipt)) && Interrupts(r.phase.receipt, record, id, now)
    else r == record
  }

  lemma PreparesIntended(d: Disk, record: Reservation, id: string, now: int)
    ensures var (_, r, q, _) := PrepareOne(d, record, id, now); q.Some? ==> Intended(r, record, id, now)
  {
    hide PrepareEvidence, RecordIntent;
  }

  lemma {:induction false} PreparesAllIntended(d: Disk, records: seq<Reservation>, ids: seq<string>, now: int)
    requires |ids| == |records|
    ensures var (_, rs, _, outcome) := PrepareAll(d, records, ids, now);
            outcome.Done? ==> |rs| == |records| && forall i :: 0 <= i < |rs| ==> Intended(rs[i], records[i], ids[i], now)
    decreases |records|
  {
    hide PrepareOne, Intended;
    if records != [] {
      var (d1, r1, q, _) := PrepareOne(d, records[0], ids[0], now);
      PreparesIntended(d, records[0], ids[0], now);
      if q.Some? {
        PreparesAllIntended(d1, records[1..], ids[1..], now);
        var (_, rs, _, o) := PrepareAll(d1, records[1..], ids[1..], now);
        if o.Done? {
          forall i | 0 <= i < |records| ensures Intended(([r1] + rs)[i], records[i], ids[i], now) {
            if i > 0 { assert Intended(rs[i - 1], records[1..][i - 1], ids[1..][i - 1], now); }
          }
        }
      }
    }
  }

  /** What a run that returns without error has made of each record it found: a pending one is final with a failed,
      inferred receipt of its own, a finalizing one with the receipt it held, and a settled one is as it was. */
  lemma {:induction false} CompletedRunDecides(d: Disk, records: seq<Reservation>, ids: seq<string>, now: int, i: nat)
    requires |ids| == |records| && JournalInv(d) && Lists(records, d) && Reconcile(d, records, ids, now).2.Done? && i < |records|
    ensures var e := Reconcile(d, records, ids, now).0;
            var key := records[i].identity.key;
            && key in e.journal && SameReservation(e.journal[key], records[i])
            && match records[i].phase
               case Pending => e.journal[key].phase.Finalized? && Interrupts(e.journal[key].phase.receipt, records[i], ids[i], now)
               case Finalizing(held) => e.journal[key].phase == Finalized(held)
               case _ => e.journal[key] == records[i]
  {
    hide Advances, Evidenced, PrepareAll, FinalizeAll, EnsureEvidence, Prepared, AuditLog.Find, JournalInv, Interrupts;
    PrepareAllKeeps(d, records, ids, now);
    var (d1, rs, qs, _) := PrepareAll(d, records, ids, now);
    PreparesAllIntended(d, records, ids, now);
    EvidenceKeeps(d1, qs);
    EvidenceMakesReady(d1, records, rs, qs);
    FinalizeAllKeeps(EnsureEvidence(d1, qs).0, rs);
    assert Intended(rs[i], records[i], ids[i], now);
    assert rs[i].identity == records[i].identity;
  }

  // ---------- Repeating a run ----------

  lemma PrepareProvedOne(d: Disk, record: Reservation, id: string, now: int)
    requires Proved(d, record)
    ensures var (e, r, q, outcome) := PrepareOne(d, record, id, now);
            && e == d && r == record && outcome.Done? && q.Some? && AuditLog.Find(d.log, q.value.receipt).Found?
            && Settled(record)
  {
  }

  lemma {:induction false} PrepareProved(d: Disk, records: seq<Reservation>, ids: seq<string>, now: int)
    requires |ids| == |records| && forall i :: 0 <= i < |records| ==> Proved(d, records[i])
    ensures var (e, rs, qs, outcome) := PrepareAll(d, records, ids, now);
            && e == d && rs == records && outcome.Done?
            && forall i :: 0 <= i < |qs| ==> AuditLog.Find(d.log, qs[i].receipt).Found?
    decreases |records|
  {
    hide Proved, PrepareOne, AuditLog.Find;
    if records != [] {
      PrepareProvedOne(d, records[0], ids[0], now);
      PrepareProved(d, records[1..], ids[1..], now);
    }
  }

  lemma {:induction false} ServeFound(s: AuditLog.State, qs: seq<AuditLog.Request>)
    requires forall i :: 0 <= i < |qs| ==> AuditLog.Find(s.log, qs[i].receipt).Found?
    ensures AuditLog.ServeAll(s, qs) == (s, Done)
    decreases |qs|
  {
    if qs != [] { ServeFound(s, qs[1..]); }
  }

  lemma {:induction false} FinalizeSettled(d: Disk, records: seq<Reservation>)
    requires forall i :: 0 <= i < |records| ==> Settled(records[i])
    ensures FinalizeAll(d, records) == (d, 0, Done)
    decreases |records|
  {
    if records != [] { FinalizeSettled(d, records[1..]); }
  }

  /** After a run that returned without error, another one counts nothing and writes nothing, whatever faults
      would await its writes. */
  lemma SecondRunIsIdle(d: Disk, records: seq<Reservation>, ids: seq<string>, now: int)
    requires |ids| == |records| && JournalInv(d) && Converged(d) && Lists(records, d)
    ensures Reconcile(d, records, ids, now) == (d, 0, Done)
  {
    hide AuditLog.Find, AuditLog.Evidence, AuditLog.ServeAll, Proved;
    forall i | 0 <= i < |records| ensures Proved(d, records[i]) && Settled(records[i]) {
      assert d.journal[records[i].identity.key] == records[i];
      PrepareProvedOne(d, records[i], ids[i], now);
    }
    PrepareProved(d, records, ids, now);
    ServeFound(AuditLog.State(d.log, d.fates), PrepareAll(d, records, ids, now).2);
    FinalizeSettled(d, records);
  }

  // ---------- Convergence after any interruptions ----------

  /** Nothing durable contradicts a receipt that a record holds. */
  ghost predicate Uncontested(d: Disk, receipt: Receipt) {
    && (receipt.id in d.receipts ==> d.receipts[receipt.id] == receipt)
    && !AuditLog.Find(d.log, receipt).Contradicted?
  }

  function NamedId(r: Reservation): Option<string> {
    match r.phase
    case Pending => None
    case Legacy(id) => Some(id)
    case _ => Some(HeldReceipt(r).value.id)
  }

  ghost predicate Healthy(d: Disk) {
    && JournalInv(d) && AuditLog.WellFormed(d.log)
    && (forall k :: k in d.journal && HeldReceipt(d.journal[k]).Some? ==> Uncontested(d, HeldReceipt(d.journal[k]).value))
    && (forall k :: k in d.journal && d.journal[k].phase.Legacy? ==> Proved(d, d.journal[k]))
    && (forall j, k :: j in d.journal && k in d.journal && j != k && NamedId(d.journal[j]).Some? ==> NamedId(d.journal[j]) != NamedId(d.journal[k]))
  }

  /** Generated receipt IDs are new. */
  ghost predicate FreshIds(ids: seq<string>, d: Disk) {
    && (forall i, j :: 0 <= i < j < |ids| ==> ids[i] != ids[j])
    && forall i :: 0 <= i < |ids| ==> Unused(ids[i], d)
  }

  ghost predicate Unused(id: string, d: Disk) {
    && id !in d.receipts && AuditLog.Evidence(d.log, id) == []
    && forall k :: k in d.journal ==> NamedId(d.journal[k]) != Some(id)
  }

  /** Proof needs only the receipt store and the log. */
  lemma ProvedElsewhere(d: Disk, e: Disk, record: Reservation)
    requires Proved(d, record) && e.log == d.log && forall id :: id in d.receipts ==> id in e.receipts && e.receipts[id] == d.receipts[id]
    ensures Proved(e, record)
  {
    var receipt :| ProvedBy(d, record, receipt);
    assert ProvedBy(e, record, receipt);
  }

  lemma IntentUses(d: Disk, record: Reservation, id: string, now: int)
    ensures forall other :: other != id && Unused(other, d) ==> Unused(other, EnsureIntent(d, record, id, now).0)
  {
    hide AuditLog.Evidence;
  }

  lemma HealthyIntent(d: Disk, record: Reservation, id: string, now: int)
    requires Healthy(d) && Holds(d, record) && Unused(id, d)
    ensures var (e, r, outcome) := EnsureIntent(d, record, id, now);
            && Healthy(e) && (d.fates == [] ==> outcome.Done? && e.fates == [])
            && forall other :: other != id && Unused(other, d) ==> Unused(other, e)
  {
    IntentUses(d, record, id, now);
    EnsureIntentKeeps(d, record, id, now);
    hide AuditLog.Evidence, AuditLog.WellFormed, AuditLog.Extends, Advances, JournalInv, ProvedBy;
    if record.phase.Pending? {
      var e := EnsureIntent(d, record, id, now).0;
      assert Readable(record.identity.key, record) by { ReadableRecord(d, record); }
      assert Uncontested(d, InterruptedReceipt(record, id, now));
      assert e.log == d.log && e.receipts == d.receipts;
      hide Unused;
      forall k | k in e.journal && e.journal[k].phase.Legacy? ensures Proved(e, e.journal[k]) {
        assert Proved(d, d.journal[k]);
        ProvedElsewhere(d, e, d.journal[k]);
      }
      forall k | k in e.journal && HeldReceipt(e.journal[k]).Some? ensures Uncontested(e, HeldReceipt(e.journal[k]).value) {
        if e.journal[k] == d.journal[k] { assert Uncontested(d, HeldReceipt(d.journal[k]).value); }
      }
    }
  }

  lemma ReadableRecord(d: Disk, record: Reservation)
    requires JournalInv(d) && Holds(d, record)
    ensures Readable(record.identity.key, record)
  {
  }

  lemma HealthyEvidence(d: Disk, record: Reservation)
    requires Healthy(d) && Holds(d, record) && !record.phase.Pending?
    ensures var (e, q, outcome) := PrepareEvidence(d, record);
            && Healthy(e) && (d.fates == [] ==> outcome.Done? && e.fates == [])
            && forall id :: Unused(id, d) ==> Unused(id, e)
  {
    PrepareEvidenceKeeps(d, record);
    hide AuditLog.Evidence, AuditLog.WellFormed, AuditLog.Extends, AuditLog.Find, Advances, JournalInv, ProvedBy;
    var e := PrepareEvidence(d, record).0;
    assert e.journal == d.journal && e.log == d.log;
    if HeldReceipt(record).Some? { assert Uncontested(d, HeldReceipt(record).value); }
    forall k | k in e.journal && e.journal[k].phase.Legacy? ensures Proved(e, e.journal[k]) {
      assert Proved(d, d.journal[k]);
      ProvedElsewhere(d, e, d.journal[k]);
    }
    forall k | k in e.journal && HeldReceipt(e.journal[k]).Some? ensures Uncontested(e, HeldReceipt(e.journal[k]).value) {
      assert Uncontested(d, HeldReceipt(d.journal[k]).value);
      assert k == record.identity.key || NamedId(d.journal[k]) != NamedId(d.journal[record.identity.key]);
    }
  }

  lemma {:induction false} HealthyPrepare(d: Disk, records: seq<Reservation>, ids: seq<string>, now: int)
    requires |ids| == |records| && Healthy(d) && Current(records, d) && FreshIds(ids, d)
    ensures var (e, rs, qs, outcome) := PrepareAll(d, records, ids, now);
            Healthy(e) && (d.fates == [] ==> outcome.Done? && e.fates == [])
    decreases |records|
  {
    hide Healthy, Unused, EnsureIntent, PrepareEvidence;
    if records != [] {
      HealthyPrepareOne(d, records[0], ids[0], now);
      var (d1, r1, q, outcome) := PrepareOne(d, records[0], ids[0], now);
      if outcome.Done? {
        PrepareOneKeeps(d, records[0], ids[0], now) by { HealthyIsInv(d); }
        CurrentNext(d, d1, records);
        assert FreshIds(ids[1..], d1);
        HealthyPrepare(d1, records[1..], ids[1..], now);
      }
    }
  }

  lemma HealthyIsInv(d: Disk)
    requires Healthy(d)
    ensures JournalInv(d)
  {
  }

  lemma HealthyPrepareOne(d: Disk, record: Reservation, id: string, now: int)
    requires Healthy(d) && Holds(d, record) && Unused(id, d)
    ensures var (e, r, q, outcome) := PrepareOne(d, record, id, now);
            && Healthy(e) && (d.fates == [] ==> outcome.Done? && e.fates == [])
            && forall other :: other != id && Unused(other, d) ==> Unused(other, e)
  {
    hide Unused;
    HealthyIntent(d, record, id, now);
    EnsureIntentKeeps(d, record, id, now);
    var (d1, r1, outcome) := EnsureIntent(d, record, id, now);
    if outcome.Done? {
      HealthyEvidence(d1, r1);
    }
  }

  /** A prepared request carries the ID that its record names. */
  lemma PreparedName(e: Disk, record: Reservation, q: AuditLog.Request)
    requires Prepared(e, record, q)
    ensures NamedId(record) == Some(q.receipt.id)
    ensures HeldReceipt(record).Some? ==> q.receipt == HeldReceipt(record).value
  {
  }

  lemma PreparedNamesDistinct(d: Disk, records: seq<Reservation>, rs: seq<Reservation>, qs: seq<AuditLog.Request>, i: nat, j: nat)
    requires Healthy(d) && AllPrepared(d, records, rs, qs) && i < |rs| && j < |rs| && i != j
    ensures qs[i].receipt.id != qs[j].receipt.id
  {
    hide Prepared, NamedId, JournalInv;
    PreparedName(d, rs[i], qs[i]);
    PreparedName(d, rs[j], qs[j]);
    var a, b := rs[i].identity.key, rs[j].identity.key;
    assert a != b by { if i < j { assert rs[i].identity.key != rs[j].identity.key; } else { assert rs[j].identity.key != rs[i].identity.key; } }
    assert Holds(d, rs[i]) && Holds(d, rs[j]);
  }

  lemma PreparedServable(d: Disk, records: seq<Reservation>, rs: seq<Reservation>, qs: seq<AuditLog.Request>)
    requires Healthy(d) && AllPrepared(d, records, rs, qs)
    ensures AuditLog.Servable(d.log, qs)
  {
    hide AuditLog.Evidence;
    forall i | 0 <= i < |qs|
      ensures if qs[i].requireExisting then AuditLog.Find(d.log, qs[i].receipt).Found? else !AuditLog.Find(d.log, qs[i].receipt).Contradicted?
    {
      assert Prepared(d, rs[i], qs[i]) && Holds(d, rs[i]);
      if rs[i].phase.Legacy? {
        assert Proved(d, rs[i]);
        PrepareProvedOne(d, rs[i], "", 0);
      } else {
        assert Uncontested(d, HeldReceipt(rs[i]).value);
      }
    }
    forall i, j | 0 <= i < j < |qs| ensures qs[i].receipt.id != qs[j].receipt.id { PreparedNamesDistinct(d, records, rs, qs, i, j); }
  }

  /** The batch never puts another record's evidence under a receipt's ID. */
  lemma ServedUncontested(d: Disk, records: seq<Reservation>, rs: seq<Reservation>, qs: seq<AuditLog.Request>, k: string)
    requires Healthy(d) && AllPrepared(d, records, rs, qs) && k in d.journal && HeldReceipt(d.journal[k]).Some?
    ensures Uncontested(EnsureEvidence(d, qs).0, HeldReceipt(d.journal[k]).value)
  {
    var r := HeldReceipt(d.journal[k]).value;
    var s := AuditLog.State(d.log, d.fates);
    AuditLog.ServeAllExtends(s, qs);
    AuditLog.ServedEvidence(s, qs, r.id);
    hide AuditLog.Evidence, AuditLog.ServeAll, AuditLog.WellFormed, JournalInv;
    assert Uncontested(d, r);
    var after := AuditLog.Evidence(AuditLog.ServeAll(s, qs).0.log, r.id);
    if after != AuditLog.Evidence(d.log, r.id) {
      var i :| 0 <= i < |qs| && qs[i].receipt.id == r.id && after == [AuditLog.TerminalEvent(qs[i].receipt)];
      assert Prepared(d, rs[i], qs[i]) && Holds(d, rs[i]);
      PreparedName(d, rs[i], qs[i]);
      assert NamedId(d.journal[k]) == Some(r.id);
      assert rs[i].identity.key == k;
    }
  }

  lemma HealthyServed(d: Disk, records: seq<Reservation>, rs: seq<Reservation>, qs: seq<AuditLog.Request>)
    requires Healthy(d) && AllPrepared(d, records, rs, qs)
    ensures var (e, outcome) := EnsureEvidence(d, qs);
            Healthy(e) && (d.fates == [] ==> outcome.Done? && e.fates == [])
  {
    var s := AuditLog.State(d.log, d.fates);
    AuditLog.ServeAllExtends(s, qs);
    if d.fates == [] { PreparedServable(d, records, rs, qs); AuditLog.ServableSucceeds(s, qs); }
    EvidenceKeeps(d, qs);
    hide AuditLog.Evidence, AuditLog.ServeAll, AuditLog.Find, AuditLog.WellFormed, AuditLog.Servable, JournalInv, Advances, Uncontested, AllPrepared, ProvedBy;
    var e := EnsureEvidence(d, qs).0;
    forall k | k in e.journal && HeldReceipt(e.journal[k]).Some? ensures Uncontested(e, HeldReceipt(e.journal[k]).value) {
      ServedUncontested(d, records, rs, qs, k);
    }
    forall k | k in e.journal && e.journal[k].phase.Legacy? ensures Proved(e, e.journal[k]) {
      assert Proved(d, d.journal[k]);
      ProvedStays(d, e, d.journal[k]);
    }
  }

  lemma ProvedStays(d: Disk, e: Disk, record: Reservation)
    requires Proved(d, record) && e.receipts == d.receipts && AuditLog.Extends(d.log, e.log)
    ensures Proved(e, record)
  {
    hide AuditLog.Evidence;
    var receipt :| ProvedBy(d, record, receipt);
    assert AuditLog.Evidence(e.log, receipt.id) == AuditLog.Evidence(d.log, receipt.id);
    assert ProvedBy(e, record, receipt);
  }

  lemma HealthyMark(d: Disk, record: Reservation)
    requires Healthy(d) && Holds(d, record) && record.phase.Finalizing? && Evidenced(d, record.phase.receipt)
    ensures var (e, outcome) := MarkFinalized(d, record);
            Healthy(e) && (d.fates == [] ==> outcome.Done? && e.fates == [])
  {
    MarkFinalizedKeeps(d, record);
    hide AuditLog.Evidence, AuditLog.WellFormed, AuditLog.Extends, Advances, JournalInv, ProvedBy;
    var e := MarkFinalized(d, record).0;
    assert forall k :: k in e.journal ==> HeldReceipt(e.journal[k]) == HeldReceipt(d.journal[k]) && NamedId(e.journal[k]) == NamedId(d.journal[k]);
    forall k | k in e.journal && e.journal[k].phase.Legacy? ensures Proved(e, e.journal[k]) {
      assert Proved(d, d.journal[k]);
      ProvedElsewhere(d, e, d.journal[k]);
    }
    forall k | k in e.journal && HeldReceipt(e.journal[k]).Some? ensures Uncontested(e, HeldReceipt(e.journal[k]).value) {
      assert Uncontested(d, HeldReceipt(d.journal[k]).value);
    }
  }

  lemma {:induction false} HealthyFinalize(d: Disk, records: seq<Reservation>)
    requires Healthy(d) && Ready(records, d)
    ensures var (e, n, outcome) := FinalizeAll(d, records);
            Healthy(e) && (d.fates == [] ==> outcome.Done? && e.fates == [])
    decreases |records|
  {
    hide Healthy, MarkFinalized, Evidenced, Advances;
    if records != [] {
      var r := records[0];
      HealthyIsInv(d);
      if r.phase.Finalizing? {
        HealthyMark(d, r);
        MarkFinalizedKeeps(d, r);
        var (d1, outcome) := MarkFinalized(d, r);
        if outcome.Done? {
          ReadyNext(d, d1, records);
          HealthyFinalize(d1, records[1..]);
        }
      } else {
        AdvancesSelf(d, d.fates);
        ReadyNext(d, d, records);
        HealthyFinalize(d, records[1..]);
      }
    }
  }

  /** No interruption makes recovery impossible, and a run that meets no fault completes. */
  lemma HealthyRun(d: Disk, records: seq<Reservation>, ids: seq<string>, now: int)
    requires |ids| == |records| && Healthy(d) && Lists(records, d) && FreshIds(ids, d)
    ensures var (e, _, outcome) := Reconcile(d, records, ids, now);
            Healthy(e) && (d.fates == [] ==> outcome.Done?)
  {
    HealthyIsInv(d);
    hide Healthy, PrepareAll, FinalizeAll, EnsureEvidence, Advances, Evidenced, Prepared;
    HealthyPrepare(d, records, ids, now);
    PrepareAllKeeps(d, records, ids, now);
    var (d1, rs, qs, prepared) := PrepareAll(d, records, ids, now);
    if prepared.Done? {
      HealthyServed(d1, records, rs, qs);
      var (d2, evidenced) := EnsureEvidence(d1, qs);
      if evidenced.Done? {
        EvidenceMakesReady(d1, records, rs, qs);
        HealthyFinalize(d2, rs);
      }
    }
  }

  datatype Attempt = Attempt(records: seq<Reservation>, ids: seq<string>, now: int, fates: seq<Fate>)

  ghost predicate Applicable(d: Disk, a: Attempt) { |a.ids| == |a.records| && Lists(a.records, d) && FreshIds(a.ids, d) }

  /** Runs one after the other, each with its own faults. */
  ghost predicate Runs(d: Disk, attempts: seq<Attempt>, e: Disk)
    decreases |attempts|
  {
    if attempts == [] then e == d
    else
      var a := attempts[0];
      Applicable(d, a) && Runs(Reconcile(d.(fates := a.fates), a.records, a.ids, a.now).0, attempts[1..], e)
  }

  lemma HealthyUnderFates(d: Disk, fates: seq<Fate>)
    requires Healthy(d)
    ensures Healthy(d.(fates := fates))
  {
    hide AuditLog.Find, AuditLog.Evidence, AuditLog.WellFormed;
    var e := d.(fates := fates);
    forall k | k in e.journal && e.journal[k].phase.Legacy? ensures Proved(e, e.journal[k]) {
      assert Proved(d, d.journal[k]);
      ProvedElsewhere(d, e, d.journal[k]);
    }
    forall k | k in e.journal && HeldReceipt(e.journal[k]).Some? ensures Uncontested(e, HeldReceipt(e.journal[k]).value) {
      assert Uncontested(d, HeldReceipt(d.journal[k]).value);
    }
  }

  lemma {:induction false} RunsStayHealthy(d: Disk, attempts: seq<Attempt>, e: Disk)
    requires Healthy(d) && Runs(d, attempts, e)
    ensures Healthy(e)
    decreases |attempts|
  {
    hide Healthy, Reconcile;
    if attempts != [] {
      var a := attempts[0];
      HealthyUnderFates(d, a.fates);
      HealthyRun(d.(fates := a.fates), a.records, a.ids, a.now);
      RunsStayHealthy(Reconcile(d.(fates := a.fates), a.records, a.ids, a.now).0, attempts[1..], e);
    }
  }

  /** After any number of runs, interrupted anywhere, one run without faults finalizes everything. */
  lemma {:induction false} ReconciliationConverges(d: Disk, attempts: seq<Attempt>, e: Disk, last: Attempt)
    requires Healthy(d) && Runs(d, attempts, e) && Applicable(e, last) && last.fates == []
    ensures var (f, n, outcome) := Reconcile(e.(fates := []), last.records, last.ids, last.now);
            outcome.Done? && Converged(f) && n == CountLive(last.records)
  {
    hide Healthy, Reconcile, Converged;
    RunsStayHealthy(d, attempts, e);
    HealthyUnderFates(e, []);
    HealthyRun(e.(fates := []), last.records, last.ids, last.now);
    HealthyIsInv(e.(fates := []));
    CompletedRunConverges(e.(fates := []), last.records, last.ids, last.now);
  }
}
