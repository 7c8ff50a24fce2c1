/** The reconciliation loops of the session service, proved against `SessionReconcile`. */
module SessionProgram {
  import opened Canonical
  import opened Receipts
  import opened SessionReconcile
  import AuditLog

  class SessionService {
    var disk: Disk

    constructor (disk: Disk)
      ensures this.disk == disk
    {
      this.disk := disk;
    }

    method EnsureRecoveryIntent(record: Reservation, id: string, now: int) returns (updated: Reservation, outcome: Outcome)
      modifies this
      ensures (disk, updated, outcome) == EnsureIntent(old(disk), record, id, now)
    {
      if !record.phase.Pending? { return record, Done; }
      var receipt := InterruptedReceipt(record, id, now);
      var (next, o) := RecordIntent(disk, record, receipt);
      disk := next;
      if !o.Done? { return record, o; }
      return record.(phase := Finalizing(receipt)), Done;
    }

    method PrepareMutationTerminalEvidence(record: Reservation) returns (request: Option<AuditLog.Request>, outcome: Outcome)
      modifies this
      ensures (disk, request, outcome) == PrepareEvidence(old(disk), record)
    {
      var held := HeldReceipt(record);
      if held.Some? {
        var (next, o) := EnsureReceipt(disk, held.value);
        disk := next;
        return if o.Done? then Some(AuditLog.Request(held.value, false)) else None, o;
      }
      if !record.phase.Legacy? { return None, Conflict; }
      var id := record.phase.receiptId;
      if id !in disk.receipts { return None, Unavailable; }
      var receipt := disk.receipts[id];
      if receipt.id != id || receipt.identity != record.identity { return None, Conflict; }
      return Some(AuditLog.Request(receipt, true)), Done;
    }

    method EnsureTerminalOutcomes(requests: seq<AuditLog.Request>) returns (outcome: Outcome)
      modifies this
      ensures (disk, outcome) == EnsureEvidence(old(disk), requests)
    {
      var store := new AuditLog.Store(disk.log, disk.fates);
      outcome := store.EnsureTerminalOutcomes(requests, seq(|requests|, _ => true));
      disk := disk.(log := store.log, fates := store.fates);
    }

    /** The first loop: the records as they are afterwards, and one request for each. */
    method PrepareRecords(listed: seq<Reservation>, ids: seq<string>, now: int)
      returns (records: seq<Reservation>, requests: seq<AuditLog.Request>, outcome: Outcome)
      requires |ids| == |listed|
      modifies this
      ensures var (e, rs, qs, o) := PrepareAll(old(disk), listed, ids, now);
              disk == e && outcome == o && (o.Done? ==> records == rs && requests == qs)
    {
      hide PrepareAll, Preparing, EnsureIntent, PrepareEvidence;
      records, requests := [], [];
      PrepareStart(disk, listed, ids, now);
      for i := 0 to |listed|
        invariant Preparing(old(disk), listed, ids, now, records, requests, disk, i)
      {
        PrepareStep(old(disk), listed, ids, now, records, requests, disk, i);
        var record, o := EnsureRecoveryIntent(listed[i], ids[i], now);
        if !o.Done? { return records, requests, o; }
        var request;
        request, o := PrepareMutationTerminalEvidence(record);
        if !o.Done? { return records, requests, o; }
        records, requests := records + [record], requests + [request.value];
      }
      PrepareEnd(old(disk), listed, ids, now, records, requests, disk);
      return records, requests, Done;
    }

    method FinalizeRecords(records: seq<Reservation>) returns (reconciled: nat, outcome: Outcome)
      modifies this
      ensures var (e, n, o) := FinalizeAll(old(disk), records); disk == e && outcome == o && (o.Done? ==> reconciled == n)
    {
      reconciled := 0;
      for i := 0 to |records|
        invariant var (e, n, o) := FinalizeAll(disk, records[i..]); FinalizeAll(old(disk), records) == (e, reconciled + n, o)
      {
        if !records[i].phase.Finalizing? { continue; }
        var (next, o) := MarkFinalized(disk, records[i]);
        disk := next;
        if !o.Done? { return reconciled, o; }
        reconciled := reconciled + 1;
      }
      return reconciled, Done;
    }

    method ReconcileMutationFinalizations(listed: seq<Reservation>, ids: seq<string>, now: int) returns (reconciled: nat, outcome: Outcome)
      requires |ids| == |listed| && Lists(listed, disk)
      modifies this
      ensures var (e, n, o) := Reconcile(old(disk), listed, ids, now); disk == e && outcome == o && (o.Done? ==> reconciled == n)
    {
      hide PrepareAll, FinalizeAll, EnsureEvidence;
      if exists k :: k in disk.journal && !Readable(k, disk.journal[k]) { return 0, Conflict; }
      var records, requests, o := PrepareRecords(listed, ids, now);
      if !o.Done? { return 0, o; }
      o := EnsureTerminalOutcomes(requests);
      if !o.Done? { return 0, o; }
      reconciled, outcome := FinalizeRecords(records);
    }
  }

  /** The first loop after `i` records. */
  ghost predicate Preparing(d: Disk, listed: seq<Reservation>, ids: seq<string>, now: int,
                            records: seq<Reservation>, requests: seq<AuditLog.Request>, e: Disk, i: nat)
    requires |ids| == |listed| && i <= |listed|
  {
    var (f, rs, qs, o) := PrepareAll(e, listed[i..], ids[i..], now);
    PrepareAll(d, listed, ids, now).0 == f && PrepareAll(d, listed, ids, now).3 == o
    && (o.Done? ==> PrepareAll(d, listed, ids, now).1 == records + rs && PrepareAll(d, listed, ids, now).2 == requests + qs)
  }

  lemma PrepareStart(d: Disk, listed: seq<Reservation>, ids: seq<string>, now: int)
    requires |ids| == |listed|
    ensures Preparing(d, listed, ids, now, [], [], d, 0)
  {
    assert listed[0..] == listed && ids[0..] == ids;
    var (f, rs, qs, o) := PrepareAll(d, listed, ids, now);
    assert [] + rs == rs && [] + qs == qs;
  }

  lemma {:induction false} PrepareStep(d: Disk, listed: seq<Reservation>, ids: seq<string>, now: int,
                    records: seq<Reservation>, requests: seq<AuditLog.Request>, e: Disk, i: nat)
    requires |ids| == |listed| && i < |listed| && Preparing(d, listed, ids, now, records, requests, e, i)
    ensures var (e1, r, q, o) := PrepareOne(e, listed[i], ids[i], now);
            if o.Done? then Preparing(d, listed, ids, now, records + [r], requests + [q.value], e1, i + 1)
            else PrepareAll(d, listed, ids, now).0 == e1 && PrepareAll(d, listed, ids, now).3 == o
  {
    hide PrepareOne;
    assert listed[i..][0] == listed[i] && ids[i..][0] == ids[i] && listed[i..][1..] == listed[i + 1..] && ids[i..][1..] == ids[i + 1..];
    var (e1, r, q, o) := PrepareOne(e, listed[i], ids[i], now);
    if o.Done? {
      var (f, rs, qs, _) := PrepareAll(e1, listed[i + 1..], ids[i + 1..], now);
      assert records + ([r] + rs) == (records + [r]) + rs && requests + ([q.value] + qs) == (requests + [q.value]) + qs;
    }
  }

  lemma {:induction false} PrepareEnd(d: Disk, listed: seq<Reservation>, ids: seq<string>, now: int,
                   records: seq<Reservation>, requests: seq<AuditLog.Request>, e: Disk)
    requires |ids| == |listed| && Preparing(d, listed, ids, now, records, requests, e, |listed|)
    ensures PrepareAll(d, listed, ids, now) == (e, records, requests, Done)
  {
    assert records + [] == records && requests + [] == requests;
  }
}
