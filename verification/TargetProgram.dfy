/** The coordinator's methods, store call by store call, proved against the states of `TargetCoordinator`. */
module TargetProgram {
  import opened Canonical
  import opened TargetCoordinator

  class Coordinator {
    var disk: Disk
    /** The durable state after each store call that went through: where a crash may strike. */
    ghost var written: seq<Disk>

    constructor (disk: Disk)
      ensures this.disk == disk && written == []
    {
      this.disk, written := disk, [];
    }

    method Write(next: Disk)
      modifies this
      ensures disk == next && written == old(written) + [next]
    {
      disk, written := next, written + [next];
    }

    /** `finalizeTargetEffect`, after the effect is in the journal. */
    method FinalizeTargetEffect(op: Op, r: Receipt, ghost before: Disk, ghost start: seq<Disk>) returns (ok: bool)
      requires RecordEffect(before, op, r) == (disk, true) && written == start + [disk]
      modifies this
      ensures written == start + Finish(before, op, r).0 && disk == Last(before, Finish(before, op, r).0)
      ensures ok == Finish(before, op, r).1
    {
      if r.op in disk.receipts && disk.receipts[r.op] != r { return false; }
      Write(EnsureReceipt(disk, r).0);
      var (evidence, exact) := EnsureTerminal(disk, r);
      if !exact { return false; }
      Write(evidence);
      var (finalized, marked) := MarkFinalized(disk, op);
      Write(finalized);
      return marked;
    }

    method FinishEffect(op: Op, r: Receipt) returns (ok: bool)
      modifies this
      ensures written == old(written) + Finish(old(disk), op, r).0 && disk == Last(old(disk), Finish(old(disk), op, r).0)
      ensures ok == Finish(old(disk), op, r).1
    {
      var (recorded, accepted) := RecordEffect(disk, op, r);
      if !accepted { return false; }
      Write(recorded);
      ok := FinalizeTargetEffect(op, r, old(disk), old(written));
    }

    method CancelUnexecutedCall(op: Op, id: ApprovalId, consumedHere: bool)
      modifies this
      ensures written == old(written) + CancelUnexecuted(old(disk), op, id, consumedHere).0
      ensures disk == Last(old(disk), CancelUnexecuted(old(disk), op, id, consumedHere).0)
    {
      Write(Cancel(disk, op).0);
      if consumedHere { Write(Release(disk, id)); }
    }

    method ApplyTargetPlan(op: Op, loaded: Option<Default>, id: ApprovalId) returns (published: bool)
      modifies this
      ensures written == old(written) + ApplyPlan(old(disk), op, loaded, id).0
      ensures disk == Last(old(disk), ApplyPlan(old(disk), op, loaded, id).0)
      ensures published == ApplyPlan(old(disk), op, loaded, id).1
    {
      var current := disk.target;
      if current != op.desired && current != op.prior { return false; }
      var consumed := id in disk.consumed;
      Write(Admit(disk, op));
      if !consumed {
        var (next, ok) := Consume(disk, id);
        if !ok {
          CancelUnexecutedCall(op, id, false);
          return false;
        }
        Write(next);
      } else {
        Write(disk);
      }
      if current != op.desired && !ValidPlan(op, loaded) {
        CancelUnexecutedCall(op, id, !consumed);
        return false;
      }
      Write(Save(disk, op.desired));
      return true;
    }

    /** `LookupIdempotency`: the receipts in some directory order, up to the first with this key. */
    method FindReceipt(op: Op) returns (found: Lookup, r: Option<Receipt>)
      requires OneReceiptPerName(disk)
      ensures found == LookupReceipt(disk, op)
      ensures if found.Exact? then r.Some? && CachedFor(disk, op, r.value) else r.None?
    {
      var left := disk.receipts.Keys;
      while left != {}
        invariant left <= disk.receipts.Keys
        invariant forall x :: x in disk.receipts && x.key.name == op.key.name ==> x in left
        decreases |left|
      {
        var x :| x in left;
        if x.key.name == op.key.name {
          if !SameRequest(x, op) { return KeyCollision, None; }
          return Exact, Some(disk.receipts[x]);
        }
        left := left - {x};
      }
      return NoReceipt, None;
    }

    method Mutate(c: Call) returns (outcome: Outcome, receipt: Option<Receipt>)
      requires OneReceiptPerName(disk)
      modifies this
      ensures written == old(written) + TargetCoordinator.Mutate(old(disk), c).0
      ensures disk == Last(old(disk), TargetCoordinator.Mutate(old(disk), c).0)
      ensures outcome == TargetCoordinator.Mutate(old(disk), c).1
      ensures outcome.Replayed? ==> receipt.Some? && CachedFor(old(disk), Plan(old(disk), c).value, receipt.value)
    {
      hide Finish, ApplyPlan, CachedFor, LookupReceipt, OneReceiptPerName, EffectReceipt, Authorized;
      if !c.operator { return Refused, None; }
      var existing := Existing(disk, c.key);
      var plan := Plan(disk, c);
      if plan.None? { return Refused, None; }
      var op, loaded := plan.value, disk.target;
      var found, cached := FindReceipt(op);
      if found.KeyCollision? { return Refused, None; }
      if found.Exact? { return Replayed, cached; }
      if existing.Some? && existing.value.op != op { return Refused, None; }
      if existing.None? { Write(Reserve(disk, op, c.now)); }
      if !Authorized(disk, op, c.approvalId, existing.Some?, c.policyAllows) {
        if existing.None? { Write(Cancel(disk, op).0); }
        return Refused, None;
      }
      var record := disk.journal[op.key];
      var published := ApplyTargetPlan(op, loaded, c.approvalId);
      if !published { return Ran(false), None; }
      receipt := Some(EffectReceipt(record, c.now));
      var finished := FinishEffect(op, receipt.value);
      outcome := Ran(finished);
    }

    method ReconcileTargetRecord(record: Record, now: int) returns (ok: bool)
      modifies this
      ensures written == old(written) + ReconcileRecord(old(disk), record, now).0
      ensures disk == Last(old(disk), ReconcileRecord(old(disk), record, now).0)
      ensures ok == ReconcileRecord(old(disk), record, now).1
    {
      if record.phase.Finalized? { return true; }
      if disk.target == record.op.prior && record.phase.Pending? {
        var id := Own(record.op.key);
        Write(if id in disk.issued && id in disk.consumed then Release(disk, id) else disk);
        var (next, cancelled) := Cancel(disk, record.op);
        Write(next);
        return cancelled;
      }
      if disk.target != record.op.desired { return false; }
      ok := FinishEffect(record.op, EffectReceipt(record, now));
    }

    method ListRecords() returns (records: seq<Record>)
      requires forall k :: k in disk.journal ==> disk.journal[k].op.key == k
      ensures Lists(records, disk)
    {
      records := [];
      var left := disk.journal.Keys;
      while left != {}
        invariant Listing(disk, records, left)
        decreases |left|
      {
        var k :| k in left;
        ListingStep(disk, records, left, k);
        records := records + [disk.journal[k]];
        left := left - {k};
      }
    }

    /** However the journal lists its records, startup writes the states that `Reconcile` describes. */
    method ReconcileStartup(now: int) returns (ok: bool)
      requires forall k :: k in disk.journal ==> disk.journal[k].op.key == k
      modifies this
      ensures exists records ::
                && Lists(records, old(disk)) && (disk, ok) == (Last(old(disk), Reconcile(old(disk), records, now).0), Reconcile(old(disk), records, now).1)
                && written == old(written) + Reconcile(old(disk), records, now).0
    {
      var records := ListRecords();
      ok := ReconcileFrom(records, now);
    }

    method ReconcileFrom(records: seq<Record>, now: int) returns (ok: bool)
      modifies this
      ensures written == old(written) + Reconcile(old(disk), records, now).0
      ensures disk == Last(old(disk), Reconcile(old(disk), records, now).0)
      ensures ok == Reconcile(old(disk), records, now).1
    {
      hide ReconcileRecord, Reconcile, Continued;
      ghost var done: seq<Disk> := [];
      ContinuedStart(disk, records, now);
      for i := 0 to |records|
        invariant written == old(written) + done && disk == Last(old(disk), done)
        invariant Continued(old(disk), records, now, done, disk, records[i..])
      {
        ContinuedStep(old(disk), records, now, done, disk, records[i..]);
        done := done + ReconcileRecord(disk, records[i], now).0;
        var settled := ReconcileTargetRecord(records[i], now);
        if !settled { return false; }
      }
      ContinuedEnd(old(disk), records, now, done, disk, records[|records|..]);
      return true;
    }
  }

  /** What remains of a reconciliation that has come from `d` to `e`. */
  ghost predicate Continued(d: Disk, records: seq<Record>, now: int, done: seq<Disk>, e: Disk, left: seq<Record>) {
    Reconcile(d, records, now) == (done + Reconcile(e, left, now).0, Reconcile(e, left, now).1)
  }

  lemma ContinuedStart(d: Disk, records: seq<Record>, now: int)
    ensures records[0..] == records && Continued(d, records, now, [], d, records)
  {
    assert [] + Reconcile(d, records, now).0 == Reconcile(d, records, now).0;
  }

  lemma {:induction false} ContinuedStep(d: Disk, records: seq<Record>, now: int, done: seq<Disk>, e: Disk, left: seq<Record>)
    requires Continued(d, records, now, done, e, left) && left != []
    ensures var (t, ok) := ReconcileRecord(e, left[0], now);
            if ok then Continued(d, records, now, done + t, Last(e, t), left[1..])
            else Reconcile(d, records, now) == (done + t, false)
  {
    hide ReconcileRecord;
    var (t, ok) := ReconcileRecord(e, left[0], now);
    if ok {
      var u := Reconcile(Last(e, t), left[1..], now).0;
      assert done + (t + u) == (done + t) + u;
    }
  }

  lemma {:induction false} ContinuedEnd(d: Disk, records: seq<Record>, now: int, done: seq<Disk>, e: Disk, left: seq<Record>)
    requires Continued(d, records, now, done, e, left) && left == []
    ensures Reconcile(d, records, now) == (done, true)
  {
    assert done + [] == done;
  }

  /** The journal has been listed but for the keys left. */
  ghost predicate Listing(d: Disk, records: seq<Record>, left: set<Key>) {
    && left <= d.journal.Keys
    && (forall i :: 0 <= i < |records| ==>
          var k := records[i].op.key; k in d.journal && d.journal[k] == records[i] && k !in left)
    && (forall i, j :: 0 <= i < j < |records| ==> records[i].op.key != records[j].op.key)
    && forall k :: k in d.journal && k !in left ==> exists i :: 0 <= i < |records| && records[i].op.key == k
  }

  lemma ListingStep(d: Disk, records: seq<Record>, left: set<Key>, k: Key)
    requires Listing(d, records, left) && k in left && d.journal[k].op.key == k
    ensures Listing(d, records + [d.journal[k]], left - {k})
  {
    var next := records + [d.journal[k]];
    forall j | j in d.journal && j !in left - {k} ensures exists i :: 0 <= i < |next| && next[i].op.key == j {
      if j == k {
        assert next[|records|].op.key == j;
      } else {
        var i :| 0 <= i < |records| && records[i].op.key == j;
        assert next[i].op.key == j;
      }
    }
  }
}
