/** Calls of the target coordinator and its startup, against everything else on the disk: every state they write
    keeps the invariant, and both can be finished from any of them. */
module TargetCalls {
  import opened Canonical
  import opened TargetCoordinator

  // ---------- One operation against everything else ----------

  /** Since `d`, only this operation's record, approval, receipt and terminal events may have changed, and the
      target only together with the record. */
  ghost predicate During(d: Disk, e: Disk, op: Op) {
    && e.issued == d.issued
    && (forall k :: k != op.key ==> (k in e.journal <==> k in d.journal) && (k in d.journal ==> e.journal[k] == d.journal[k]))
    && (op.key in e.journal ==> e.journal[op.key].op == op)
    && (forall id :: id != Own(op.key) ==> (id in e.consumed <==> id in d.consumed))
    && (forall x :: x != op ==> (x in e.receipts <==> x in d.receipts) && (x in d.receipts ==> e.receipts[x] == d.receipts[x]))
    && (forall x :: x != op ==> TerminalsOf(e.audit, x) == TerminalsOf(d.audit, x))
    && (if op.key !in e.journal then e.target == d.target
        else if e.journal[op.key].phase.Pending? then e.target == d.target || e.target == op.desired
        else e.target == op.desired)
  }

  ghost predicate Good(d: Disk, e: Disk, op: Op, initial: Option<Default>) { Inv(e, initial) && During(d, e, op) }

  ghost predicate AllGood(d: Disk, t: seq<Disk>, op: Op, initial: Option<Default>) {
    forall i :: 0 <= i < |t| ==> Good(d, t[i], op, initial)
  }

  lemma FinishGood(d: Disk, e: Disk, op: Op, r: Receipt, initial: Option<Default>)
    requires Good(d, e, op, initial)
    requires (AtPending(e, op) && Own(op.key) in e.consumed && e.target == op.desired && r.op == op) || AtFinalizing(e, op, r)
    ensures var (t, ok) := Finish(e, op, r);
            ok && |t| == 4 && AllGood(d, t, op, initial) && Clean(t[3]) && op.key in t[3].journal
  {
    hide Inv, Clean, TerminalsOf, During;
    var d1 := RecordEffect(e, op, r).0;
    if AtPending(e, op) { RecordEffectKeeps(e, op, r, initial); DuringRecordEffect(d, e, op, r); }
    var d2 := EnsureReceipt(d1, r).0;
    AtFinalizingOwns(d1, op, r, initial);
    EnsureReceiptKeeps(d1, op, r, initial);
    DuringEnsureReceipt(d, d1, op, r);
    var d3 := EnsureTerminal(d2, r).0;
    EnsureTerminalKeeps(d2, op, r, initial);
    DuringEnsureTerminal(d, d2, op, r);
    MarkFinalizedKeeps(d3, op, r, initial);
    DuringMarkFinalized(d, d3, op, r);
  }

  lemma AtFinalizingOwns(e: Disk, op: Op, r: Receipt, initial: Option<Default>)
    requires Inv(e, initial) && AtFinalizing(e, op, r)
    ensures r.op == op
  {
    assert RecordConsistent(e, op.key);
  }

  lemma DuringRecordEffect(d: Disk, e: Disk, op: Op, r: Receipt)
    requires During(d, e, op) && AtPending(e, op) && r.op == op && e.target == op.desired
    ensures During(d, RecordEffect(e, op, r).0, op)
  {
    hide TerminalsOf;
  }

  lemma DuringEnsureReceipt(d: Disk, e: Disk, op: Op, r: Receipt)
    requires During(d, e, op) && r.op == op
    ensures During(d, EnsureReceipt(e, r).0, op)
  {
    hide TerminalsOf;
  }

  lemma DuringAudit(d: Disk, e: Disk, op: Op, event: Event)
    requires During(d, e, op) && (event.Terminal? ==> event.receipt.op == op)
    ensures During(d, e.(audit := e.audit + [event]), op)
  {
    AuditAppend(e.audit, event, None);
    hide TerminalsOf;
  }

  lemma DuringEnsureTerminal(d: Disk, e: Disk, op: Op, r: Receipt)
    requires During(d, e, op) && r.op == op
    ensures During(d, EnsureTerminal(e, r).0, op)
  {
    hide TerminalsOf, During;
    DuringAudit(d, e, op, Terminal(r));
  }

  lemma DuringMarkFinalized(d: Disk, e: Disk, op: Op, r: Receipt)
    requires During(d, e, op) && AtFinalizing(e, op, r)
    ensures During(d, MarkFinalized(e, op).0, op) && op.key in MarkFinalized(e, op).0.journal
  {
    hide TerminalsOf;
  }

  /** From a fresh reservation, an authorized call runs to the end and every state it writes is good. */
  lemma ApplyGood(d: Disk, e: Disk, op: Op, id: ApprovalId, now: int, initial: Option<Default>)
    requires Good(d, e, op, initial) && AtPending(e, op) && e.target == op.prior
    requires id == Own(op.key) && id in e.issued && id !in e.consumed && SuitsKind(op.kind, e.target, op.desired)
    ensures var (t, ok) := Apply(e, op, e.target, id, now);
            ok && |t| == 7 && AllGood(d, t, op, initial) && Clean(t[6]) && op.key in t[6].journal
  {
    hide Inv, Clean, TerminalsOf, During;
    var d1 := Admit(e, op);
    AdmitKeeps(e, op, initial);
    DuringAudit(d, e, op, Admitted(op));
    var d2 := Consume(d1, id).0;
    ConsumptionKeeps(d1, op, true, initial);
    DuringConsumption(d, d1, op, true);
    var d3 := Save(d2, op.desired);
    SaveKeeps(d2, op, initial);
    DuringSave(d, d2, op);
    var r := EffectReceipt(e.journal[op.key], now);
    FinishGood(d, d3, op, r, initial);
  }

  lemma DuringConsumption(d: Disk, e: Disk, op: Op, on: bool)
    requires During(d, e, op)
    ensures During(d, e.(consumed := if on then e.consumed + {Own(op.key)} else e.consumed - {Own(op.key)}), op)
  {
    hide TerminalsOf;
  }

  lemma DuringSave(d: Disk, e: Disk, op: Op)
    requires During(d, e, op) && AtPending(e, op)
    ensures During(d, Save(e, op.desired), op)
  {
    hide TerminalsOf;
  }

  lemma DuringReserve(d: Disk, op: Op, now: int)
    requires op.key !in d.journal && op.prior == d.target
    ensures During(d, Reserve(d, op, now), op) && AtPending(Reserve(d, op, now), op)
  {
    hide TerminalsOf;
  }

  lemma DuringCancel(d: Disk, e: Disk, op: Op)
    requires During(d, e, op) && AtPending(e, op) && e.target == d.target
    ensures During(d, Cancel(e, op).0, op) && op.key !in Cancel(e, op).0.journal
  {
    hide TerminalsOf;
  }

  /** What a call wants the default target to be. */
  predicate Wants(c: Call, value: Option<Default>) {
    match c.kind
    case Enroll => c.resolved.Some? && value == Some(Default(c.resolved.value, c.aliases))
    case Clear => value == None
  }

  /** The call repeats the recorded request; its deadline may be another. */
  predicate Repeats(c: Call, op: Op) {
    c.kind == op.kind && c.resolved == Some(op.target) && c.key == op.key && c.caller == op.caller && c.reason == op.reason && Wants(c, op.desired)
  }

  /** A call under a key that already has its record writes nothing. It replays that record's receipt exactly if it
      repeats the recorded request, and is refused otherwise. */
  lemma KnownKeyWritesNothing(d: Disk, c: Call, initial: Option<Default>)
    requires Inv(d, initial) && Clean(d) && c.key in d.journal
    ensures var (t, outcome) := Mutate(d, c);
            && t == [] && !outcome.Ran?
            && (outcome.Replayed? <==> c.operator && c.valid && Repeats(c, d.journal[c.key].op))
            && (outcome.Replayed? ==>
                  Plan(d, c).Some? && forall r :: CachedFor(d, Plan(d, c).value, r) <==> r == d.journal[c.key].phase.receipt)
  {
    hide Aligned, Chained, Reached, TerminalsOf;
    var record := d.journal[c.key];
    assert RecordConsistent(d, c.key) && record.op in d.receipts;
    if Plan(d, c).Some? {
      var op := Plan(d, c).value;
      assert KeyTaken(d, op.key.name);
      forall other | other in d.receipts && other.key.name == op.key.name ensures other == record.op {
        assert Effected(d, other);
      }
    }
  }

  /** Each state that a call writes is good, and a call that is not cut off leaves no record unfinalized: its
      own is finalized if the call went through, and gone if it was refused. */
  lemma MutateGood(d: Disk, c: Call, op: Op, initial: Option<Default>)
    requires Inv(d, initial) && Clean(d) && c.key !in d.journal && Plan(d, c) == Some(op)
    ensures var (t, outcome) := Mutate(d, c);
            && AllGood(d, t, op, initial) && Clean(Last(d, t))
            && (outcome.Ran? ==> outcome.finished && op.key in Last(d, t).journal)
            && (!outcome.Ran? ==> op.key !in Last(d, t).journal)
  {
    hide Inv, Clean, TerminalsOf, During;
    if c.operator && LookupReceipt(d, op).NoReceipt? {
      var d0 := Reserve(d, op, c.now);
      ReserveKeeps(d, op, c.now, initial);
      DuringReserve(d, op, c.now);
      PendingIsUnconsumed(d, op, c.now, initial);
      if Authorized(d0, op, c.approvalId, false, c.policyAllows) {
        IssuedIsOwn(d0, c.approvalId, initial);
        ApplyGood(d, d0, op, c.approvalId, c.now, initial);
      } else {
        CancelKeeps(d0, op, initial);
        DuringCancel(d, d0, op);
      }
    }
  }

  lemma PendingIsUnconsumed(d: Disk, op: Op, now: int, initial: Option<Default>)
    requires Inv(d, initial) && op.key !in d.journal
    ensures Own(op.key) !in Reserve(d, op, now).consumed
  {
  }

  lemma IssuedIsOwn(d: Disk, id: ApprovalId, initial: Option<Default>)
    requires Inv(d, initial) && id in d.issued
    ensures id == Own(d.issued[id].key)
  {
  }

  // ---------- Startup ----------

  /** Reconciling a live record succeeds, keeps the invariant after each write, touches nothing but that
      record's operation and leaves no live record. */
  lemma ReconcileRecordGood(d: Disk, e: Disk, record: Record, now: int, initial: Option<Default>)
    requires Good(d, e, record.op, initial) && record.op.key in e.journal && e.journal[record.op.key] == record
    requires !record.phase.Finalized?
    requires record.phase.Pending? && e.target == record.op.prior ==> e.target == d.target
    ensures var (t, ok) := ReconcileRecord(e, record, now);
            ok && t != [] && AllGood(d, t, record.op, initial) && Clean(t[|t| - 1])
  {
    hide Clean, TerminalsOf, During, NoOrphans, Aligned, OneLive, NamesDistinct;
    var op := record.op;
    assert RecordConsistent(e, op.key);
    if record.phase.Pending? && e.target == op.prior {
      ReleaseAndCancelGood(d, e, op, initial);
    } else {
      FinishGood(d, e, op, EffectReceipt(record, now), initial);
    }
  }

  lemma ReleaseAndCancelGood(d: Disk, e: Disk, op: Op, initial: Option<Default>)
    requires Good(d, e, op, initial) && AtPending(e, op) && e.target == op.prior && e.target == d.target
    ensures var id := Own(op.key);
            var d1 := if id in e.issued && id in e.consumed then Release(e, id) else e;
            var (d2, ok) := Cancel(d1, op);
            ok && Good(d, d1, op, initial) && Good(d, d2, op, initial) && Clean(d2)
  {
    hide Inv, Clean, TerminalsOf, During;
    var id := Own(op.key);
    ConsumedIsIssued(e, id, initial);
    var d1 := if id in e.issued && id in e.consumed then Release(e, id) else e;
    ConsumptionKeeps(e, op, false, initial);
    DuringConsumption(d, e, op, false);
    assert id in e.consumed || e.consumed - {id} == e.consumed;
    assert d1 == e.(consumed := e.consumed - {id});
    CancelKeeps(d1, op, initial);
    DuringCancel(d, d1, op);
  }

  lemma ConsumedIsIssued(d: Disk, id: ApprovalId, initial: Option<Default>)
    requires Inv(d, initial)
    ensures id in d.consumed ==> id in d.issued
  {
  }

  /** The records still to be reconciled are on the disk as listed, and every live record is among them. */
  ghost predicate Awaiting(records: seq<Record>, e: Disk) {
    && (forall i :: 0 <= i < |records| ==> records[i].op.key in e.journal && e.journal[records[i].op.key] == records[i])
    && (forall i, j :: 0 <= i < j < |records| ==> records[i].op.key != records[j].op.key)
    && forall k :: Live(e, k) ==> exists i :: 0 <= i < |records| && records[i].op.key == k
  }

  lemma DuringSelf(e: Disk, op: Op)
    requires op.key in e.journal && e.journal[op.key].op == op && (e.journal[op.key].phase.Pending? || e.target == op.desired)
    ensures During(e, e, op)
  {
  }

  lemma AwaitingNext(records: seq<Record>, e: Disk, next: Disk)
    requires records != [] && Awaiting(records, e) && During(e, next, records[0].op) && Clean(next)
    ensures Awaiting(records[1..], next)
  {
    hide TerminalsOf;
  }

  lemma AwaitingSkip(records: seq<Record>, e: Disk)
    requires records != [] && Awaiting(records, e) && records[0].phase.Finalized?
    ensures Awaiting(records[1..], e)
  {
    forall k | Live(e, k) ensures exists i :: 0 <= i < |records[1..]| && records[1..][i].op.key == k {
      var i :| 0 <= i < |records| && records[i].op.key == k;
      assert records[1..][i - 1] == records[i];
    }
  }

  lemma NothingAwaited(e: Disk)
    requires Awaiting([], e)
    ensures Clean(e)
  {
    forall k | k in e.journal ensures e.journal[k].phase.Finalized? { assert !Live(e, k); }
  }

  /** One record of the listing: nothing is written for a finalized one, and a live one is settled. */
  lemma ReconcileNext(e: Disk, records: seq<Record>, now: int, initial: Option<Default>)
    requires Inv(e, initial) && records != [] && Awaiting(records, e)
    ensures var (t, ok) := ReconcileRecord(e, records[0], now);
            && ok && (forall i :: 0 <= i < |t| ==> Inv(t[i], initial)) && Awaiting(records[1..], Last(e, t))
  {
    hide Inv, Clean, Awaiting, During, TerminalsOf;
    var record := records[0];
    if record.phase.Finalized? {
      AwaitingSkip(records, e);
    } else {
      AwaitingHead(records, e);
      LiveTarget(e, record, initial);
      DuringSelf(e, record.op);
      ReconcileRecordGood(e, e, record, now, initial);
      AwaitingNext(records, e, Last(e, ReconcileRecord(e, record, now).0));
    }
  }

  lemma AwaitingHead(records: seq<Record>, e: Disk)
    requires records != [] && Awaiting(records, e)
    ensures records[0].op.key in e.journal && e.journal[records[0].op.key] == records[0]
  {
  }

  /** Startup never fails, whatever the order of the listing; each state it writes keeps the invariant, and it
      leaves every record finalized. */
  lemma {:induction false} ReconcileGood(e: Disk, records: seq<Record>, now: int, initial: Option<Default>)
    requires Inv(e, initial) && Awaiting(records, e)
    ensures var (t, ok) := Reconcile(e, records, now);
            && ok && Inv(Last(e, t), initial) && Clean(Last(e, t))
            && forall i :: 0 <= i < |t| ==> Inv(t[i], initial)
    decreases |records|
  {
    hide Inv, Clean, Awaiting, ReconcileRecord;
    if records == [] {
      NothingAwaited(e);
    } else {
      ReconcileNext(e, records, now, initial);
      ReconcileGood(Last(e, ReconcileRecord(e, records[0], now).0), records[1..], now, initial);
    }
  }

  lemma LiveTarget(e: Disk, record: Record, initial: Option<Default>)
    requires Inv(e, initial) && record.op.key in e.journal && e.journal[record.op.key] == record && !record.phase.Finalized?
    ensures record.phase.Pending? || e.target == record.op.desired
  {
    assert RecordConsistent(e, record.op.key);
  }
}
