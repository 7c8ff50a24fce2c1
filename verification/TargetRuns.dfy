/** Runs of the target coordinator: crash atomicity of one call, and every sequence of issues, calls and startups. */
module TargetRuns {
  import opened Canonical
  import opened TargetCoordinator
  import opened TargetCalls

  // ---------- Atomicity of one call ----------

  /** As if the call had not been made, but for admissions in the audit trail. */
  ghost predicate NotDone(d: Disk, f: Disk) {
    && f.journal == d.journal && f.target == d.target && f.issued == d.issued && f.consumed == d.consumed
    && f.receipts == d.receipts && forall x :: TerminalsOf(f.audit, x) == TerminalsOf(d.audit, x)
  }

  /** The whole transition: a finalized record, the desired target, a consumed approval, one receipt, one
      terminal event. */
  ghost predicate FullyDone(d: Disk, f: Disk, op: Op) {
    && op.key in f.journal && f.journal[op.key].op == op && f.journal[op.key].phase.Finalized?
    && var r := f.journal[op.key].phase.receipt;
       && f.journal == d.journal[op.key := f.journal[op.key]]
       && f.target == op.desired && f.issued == d.issued && f.consumed == d.consumed + {Own(op.key)}
       && f.receipts == d.receipts[op := r]
       && forall x :: TerminalsOf(f.audit, x) == if x == op then [r] else TerminalsOf(d.audit, x)
  }

  /** Once no record is live, the operation has happened entirely or not at all. */
  lemma SettledIsAtomic(d: Disk, f: Disk, op: Op, initial: Option<Default>)
    requires Inv(d, initial) && Clean(d) && op.key !in d.journal && Good(d, f, op, initial) && Clean(f)
    ensures NotDone(d, f) || FullyDone(d, f, op)
  {
    hide Inv, TerminalsOf, During;
    NoTraceOf(d, op, initial);
    if op.key in f.journal {
      assert RecordConsistent(f, op.key) by { InvRecord(f, op.key, initial); }
      assert FullyDone(d, f, op) by { DoneSinceDuring(d, f, op); }
    } else {
      NoTraceOf(f, op, initial);
      UndoneSinceDuring(d, f, op);
    }
  }

  lemma InvRecord(d: Disk, k: Key, initial: Option<Default>)
    requires Inv(d, initial) && k in d.journal
    ensures RecordConsistent(d, k)
  {
  }

  lemma DoneSinceDuring(d: Disk, f: Disk, op: Op)
    requires During(d, f, op) && op.key in f.journal && RecordConsistent(f, op.key) && Clean(f)
    ensures FullyDone(d, f, op)
  {
    hide TerminalsOf;
  }

  lemma {:induction false} UndoneSinceDuring(d: Disk, f: Disk, op: Op)
    requires During(d, f, op) && op.key !in f.journal && op.key !in d.journal
    requires Own(op.key) !in d.consumed && op !in d.receipts && TerminalsOf(d.audit, op) == []
    requires Own(op.key) !in f.consumed && op !in f.receipts && TerminalsOf(f.audit, op) == []
    ensures NotDone(d, f)
  {
    hide TerminalsOf;
    assert f.journal == d.journal;
    assert f.consumed == d.consumed;
    assert f.receipts == d.receipts;
  }

  function Cut(d: Disk, t: seq<Disk>, writes: nat): Disk { if writes == 0 || t == [] then d else if writes <= |t| then t[writes - 1] else t[|t| - 1] }

  /** Reconciling around this operation touches nothing else. */
  lemma {:induction false} ReconcileDuring(d: Disk, e: Disk, records: seq<Record>, now: int, op: Op, initial: Option<Default>)
    requires Inv(d, initial) && Clean(d) && op.key !in d.journal && op.prior == d.target
    requires Good(d, e, op, initial) && Awaiting(records, e)
    ensures AllGood(d, Reconcile(e, records, now).0, op, initial)
    decreases |records|
  {
    hide Inv, Clean, Awaiting, ReconcileRecord, During, TerminalsOf;
    if records != [] {
      var t := ReconcileRecord(e, records[0], now).0;
      ReconcileOne(d, e, records, now, op, initial);
      ReconcileNext(e, records, now, initial);
      ReconcileDuring(d, Last(e, t), records[1..], now, op, initial);
    }
  }

  lemma ReconcileOne(d: Disk, e: Disk, records: seq<Record>, now: int, op: Op, initial: Option<Default>)
    requires Clean(d) && op.prior == d.target && op.key !in d.journal
    requires Good(d, e, op, initial) && records != [] && Awaiting(records, e)
    ensures AllGood(d, ReconcileRecord(e, records[0], now).0, op, initial)
  {
    var record := records[0];
    hide TerminalsOf, Inv;
    if !record.phase.Finalized? {
      assert record.op.key == op.key && record.op == op;
      ReconcileRecordGood(d, e, record, now, initial);
    }
  }

  datatype Attempt = Attempt(records: seq<Record>, now: int, writes: nat)

  /** Startups cut off one after the other, each reading its own listing of the disk it finds. */
  ghost predicate CutOff(e: Disk, attempts: seq<Attempt>, f: Disk)
    decreases |attempts|
  {
    if attempts == [] then f == e
    else
      && Awaiting(attempts[0].records, e)
      && CutOff(Cut(e, Reconcile(e, attempts[0].records, attempts[0].now).0, attempts[0].writes), attempts[1..], f)
  }

  lemma {:induction false} CutOffGood(d: Disk, e: Disk, attempts: seq<Attempt>, f: Disk, op: Op, initial: Option<Default>)
    requires Inv(d, initial) && Clean(d) && op.key !in d.journal && op.prior == d.target && Good(d, e, op, initial)
    requires CutOff(e, attempts, f)
    ensures Good(d, f, op, initial)
    decreases |attempts|
  {
    hide Inv, Clean, Awaiting, During;
    if attempts != [] {
      var a := attempts[0];
      ReconcileDuring(d, e, a.records, a.now, op, initial);
      CutOffGood(d, Cut(e, Reconcile(e, a.records, a.now).0, a.writes), attempts[1..], f, op, initial);
    }
  }

  lemma UntouchedIsGood(d: Disk, op: Op, initial: Option<Default>)
    requires Inv(d, initial) && op.key !in d.journal
    ensures Good(d, d, op, initial)
  {
  }

  lemma PlannedPrior(d: Disk, c: Call, op: Op)
    requires c.key !in d.journal && Plan(d, c) == Some(op)
    ensures op.key == c.key && op.prior == d.target
  {
  }

  // ---------- What a call asks for and gets ----------

  /** Under a fresh key a call can be planned exactly if its machine resolves and, to clear, is the stored default's. */
  predicate Possible(d: Disk, c: Call) {
    c.valid && c.resolved.Some? && (c.kind.Clear? ==> d.target.Some? && d.target.value.locator == c.resolved.value)
  }

  /** This operation is what the call asks for, from the stored default. */
  predicate Asks(d: Disk, c: Call, op: Op) {
    && op.kind == c.kind && Some(op.target) == c.resolved && op.key == c.key && op.caller == c.caller && op.reason == c.reason
    && op.deadline == c.deadline && op.prior == d.target && Wants(c, op.desired)
  }

  lemma PlannedAsAsked(d: Disk, c: Call)
    requires c.key !in d.journal
    ensures Plan(d, c).Some? <==> Possible(d, c)
    ensures forall op :: Plan(d, c) == Some(op) <==> Possible(d, c) && Asks(d, c, op)
  {
  }

  /** The call has happened entirely: its target is stored, its record says what was asked and by whom, and there
      are its consumption, its receipt and its terminal event. */
  ghost predicate DoneAsAsked(d: Disk, f: Disk, c: Call) {
    && c.key in f.journal && Asks(d, c, f.journal[c.key].op) && Wants(c, f.target)
    && FullyDone(d, f, f.journal[c.key].op)
  }

  lemma DoneIsAsAsked(d: Disk, f: Disk, c: Call, op: Op)
    requires Asks(d, c, op)
    ensures FullyDone(d, f, op) ==> DoneAsAsked(d, f, c)
  {
  }

  lemma DoneRecord(d: Disk, f: Disk, op: Op)
    ensures FullyDone(d, f, op) ==> op.key in f.journal && f.journal[op.key].phase.Finalized?
  {
  }

  /** Nobody has used this idempotency key. */
  predicate NameUnused(d: Disk, name: string) { forall k :: k in d.journal ==> k.name != name }

  /** The approval issued for this caller and key is for exactly what the call asks. */
  predicate ApprovalFits(d: Disk, c: Call) {
    c.approvalId == Own(c.key) && c.approvalId in d.issued && Asks(d, c, d.issued[c.approvalId])
  }

  /** A call that is not cut off happens entirely, with a receipt of its own time, exactly if the operator asks for
      something possible under an unused key and its approval fits; otherwise it leaves no trace. */
  lemma CompletedCall(d: Disk, c: Call, initial: Option<Default>)
    requires Inv(d, initial) && Clean(d) && c.key !in d.journal
    ensures
      var (t, outcome) := Mutate(d, c);
      var goes := c.operator && Possible(d, c) && NameUnused(d, c.key.name) && ApprovalFits(d, c) && c.policyAllows;
      && (goes ==> outcome == Ran(true) && DoneAsAsked(d, Last(d, t), c)
                   && var r := Last(d, t).journal[c.key].phase.receipt; r.startedAt == c.now && r.completedAt == c.now)
      && (!goes ==> !outcome.Ran? && NotDone(d, Last(d, t)))
  {
    hide Inv, Clean, During, TerminalsOf, Mutate, Possible, Plan, FullyDone, NotDone;
    PlannedAsAsked(d, c);
    NamesOfReceipts(d, c.key.name, initial);
    if Possible(d, c) {
      var op := Plan(d, c).value;
      PlannedCall(d, c, op, initial);
      ApprovedAsAsked(d, c, op, initial);
      DoneIsAsAsked(d, Last(d, Mutate(d, c).0), c, op);
      DoneRecord(d, Last(d, Mutate(d, c).0), op);
    } else {
      Unplanned(d, c);
    }
  }

  lemma Unplanned(d: Disk, c: Call)
    requires Plan(d, c).None?
    ensures Mutate(d, c) == ([], Refused) && NotDone(d, Last(d, []))
  {
  }

  /** Receipts and records use the same keys. */
  lemma NamesOfReceipts(d: Disk, name: string, initial: Option<Default>)
    requires Inv(d, initial) && Clean(d)
    ensures NameUnused(d, name) <==> !KeyTaken(d, name)
  {
    hide Aligned, TerminalsOf;
    if !NameUnused(d, name) {
      var k :| k in d.journal && k.name == name;
      assert RecordConsistent(d, k);
    }
    if KeyTaken(d, name) {
      var op :| op in d.receipts && op.key.name == name;
      assert Effected(d, op);
    }
  }

  lemma ApprovedAsAsked(d: Disk, c: Call, op: Op, initial: Option<Default>)
    requires Inv(d, initial) && c.key !in d.journal && Asks(d, c, op)
    ensures Authorized(d, op, c.approvalId, false, c.policyAllows) <==> ApprovalFits(d, c) && c.policyAllows
  {
    NoTraceOf(d, op, initial);
    hide Aligned, TerminalsOf;
    assert c.approvalId in d.issued ==> c.approvalId == Own(d.issued[c.approvalId].key);
  }

  lemma PlannedCall(d: Disk, c: Call, op: Op, initial: Option<Default>)
    requires Inv(d, initial) && Clean(d) && c.key !in d.journal && Plan(d, c) == Some(op)
    ensures
      var (t, outcome) := Mutate(d, c);
      var authorized := c.operator && !KeyTaken(d, c.key.name) && Authorized(d, op, c.approvalId, false, c.policyAllows);
      && (authorized ==> outcome == Ran(true) && FullyDone(d, Last(d, t), op) && Last(d, t).journal[c.key].phase.receipt == Receipt(op, c.now, c.now))
      && (!authorized ==> !outcome.Ran? && NotDone(d, Last(d, t)))
  {
    hide Inv, Clean, During, TerminalsOf;
    MutateGood(d, c, op, initial);
    UntouchedIsGood(d, op, initial);
    SettledIsAtomic(d, Last(d, Mutate(d, c).0), op, initial);
    PlannedPrior(d, c, op);
    if Mutate(d, c).1.Ran? { AppliedReceipt(Reserve(d, op, c.now), op, d.target, c.approvalId, c.now); }
  }

  lemma FinishedReceipt(d: Disk, op: Op, r: Receipt)
    requires AtPending(d, op) && Finish(d, op, r).1
    ensures var f := Last(d, Finish(d, op, r).0); op.key in f.journal && f.journal[op.key] == d.journal[op.key].(phase := Finalized(r))
  {
    hide TerminalsOf;
  }

  lemma PlanKeepsJournal(d: Disk, op: Op, loaded: Option<Default>, id: ApprovalId)
    requires ApplyPlan(d, op, loaded, id).1
    ensures Last(d, ApplyPlan(d, op, loaded, id).0).journal == d.journal
  {
  }

  /** The receipt of a call that goes through tells when the call was reserved. */
  lemma AppliedReceipt(d: Disk, op: Op, loaded: Option<Default>, id: ApprovalId, now: int)
    requires AtPending(d, op) && Apply(d, op, loaded, id, now).1
    ensures var f := Last(d, Apply(d, op, loaded, id, now).0);
            op.key in f.journal && f.journal[op.key] == d.journal[op.key].(phase := Finalized(EffectReceipt(d.journal[op.key], now)))
  {
    hide ApplyPlan, Finish;
    PlanKeepsJournal(d, op, loaded, id);
    var e := Last(d, ApplyPlan(d, op, loaded, id).0);
    var r := EffectReceipt(d.journal[op.key], now);
    FinishedReceipt(e, op, r);
    assert Last(d, ApplyPlan(d, op, loaded, id).0 + Finish(e, op, r).0) == Last(e, Finish(e, op, r).0);
  }

  lemma {:induction false} PlannedCrashAtomic(d: Disk, c: Call, op: Op, writes: nat, attempts: seq<Attempt>, e: Disk, last: Attempt, initial: Option<Default>)
    requires Inv(d, initial) && Clean(d) && c.key !in d.journal && Plan(d, c) == Some(op)
    requires CutOff(Cut(d, Mutate(d, c).0, writes), attempts, e) && Awaiting(last.records, e)
    ensures var (t, ok) := Reconcile(e, last.records, last.now);
            ok && (NotDone(d, Last(e, t)) || FullyDone(d, Last(e, t), op))
  {
    hide Inv, Clean, Awaiting, During, Reconcile, Mutate, TerminalsOf;
    MutateGood(d, c, op, initial);
    UntouchedIsGood(d, op, initial);
    PlannedPrior(d, c, op);
    CutOffGood(d, Cut(d, Mutate(d, c).0, writes), attempts, e, op, initial);
    ReconcileGood(e, last.records, last.now, initial);
    ReconcileDuring(d, e, last.records, last.now, op, initial);
    SettledIsAtomic(d, Last(e, Reconcile(e, last.records, last.now).0), op, initial);
  }

  /** On a disk without live records a startup writes nothing. */
  lemma {:induction false} ReconcileRests(e: Disk, records: seq<Record>, now: int)
    requires Clean(e) && Awaiting(records, e)
    ensures Reconcile(e, records, now) == ([], true)
    decreases |records|
  {
    hide Clean, Awaiting;
    if records != [] {
      HeadRests(e, records, now);
      ReconcileRests(e, records[1..], now);
      var t: seq<Disk> := [];
      assert t + t == t;
    }
  }

  lemma HeadRests(e: Disk, records: seq<Record>, now: int)
    requires Clean(e) && Awaiting(records, e) && records != []
    ensures ReconcileRecord(e, records[0], now) == ([], true) && Awaiting(records[1..], e)
  {
    AwaitingSkip(records, e);
  }

  lemma {:induction false} CutOffRests(e: Disk, attempts: seq<Attempt>, f: Disk)
    requires Clean(e) && CutOff(e, attempts, f)
    ensures f == e
    decreases |attempts|
  {
    hide Clean, Awaiting;
    if attempts != [] {
      ReconcileRests(e, attempts[0].records, attempts[0].now);
      CutOffRests(e, attempts[1..], f);
    }
  }

  /** The main result: a call cut off after any number of writes, then any number of startups cut off anywhere,
      then one that completes: what the call asks for has happened entirely or not at all. */
  lemma {:induction false} CrashAtomic(d: Disk, c: Call, writes: nat, attempts: seq<Attempt>, e: Disk, last: Attempt, initial: Option<Default>)
    requires Inv(d, initial) && Clean(d) && c.key !in d.journal
    requires CutOff(Cut(d, Mutate(d, c).0, writes), attempts, e) && Awaiting(last.records, e)
    ensures var (t, ok) := Reconcile(e, last.records, last.now);
            ok && (NotDone(d, Last(e, t)) || DoneAsAsked(d, Last(e, t), c))
  {
    hide Inv, Clean, Awaiting, During, Reconcile, Mutate, TerminalsOf, NotDone, FullyDone, Possible, Plan, CutOff;
    PlannedAsAsked(d, c);
    if Possible(d, c) {
      var op := Plan(d, c).value;
      PlannedCrashAtomic(d, c, op, writes, attempts, e, last, initial);
      DoneIsAsAsked(d, Last(e, Reconcile(e, last.records, last.now).0), c, op);
    } else {
      Unplanned(d, c);
      CutOffRests(d, attempts, e);
      ReconcileRests(e, last.records, last.now);
    }
  }

  // ---------- Whole runs ----------

  datatype System = System(disk: Disk, up: bool)

  datatype Move = Issue(op: Op) | Invoke(call: Call) | Start(records: seq<Record>, now: int)

  /** A move, and after how many of its writes the process stops, if it does. */
  datatype Happening = Happening(move: Move, crash: Option<nat>)

  function After(d: Disk, t: seq<Disk>, crash: Option<nat>): Disk { if crash.None? then Last(d, t) else Cut(d, t, crash.value) }

  /** The daemon serves calls only once its startup reconciliation has succeeded; approvals are issued once under
      the ID derived from their operation. */
  ghost function Step(s: System, h: Happening): System {
    match h.move
    case Issue(op) =>
      if !s.up then s
      else System(if Own(op.key) in s.disk.issued then s.disk else s.disk.(issued := s.disk.issued[Own(op.key) := op]), h.crash.None?)
    case Invoke(c) =>
      if !s.up then s else System(After(s.disk, Mutate(s.disk, c).0, h.crash), h.crash.None?)
    case Start(records, now) =>
      if s.up || !Lists(records, s.disk) then s
      else
        var (t, ok) := Reconcile(s.disk, records, now);
        System(After(s.disk, t, h.crash), h.crash.None? && ok)
  }

  ghost function Run(s: System, hs: seq<Happening>): System
    decreases |hs|
  {
    if hs == [] then s else Run(Step(s, hs[0]), hs[1..])
  }

  ghost predicate Sound(s: System, initial: Option<Default>) { Inv(s.disk, initial) && (s.up ==> Clean(s.disk)) }

  lemma IssueKeeps(d: Disk, op: Op, initial: Option<Default>)
    requires Inv(d, initial) && Own(op.key) !in d.issued
    ensures Inv(d.(issued := d.issued[Own(op.key) := op]), initial)
  {
    hide Aligned, OneLive, NamesDistinct, TerminalsOf;
    var e := d.(issued := d.issued[Own(op.key) := op]);
    forall k | k in e.journal ensures RecordConsistent(e, k) { assert RecordConsistent(d, k); }
    ContinuesKeeps(d, e);
    AlignedKeeps(d, e, initial);
    assert forall x :: Effected(d, x) ==> Effected(e, x);
  }

  lemma StepSound(s: System, h: Happening, initial: Option<Default>)
    requires Sound(s, initial)
    ensures Sound(Step(s, h), initial)
  {
    hide Inv, Awaiting, Lists, Mutate, Reconcile, Plan, TerminalsOf;
    match h.move {
      case Issue(op) =>
        if Own(op.key) !in s.disk.issued { IssueKeeps(s.disk, op, initial); }
      case Invoke(c) =>
        if s.up {
          if c.key in s.disk.journal {
            KnownKeyWritesNothing(s.disk, c, initial);
          } else if Plan(s.disk, c).Some? {
            MutateGood(s.disk, c, Plan(s.disk, c).value, initial);
          } else {
            UnplannedWritesNothing(s.disk, c);
          }
        }
      case Start(records, now) =>
        if !s.up && Lists(records, s.disk) {
          ListsIsAwaiting(records, s.disk);
          ReconcileGood(s.disk, records, now, initial);
        }
    }
  }

  lemma UnplannedWritesNothing(d: Disk, c: Call)
    requires Plan(d, c).None?
    ensures Mutate(d, c).0 == []
  {
  }

  lemma ListsIsAwaiting(records: seq<Record>, d: Disk)
    requires Lists(records, d)
    ensures Awaiting(records, d)
  {
  }

  /** Whenever the daemon is up, every request has happened entirely (finalized record, consumed approval, its one
      receipt, its one terminal event) or not at all, and the terminal events are exactly the transitions that
      lead from the initial target to the stored one. */
  ghost predicate Settled(d: Disk, initial: Option<Default>) {
    && (forall k :: k in d.journal ==>
          var r := d.journal[k];
          && r.op.key == k && r.phase.Finalized? && r.op in d.receipts && d.receipts[r.op] == r.phase.receipt
          && TerminalsOf(d.audit, r.op) == [r.phase.receipt])
    && (forall id :: id in d.consumed <==> id.Own? && id.key in d.journal)
    && (forall op :: op in d.receipts <==> op.key in d.journal && d.journal[op.key].op == op)
    && (forall r :: Terminal(r) in d.audit ==> r.op in d.receipts)
    && Chained(initial, d.audit) && Reached(initial, d.audit) == d.target
  }

  lemma {:induction false} RunSound(s: System, hs: seq<Happening>, initial: Option<Default>)
    requires Sound(s, initial)
    ensures Sound(Run(s, hs), initial)
    decreases |hs|
  {
    hide Sound, Step;
    if hs != [] {
      StepSound(s, hs[0], initial);
      RunSound(Step(s, hs[0]), hs[1..], initial);
    }
  }

  function Fresh(initial: Option<Default>): Disk { Disk(map[], initial, map[], {}, map[], []) }

  /** Every run, with any crashes in calls and startups. */
  lemma {:induction false} EveryRunSettles(hs: seq<Happening>, initial: Option<Default>)
    ensures var s := Run(System(Fresh(initial), false), hs);
            && OneLive(s.disk)
            && (s.up ==> Settled(s.disk, initial))
  {
    RunSound(System(Fresh(initial), false), hs, initial);
    var s := Run(System(Fresh(initial), false), hs);
    if s.up { CleanIsSettled(s.disk, initial); }
  }

  lemma CleanIsSettled(d: Disk, initial: Option<Default>)
    requires Inv(d, initial) && Clean(d)
    ensures Settled(d, initial)
  {
    hide TerminalsOf, Chained, Reached;
    forall k | k in d.journal ensures RecordConsistent(d, k) {}
    assert forall k :: !Live(d, k);
  }
}
