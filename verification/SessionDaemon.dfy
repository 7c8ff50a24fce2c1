/** The durable writes with which the session service serves its callers, on the disk that startup reconciles: whatever
    a daemon leaves behind, the next startup can finish it. */
module SessionDaemon {
  import opened Canonical
  import opened Receipts
  import opened SessionReconcile
  import AuditLog

  const EMPTY := Disk(map[], map[], [], [])

  /** One durable write of a call. A receipt is stored before its terminal event is ensured, and a record is marked
      only when both have been. */
  datatype Write =
    | Reserve(identity: Identity, now: int)
    | Cancel(key: string)
    | Admit(identity: Identity, now: int)
    | Intend(key: string, receipt: Receipt)
    | StoreHeld(key: string)
    | StoreDenial(receipt: Receipt)
    | Witness(id: string)
    | Mark(key: string)

  /** Exclusive creation of the pending record. */
  function ReserveKey(d: Disk, identity: Identity, now: int): Disk {
    if identity.key in d.journal then d else Replace(d, Reservation(identity, now, Pending)).0
  }

  function CancelKey(d: Disk, key: string): Disk {
    if key !in d.journal || !d.journal[key].phase.Pending? then d
    else d.(journal := if Writes(d.fates) then d.journal - {key} else d.journal, fates := Tail(d.fates))
  }

  function AdmitOne(d: Disk, identity: Identity, now: int): Disk {
    var s := AuditLog.Append(AuditLog.State(d.log, d.fates), AuditLog.AdmissionEvent(now, identity)).0;
    d.(log := s.log, fates := s.fates)
  }

  /** Receipts are made under new IDs. */
  ghost predicate Enabled(d: Disk, w: Write) {
    match w
    case Intend(key, receipt) => key in d.journal && Unused(receipt.id, d)
    case StoreHeld(key) => key in d.journal && HeldReceipt(d.journal[key]).Some?
    case StoreDenial(receipt) => Unused(receipt.id, d)
    case Witness(id) => id in d.receipts && d.receipts[id].id == id
    case Mark(key) => key in d.journal && (d.journal[key].phase.Finalizing? ==> Evidenced(d, d.journal[key].phase.receipt))
    case _ => true
  }

  ghost function Perform(d: Disk, w: Write): Disk
    requires Enabled(d, w)
  {
    match w
    case Reserve(identity, now) => ReserveKey(d, identity, now)
    case Cancel(key) => CancelKey(d, key)
    case Admit(identity, now) => AdmitOne(d, identity, now)
    case Intend(key, receipt) => RecordIntent(d, d.journal[key], receipt).0
    case StoreHeld(key) => EnsureReceipt(d, HeldReceipt(d.journal[key]).value).0
    case StoreDenial(receipt) => EnsureReceipt(d, receipt).0
    case Witness(id) => EnsureEvidence(d, [AuditLog.Request(d.receipts[id], false)]).0
    case Mark(key) => MarkFinalized(d, d.journal[key]).0
  }

  // ---------- Every write keeps the disk healthy ----------

  /** What makes the disk healthy, record by record. */
  ghost predicate RecordHealthy(d: Disk, k: string)
    requires k in d.journal
  {
    && Readable(k, d.journal[k])
    && (d.journal[k].phase.Finalized? ==> Evidenced(d, d.journal[k].phase.receipt))
    && (HeldReceipt(d.journal[k]).Some? ==> Uncontested(d, HeldReceipt(d.journal[k]).value))
    && (d.journal[k].phase.Legacy? ==> Proved(d, d.journal[k]))
  }

  ghost predicate NamesApart(d: Disk) {
    forall j, k :: j in d.journal && k in d.journal && j != k && NamedId(d.journal[j]).Some? ==> NamedId(d.journal[j]) != NamedId(d.journal[k])
  }

  lemma HealthyByRecord(d: Disk)
    ensures Healthy(d) <==> AuditLog.WellFormed(d.log) && NamesApart(d) && forall k :: k in d.journal ==> RecordHealthy(d, k)
  {
    hide AuditLog.WellFormed, Evidenced, Uncontested, Proved;
    if Healthy(d) { forall k | k in d.journal ensures RecordHealthy(d, k) {} }
    if forall k :: k in d.journal ==> RecordHealthy(d, k) {
      assert forall k :: k in d.journal ==> RecordHealthy(d, k);
    }
  }

  /** A record stays healthy while its receipt is stored no differently and its evidence only completes. */
  lemma RecordStays(d: Disk, e: Disk, k: string)
    requires k in d.journal && k in e.journal && e.journal[k] == d.journal[k] && RecordHealthy(d, k) && e.log == d.log
    requires forall id :: id in d.receipts ==> id in e.receipts && e.receipts[id] == d.receipts[id]
    requires HeldReceipt(d.journal[k]).Some? ==>
               var r := HeldReceipt(d.journal[k]).value; r.id in e.receipts && r.id !in d.receipts ==> e.receipts[r.id] == r
    ensures RecordHealthy(e, k)
  {
    if d.journal[k].phase.Legacy? { ProvedElsewhere(d, e, d.journal[k]); }
    hide AuditLog.Find, Proved;
  }

  lemma ReserveHealthy(d: Disk, identity: Identity, now: int)
    requires Healthy(d)
    ensures Healthy(ReserveKey(d, identity, now))
  {
    var e := ReserveKey(d, identity, now);
    HealthyByRecord(d);
    HealthyByRecord(e);
    hide Healthy, AuditLog.WellFormed, RecordHealthy;
    forall k | k in e.journal ensures RecordHealthy(e, k) {
      if k in d.journal { RecordStays(d, e, k); } else { PendingHealthy(e, k); }
    }
  }

  lemma PendingHealthy(e: Disk, k: string)
    requires k in e.journal && e.journal[k].phase.Pending? && e.journal[k].identity.key == k
    ensures RecordHealthy(e, k)
  {
  }

  lemma CancelHealthy(d: Disk, key: string)
    requires Healthy(d)
    ensures Healthy(CancelKey(d, key))
  {
    var e := CancelKey(d, key);
    HealthyByRecord(d);
    HealthyByRecord(e);
    hide Healthy, AuditLog.WellFormed, RecordHealthy;
    forall k | k in e.journal ensures RecordHealthy(e, k) { RecordStays(d, e, k); }
  }

  lemma IntendHealthy(d: Disk, key: string, receipt: Receipt)
    requires Healthy(d) && key in d.journal && Unused(receipt.id, d)
    ensures Healthy(RecordIntent(d, d.journal[key], receipt).0)
  {
    var e := RecordIntent(d, d.journal[key], receipt).0;
    HealthyByRecord(d);
    HealthyByRecord(e);
    hide Healthy, AuditLog.WellFormed, RecordHealthy;
    assert NamesApart(e);
    forall k | k in e.journal ensures RecordHealthy(e, k) {
      if e.journal[k] == d.journal[k] { RecordStays(d, e, k); } else { IntentHealthy(d, e, k, receipt); }
    }
  }

  lemma IntentHealthy(d: Disk, e: Disk, k: string, receipt: Receipt)
    requires k in d.journal && RecordHealthy(d, k) && k in e.journal && Unused(receipt.id, d) && AuditLog.WellFormed(d.log)
    requires e.log == d.log && e.receipts == d.receipts && receipt.identity == d.journal[k].identity
    requires e.journal[k] == d.journal[k].(phase := Finalizing(receipt))
    ensures RecordHealthy(e, k)
  {
    hide AuditLog.WellFormed, AuditLog.Evidence;
  }

  lemma StoreHealthy(d: Disk, receipt: Receipt)
    requires Healthy(d)
    requires Unused(receipt.id, d) || exists k :: k in d.journal && HeldReceipt(d.journal[k]) == Some(receipt)
    ensures Healthy(EnsureReceipt(d, receipt).0)
  {
    var e := EnsureReceipt(d, receipt).0;
    HealthyByRecord(d);
    HealthyByRecord(e);
    hide Healthy, AuditLog.WellFormed, AuditLog.Evidence, RecordHealthy;
    assert NamesApart(e);
    forall k | k in e.journal ensures RecordHealthy(e, k) { RecordStays(d, e, k); }
  }

  /** The log grows by an event that completes the record's evidence or does not concern it. */
  lemma RecordLogStays(d: Disk, e: Disk, k: string)
    requires k in d.journal && RecordHealthy(d, k) && AuditLog.WellFormed(d.log) && e == d.(log := e.log, fates := e.fates)
    requires AuditLog.Extends(d.log, e.log)
    requires HeldReceipt(d.journal[k]).Some? ==>
               var r := HeldReceipt(d.journal[k]).value;
               AuditLog.Evidence(e.log, r.id) == AuditLog.Evidence(d.log, r.id) || AuditLog.Find(e.log, r).Found?
    ensures RecordHealthy(e, k)
  {
    if d.journal[k].phase.Legacy? { ProvedStays(d, e, d.journal[k]); }
    if d.journal[k].phase.Finalized? { AuditLog.FoundStays(d.log, e.log, d.journal[k].phase.receipt); }
    hide AuditLog.WellFormed, AuditLog.Evidence, Proved;
  }

  lemma AdmitHealthy(d: Disk, identity: Identity, now: int)
    requires Healthy(d)
    ensures Healthy(AdmitOne(d, identity, now))
  {
    var e := AdmitOne(d, identity, now);
    HealthyByRecord(d);
    HealthyByRecord(e);
    AuditLog.AppendExtends(AuditLog.State(d.log, d.fates), AuditLog.AdmissionEvent(now, identity));
    forall id ensures AuditLog.Evidence(e.log, id) == AuditLog.Evidence(d.log, id) {
      AuditLog.EvidenceAppend(d.log, AuditLog.AdmissionEvent(now, identity), id);
    }
    hide Healthy, AuditLog.WellFormed, AuditLog.Evidence, RecordHealthy, NamedId;
    forall k | k in e.journal ensures RecordHealthy(e, k) { RecordLogStays(d, e, k); }
  }

  lemma WitnessHealthy(d: Disk, id: string)
    requires Healthy(d) && Enabled(d, Witness(id))
    ensures Healthy(Perform(d, Witness(id)))
  {
    var e := Perform(d, Witness(id));
    var receipt := d.receipts[id];
    HealthyByRecord(d);
    HealthyByRecord(e);
    var qs := [AuditLog.Request(receipt, false)];
    AuditLog.ServeAllExtends(AuditLog.State(d.log, d.fates), qs);
    WitnessEvidence(AuditLog.State(d.log, d.fates), receipt);
    hide Healthy, AuditLog.WellFormed, AuditLog.Evidence, AuditLog.Find, AuditLog.ServeAll, RecordHealthy, NamedId;
    forall k | k in e.journal ensures RecordHealthy(e, k) {
      HeldIsStored(d, k);
      RecordLogStays(d, e, k);
    }
  }

  lemma HeldIsStored(d: Disk, k: string)
    requires k in d.journal && RecordHealthy(d, k)
    ensures HeldReceipt(d.journal[k]).Some? ==>
              var r := HeldReceipt(d.journal[k]).value; r.id in d.receipts ==> d.receipts[r.id] == r
  {
    hide AuditLog.Find;
  }

  /** Ensuring one receipt changes no other evidence, and its own only to what proves it. */
  lemma {:induction false} WitnessEvidence(s: AuditLog.State, receipt: Receipt)
    ensures var t := AuditLog.ServeAll(s, [AuditLog.Request(receipt, false)]).0;
            forall id :: AuditLog.Evidence(t.log, id) == AuditLog.Evidence(s.log, id)
                         || (id == receipt.id && AuditLog.Find(t.log, receipt).Found?)
  {
    var q := AuditLog.Request(receipt, false);
    var t := AuditLog.Ensure(s, receipt).0;
    assert [q][1..] == [];
    assert AuditLog.ServeAll(s, [q]).0 == t;
    if t.log != s.log {
      AuditLog.AppendFinds(s.log, receipt);
      forall id ensures AuditLog.Evidence(t.log, id) == AuditLog.Evidence(s.log, id) || id == receipt.id {
        AuditLog.EvidenceAppend(s.log, AuditLog.TerminalEvent(receipt), id);
      }
    }
  }

  lemma MarkHealthy(d: Disk, key: string)
    requires Healthy(d) && Enabled(d, Mark(key))
    ensures Healthy(Perform(d, Mark(key)))
  {
    if d.journal[key].phase.Finalizing? {
      HealthyByRecord(d);
      HealthyMark(d, d.journal[key]);
    }
  }

  lemma PerformHealthy(d: Disk, w: Write)
    requires Healthy(d) && Enabled(d, w)
    ensures Healthy(Perform(d, w))
  {
    hide Healthy;
    match w {
      case Reserve(identity, now) => ReserveHealthy(d, identity, now);
      case Cancel(key) => CancelHealthy(d, key);
      case Admit(identity, now) => AdmitHealthy(d, identity, now);
      case Intend(key, receipt) => IntendHealthy(d, key, receipt);
      case StoreHeld(key) => StoreHealthy(d, HeldReceipt(d.journal[key]).value);
      case StoreDenial(receipt) => StoreHealthy(d, receipt);
      case Witness(id) => WitnessHealthy(d, id);
      case Mark(key) => MarkHealthy(d, key);
    }
  }

  // ---------- Every disk a daemon can leave ----------

  /** The stores, and the keys whose reservation file was created but not written whole. */
  datatype Files = Files(disk: Disk, torn: set<string>)

  const FRESH := Files(EMPTY, {})

  /** A write of a served call under its fate, a reservation cut off while it is written, or a startup under its faults.
      Every other file is written beside its place and renamed. */
  datatype Event = Serve(write: Write, fate: Fate) | Tear(key: string) | Start(attempt: Attempt)

  /** `ReconcileMutationFinalizations`: a listing that meets an unreadable file fails. */
  function StartUp(f: Files, a: Attempt): (Files, nat, Outcome)
    requires |a.ids| == |a.records|
  {
    if f.torn != {} then (f, 0, Conflict)
    else
      var (d, n, outcome) := Reconcile(f.disk.(fates := a.fates), a.records, a.ids, a.now);
      (f.(disk := d), n, outcome)
  }

  /** An event that does not apply changes nothing; a torn file keeps its key from being reserved. */
  ghost function After(f: Files, event: Event): Files {
    match event
    case Serve(w, fate) =>
      var d := f.disk.(fates := [fate]);
      if (w.Reserve? && w.identity.key in f.torn) || !Enabled(d, w) then f else f.(disk := Perform(d, w))
    case Tear(key) => if key in f.disk.journal then f else f.(torn := f.torn + {key})
    case Start(a) => if Applicable(f.disk, a) then StartUp(f, a).0 else f
  }

  ghost function Run(f: Files, events: seq<Event>): Files
    decreases |events|
  {
    if events == [] then f else Run(After(f, events[0]), events[1..])
  }

  lemma {:induction false} EmptyIsHealthy()
    ensures Healthy(EMPTY)
  {
  }

  lemma AfterHealthy(f: Files, event: Event)
    requires Healthy(f.disk)
    ensures Healthy(After(f, event).disk)
  {
    hide Healthy, Reconcile, Perform;
    match event {
      case Serve(w, fate) =>
        HealthyUnderFates(f.disk, [fate]);
        if Enabled(f.disk.(fates := [fate]), w) { PerformHealthy(f.disk.(fates := [fate]), w); }
      case Tear(_) =>
      case Start(a) =>
        HealthyUnderFates(f.disk, a.fates);
        if Applicable(f.disk, a) {
          hide Enabled, Unused;
          HealthyRun(f.disk.(fates := a.fates), a.records, a.ids, a.now);
        }
    }
  }

  lemma {:induction false} RunHealthy(f: Files, events: seq<Event>)
    requires Healthy(f.disk)
    ensures Healthy(Run(f, events).disk)
    decreases |events|
  {
    hide Healthy, After;
    if events != [] {
      AfterHealthy(f, events[0]);
      RunHealthy(After(f, events[0]), events[1..]);
    }
  }

  /** Nothing mends a torn reservation, and its key is never reserved. */
  lemma {:induction false} TornStays(f: Files, events: seq<Event>, key: string)
    requires Healthy(f.disk) && key in f.torn && key !in f.disk.journal
    ensures var g := Run(f, events); key in g.torn && key !in g.disk.journal
    decreases |events|
  {
    hide After, Healthy;
    if events != [] {
      AfterHealthy(f, events[0]);
      TornStep(f, events[0], key);
      TornStays(After(f, events[0]), events[1..], key);
    }
  }

  lemma TornStep(f: Files, event: Event, key: string)
    requires Healthy(f.disk) && key in f.torn && key !in f.disk.journal
    ensures var g := After(f, event); key in g.torn && key !in g.disk.journal
  {
    HealthyByRecord(f.disk);
    hide Healthy, Reconcile, Unused, Evidenced, Applicable, Uncontested, Proved, AuditLog.ServeAll, AuditLog.WellFormed;
    if event.Serve? && (event.write.Intend? || event.write.Mark?) && event.write.key in f.disk.journal {
      assert RecordHealthy(f.disk, event.write.key);
    }
  }

  /** Whatever calls were served and cut off, and whatever startups failed or crashed, from an empty disk on: a startup
      whose writes complete succeeds exactly if no reservation is torn, and then leaves every reservation finalized and
      proved. */
  lemma {:induction false} EveryDiskConverges(events: seq<Event>, last: Attempt)
    requires Applicable(Run(FRESH, events).disk, last) && last.fates == []
    ensures var f := Run(FRESH, events);
            var (g, n, outcome) := StartUp(f, last);
            && (outcome.Done? <==> f.torn == {})
            && (outcome.Done? ==> g.torn == {} && Converged(g.disk) && n == CountLive(last.records))
            && (!outcome.Done? ==> g == f)
  {
    hide Healthy, Reconcile, Converged, After, Run;
    EmptyIsHealthy();
    RunHealthy(FRESH, events);
    var d := Run(FRESH, events).disk;
    assert Runs(d, [], d);
    ReconciliationConverges(d, [], d, last);
  }

  /** One torn reservation is enough to fail every later startup. */
  lemma {:induction false} TornFailsEveryStartup(events: seq<Event>, more: seq<Event>, key: string, last: Attempt)
    requires key !in Run(FRESH, events).disk.journal && |last.ids| == |last.records|
    ensures var f := Run(After(Run(FRESH, events), Tear(key)), more); StartUp(f, last) == (f, 0, Conflict)
  {
    EmptyIsHealthy();
    RunHealthy(FRESH, events);
    hide Healthy, Run;
    TornStays(After(Run(FRESH, events), Tear(key)), more, key);
  }
}
