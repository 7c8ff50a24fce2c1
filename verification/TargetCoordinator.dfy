/** Target authority mutations and their startup reconciliation, over stores whose calls either complete or
    are cut off by a crash. Digests are modelled by what they digest: a state hash by the state, a fingerprint
    by the operation, a derived approval or receipt ID by the names it is derived from. */
module TargetCoordinator {
  import opened Canonical

  datatype Default = Default(locator: string, aliases: seq<string>)

  datatype Kind = Enroll | Clear

  datatype Key = Key(actor: string, name: string)

  /** `caller` stands for the rest of the caller's context. */
  datatype Op = Op(
    kind: Kind, target: string, key: Key, caller: string, reason: string, deadline: int,
    prior: Option<Default>, desired: Option<Default>)

  /** Equality of idempotency fingerprints, which leave the deadline out. */
  predicate SameRequest(a: Op, b: Op) { a.(deadline := b.deadline) == b }

  /** The ID derived from actor and idempotency key, or any other. */
  datatype ApprovalId = Own(key: Key) | Other(name: string)

  datatype Receipt = Receipt(op: Op, startedAt: int, completedAt: int)

  datatype Phase = Pending | Finalizing(receipt: Receipt) | Finalized(receipt: Receipt)

  datatype Record = Record(op: Op, createdAt: int, phase: Phase)

  datatype Event = Admitted(op: Op) | Terminal(receipt: Receipt)

  /** The durable state. Receipt IDs are derived from the operation, so it keys the receipts. */
  datatype Disk = Disk(
    journal: map<Key, Record>, target: Option<Default>, issued: map<ApprovalId, Op>, consumed: set<ApprovalId>,
    receipts: map<Op, Receipt>, audit: seq<Event>)

  // ---------- Store operations ----------

  function TerminalsOf(audit: seq<Event>, op: Op): seq<Receipt> {
    if audit == [] then []
    else
      var e := audit[|audit| - 1];
      TerminalsOf(audit[..|audit| - 1], op) + if e.Terminal? && e.receipt.op == op then [e.receipt] else []
  }

  function Reserve(d: Disk, op: Op, now: int): Disk {
    d.(journal := d.journal[op.key := Record(op, now, Pending)])
  }

  /** Removes only a reservation proven to have no effect. */
  function Cancel(d: Disk, op: Op): (Disk, bool) {
    if op.key !in d.journal then (d, true)
    else if d.journal[op.key].op != op || !d.journal[op.key].phase.Pending? then (d, false)
    else (d.(journal := d.journal - {op.key}), true)
  }

  function Admit(d: Disk, op: Op): Disk { d.(audit := d.audit + [Admitted(op)]) }

  function Consume(d: Disk, id: ApprovalId): (Disk, bool) {
    if id !in d.issued || id in d.consumed then (d, false) else (d.(consumed := d.consumed + {id}), true)
  }

  function Release(d: Disk, id: ApprovalId): Disk { d.(consumed := d.consumed - {id}) }

  function Save(d: Disk, value: Option<Default>): Disk { d.(target := value) }

  function RecordEffect(d: Disk, op: Op, r: Receipt): (Disk, bool) {
    if op.key !in d.journal || d.journal[op.key].op != op then (d, false)
    else
      match d.journal[op.key].phase
      case Pending => if r.op != op then (d, false)
                      else (d.(journal := d.journal[op.key := d.journal[op.key].(phase := Finalizing(r))]), true)
      case Finalizing(known) => (d, known == r)
      case Finalized(known) => (d, known == r)
  }

  function EnsureReceipt(d: Disk, r: Receipt): (Disk, bool) {
    if r.op in d.receipts then (d, d.receipts[r.op] == r) else (d.(receipts := d.receipts[r.op := r]), true)
  }

  function EnsureTerminal(d: Disk, r: Receipt): (Disk, bool) {
    var found := TerminalsOf(d.audit, r.op);
    if found == [] then (d.(audit := d.audit + [Terminal(r)]), true) else (d, found == [r])
  }

  function MarkFinalized(d: Disk, op: Op): (Disk, bool) {
    if op.key !in d.journal || d.journal[op.key].op != op then (d, false)
    else
      match d.journal[op.key].phase
      case Pending => (d, false)
      case Finalizing(r) => (d.(journal := d.journal[op.key := d.journal[op.key].(phase := Finalized(r))]), true)
      case Finalized(_) => (d, true)
  }

  /** Follows from the invariant below: no two receipts share an idempotency key. */
  ghost predicate OneReceiptPerName(d: Disk) {
    forall x, y :: x in d.receipts && y in d.receipts && x.key.name == y.key.name ==> x == y
  }

  datatype Lookup = NoReceipt | Exact | KeyCollision

  /** Receipts are searched by idempotency key alone. */
  predicate KeyTaken(d: Disk, name: string) { exists op :: op in d.receipts && op.key.name == name }

  function LookupReceipt(d: Disk, op: Op): Lookup {
    if !KeyTaken(d, op.key.name) then NoReceipt
    else if exists other :: other in d.receipts && other.key.name == op.key.name && !SameRequest(other, op) then KeyCollision
    else Exact
  }

  /** A receipt that the search may return. */
  ghost predicate CachedFor(d: Disk, op: Op, r: Receipt) {
    exists other :: other in d.receipts && other.key.name == op.key.name && d.receipts[other] == r
  }

  // ---------- The states that a call or a startup writes, one after the other ----------

  /** The durable states written, and whether the call went through. */
  type Steps = (seq<Disk>, bool)

  function Last(d: Disk, t: seq<Disk>): Disk { if t == [] then d else t[|t| - 1] }

  /** What inventory, policy and clocks answer a call: `resolved` is the locator the reference resolves to (for
      a clear, the reservation's or the stored one if it still resolves). */
  datatype Call = Call(
    kind: Kind, resolved: Option<string>, aliases: seq<string>, key: Key, caller: string, reason: string,
    deadline: int, approvalId: ApprovalId, operator: bool, valid: bool, policyAllows: bool, now: int)

  function Existing(d: Disk, key: Key): Option<Record> { if key in d.journal then Some(d.journal[key]) else None }

  /** `prepareMutationPlan` and `buildTargetOperation`. */
  function Plan(d: Disk, c: Call): Option<Op> {
    var existing := Existing(d, c.key);
    if c.resolved.None? || !c.valid then None
    else if c.kind.Clear? && d.target.None? && existing.None? then None
    else
      var desired := if c.kind.Enroll? then Some(Default(c.resolved.value, c.aliases)) else None;
      var op := Op(c.kind, c.resolved.value, c.key, c.caller, c.reason, c.deadline, d.target, desired);
      if existing.None? then (if c.kind.Clear? && op.target != d.target.value.locator then None else Some(op))
      else if existing.value.op.kind != op.kind || existing.value.op.target != op.target || existing.value.op.desired != desired
      then None
      else Some(op.(prior := existing.value.op.prior))
  }

  function EffectReceipt(r: Record, now: int): Receipt {
    match r.phase
    case Pending => Receipt(r.op, r.createdAt, if now < r.createdAt then r.createdAt else now)
    case Finalizing(known) => known
    case Finalized(known) => known
  }

  /** `RecordEffect`, receipt, terminal audit event, finalization. */
  function Finish(d: Disk, op: Op, r: Receipt): Steps {
    var (d1, ok1) := RecordEffect(d, op, r);
    if !ok1 then ([], false)
    else
      var (d2, ok2) := EnsureReceipt(d1, r);
      if !ok2 then ([d1], false)
      else
        var (d3, ok3) := EnsureTerminal(d2, r);
        if !ok3 then ([d1, d2], false)
        else
          var (d4, ok4) := MarkFinalized(d3, op);
          ([d1, d2, d3, d4], ok4)
  }

  /** `cancelUnexecuted`: the reservation goes first, then the consumption made here. */
  function CancelUnexecuted(d: Disk, op: Op, id: ApprovalId, consumedHere: bool): Steps {
    var d1 := Cancel(d, op).0;
    (if consumedHere then [d1, Release(d1, id)] else [d1], false)
  }

  /** `applyTargetPlan`, once authorized. */
  function ApplyPlan(d: Disk, op: Op, loaded: Option<Default>, id: ApprovalId): Steps {
    if d.target != op.desired && d.target != op.prior then ([], false)
    else
      var d1 := Admit(d, op);
      var consumed := id in d.consumed;
      var (d2, ok) := if consumed then (d1, true) else Consume(d1, id);
      if !ok then
        var (t, _) := CancelUnexecuted(d1, op, id, false);
        ([d1] + t, false)
      else if d.target != op.desired && !ValidPlan(op, loaded) then
        var (t, _) := CancelUnexecuted(d2, op, id, !consumed);
        ([d1, d2] + t, false)
      else
        ([d1, d2, Save(d2, op.desired)], true)
  }

  /** `validateTargetPlan`: the plan's own states are the ones whose hashes it carries and suit its kind. */
  predicate ValidPlan(op: Op, loaded: Option<Default>) { loaded == op.prior && SuitsKind(op.kind, loaded, op.desired) }

  predicate SuitsKind(kind: Kind, prior: Option<Default>, desired: Option<Default>) {
    match kind
    case Enroll => desired.Some?
    case Clear => prior.Some? && desired.None?
  }

  /** The rest of the call. */
  function Apply(d: Disk, op: Op, loaded: Option<Default>, id: ApprovalId, now: int): Steps
    requires op.key in d.journal
  {
    var (t, published) := ApplyPlan(d, op, loaded, id);
    if !published then (t, false)
    else
      var (u, finished) := Finish(Last(d, t), op, EffectReceipt(d.journal[op.key], now));
      (t + u, finished)
  }

  datatype Outcome = Refused | Replayed | Ran(finished: bool)

  /** `loadAndAuthorizeMutation`. */
  predicate Authorized(d: Disk, op: Op, id: ApprovalId, retry: bool, policyAllows: bool) {
    id in d.issued && (id in d.consumed ==> retry) && policyAllows && d.issued[id] == op
  }

  function Mutate(d: Disk, c: Call): (seq<Disk>, Outcome) {
    if !c.operator then ([], Refused)
    else
      var existing := Existing(d, c.key);
      var plan := Plan(d, c);
      if plan.None? then ([], Refused)
      else
        var op := plan.value;
        match LookupReceipt(d, op)
        case KeyCollision => ([], Refused)
        case Exact => ([], Replayed)
        case NoReceipt =>
          if existing.Some? && existing.value.op != op then ([], Refused)
          else
            var d0 := if existing.Some? then d else Reserve(d, op, c.now);
            var reserved := if existing.Some? then [] else [d0];
            if !Authorized(d0, op, c.approvalId, existing.Some?, c.policyAllows) then
              (reserved + if existing.Some? then [] else [Cancel(d0, op).0], Refused)
            else
              var (t, finished) := Apply(d0, op, d.target, c.approvalId, c.now);
              (reserved + t, Ran(finished))
  }

  /** `reconcileTargetRecord` for a record as the listing found it. */
  function ReconcileRecord(d: Disk, record: Record, now: int): Steps {
    if record.phase.Finalized? then ([], true)
    else if d.target == record.op.prior && record.phase.Pending? then
      var id := Own(record.op.key);
      var d1 := if id in d.issued && id in d.consumed then Release(d, id) else d;
      var (d2, ok) := Cancel(d1, record.op);
      ([d1, d2], ok)
    else if d.target != record.op.desired then ([], false)
    else Finish(d, record.op, EffectReceipt(record, now))
  }

  function Reconcile(d: Disk, records: seq<Record>, now: int): Steps
    decreases |records|
  {
    if records == [] then ([], true)
    else
      var (t, ok) := ReconcileRecord(d, records[0], now);
      if !ok then (t, false)
      else
        var (u, rest) := Reconcile(Last(d, t), records[1..], now);
        (t + u, rest)
  }

  /** A listing shows every record once, in some order. */
  ghost predicate Lists(records: seq<Record>, d: Disk) {
    && (forall i :: 0 <= i < |records| ==> records[i].op.key in d.journal && d.journal[records[i].op.key] == records[i])
    && (forall i, j :: 0 <= i < j < |records| ==> records[i].op.key != records[j].op.key)
    && forall k :: k in d.journal ==> exists i :: 0 <= i < |records| && records[i].op.key == k
  }

  // ---------- The invariant ----------

  ghost predicate RecordConsistent(d: Disk, k: Key)
    requires k in d.journal
  {
    var r := d.journal[k];
    && r.op.key == k
    && match r.phase
       case Pending =>
         && r.op !in d.receipts && TerminalsOf(d.audit, r.op) == []
         && (d.target == r.op.prior || (d.target == r.op.desired && Own(k) in d.consumed))
       case Finalizing(receipt) =>
         && receipt.op == r.op && Own(k) in d.consumed && d.target == r.op.desired
         && (r.op in d.receipts ==> d.receipts[r.op] == receipt)
         && TerminalsOf(d.audit, r.op) == (if Terminal(receipt) in d.audit then [receipt] else [])
       case Finalized(receipt) =>
         && receipt.op == r.op && Own(k) in d.consumed
         && r.op in d.receipts && d.receipts[r.op] == receipt && TerminalsOf(d.audit, r.op) == [receipt]
  }

  /** The record under an operation's key is that operation's and its effect is recorded. */
  predicate Effected(d: Disk, op: Op) { op.key in d.journal && d.journal[op.key].op == op && !d.journal[op.key].phase.Pending? }

  /** No consumption, receipt or terminal event without its record. */
  ghost predicate NoOrphans(d: Disk) {
    && (forall id :: id in d.consumed ==> id.Own? && id.key in d.journal && id in d.issued)
    && (forall op :: op in d.receipts ==> Effected(d, op))
    && (forall r :: Terminal(r) in d.audit ==> Effected(d, r.op))
    && (forall id :: id in d.issued ==> id == Own(d.issued[id].key))
  }

  ghost predicate Live(d: Disk, k: Key) { k in d.journal && !d.journal[k].phase.Finalized? }

  /** The terminal events, read as transitions, lead from the initial target step by step. */
  predicate Chained(initial: Option<Default>, audit: seq<Event>) {
    audit == [] ||
    var e := audit[|audit| - 1];
    && Chained(initial, audit[..|audit| - 1])
    && (e.Terminal? ==> e.receipt.op.prior == Reached(initial, audit[..|audit| - 1]))
  }

  function Reached(initial: Option<Default>, audit: seq<Event>): Option<Default> {
    if audit == [] then initial
    else
      var e := audit[|audit| - 1];
      if e.Terminal? then e.receipt.op.desired else Reached(initial, audit[..|audit| - 1])
  }

  /** The audit trail has reached the stored target, or stands just before the one live transition. */
  ghost predicate Aligned(d: Disk, initial: Option<Default>) {
    && Chained(initial, d.audit)
    && ((forall k :: !Live(d, k)) ==> Reached(initial, d.audit) == d.target)
    && forall k :: Live(d, k) ==>
         if TerminalsOf(d.audit, d.journal[k].op) == [] then Reached(initial, d.audit) == d.journal[k].op.prior
         else Reached(initial, d.audit) == d.target
  }

  ghost predicate OneLive(d: Disk) { forall j, k :: Live(d, j) && Live(d, k) ==> j == k }

  ghost predicate NamesDistinct(d: Disk) { forall j, k :: j in d.journal && k in d.journal && j.name == k.name ==> j == k }

  ghost predicate Inv(d: Disk, initial: Option<Default>) {
    && (forall k :: k in d.journal ==> RecordConsistent(d, k))
    && OneLive(d)
    && NamesDistinct(d)
    && NoOrphans(d)
    && Aligned(d, initial)
  }

  ghost predicate Clean(d: Disk) { forall k :: k in d.journal ==> d.journal[k].phase.Finalized? }

  // ---------- What each write keeps ----------

  lemma ReceiptNamesDistinct(d: Disk, initial: Option<Default>)
    requires Inv(d, initial)
    ensures OneReceiptPerName(d)
  {
    forall x, y | x in d.receipts && y in d.receipts && x.key.name == y.key.name ensures x == y {
      assert Effected(d, x) && Effected(d, y);
    }
  }

  lemma {:induction false} TerminalsIn(audit: seq<Event>, op: Op)
    ensures forall r :: r in TerminalsOf(audit, op) ==> r.op == op && Terminal(r) in audit
    ensures (forall r :: Terminal(r) in audit ==> r.op != op) <==> TerminalsOf(audit, op) == []
  {
    if audit != [] {
      TerminalsIn(audit[..|audit| - 1], op);
      assert audit == audit[..|audit| - 1] + [audit[|audit| - 1]];
    }
  }

  lemma {:induction false} AuditAppend(audit: seq<Event>, e: Event, initial: Option<Default>)
    ensures forall op :: TerminalsOf(audit + [e], op) ==
              TerminalsOf(audit, op) + if e.Terminal? && e.receipt.op == op then [e.receipt] else []
    ensures Reached(initial, audit + [e]) == if e.Terminal? then e.receipt.op.desired else Reached(initial, audit)
    ensures Chained(initial, audit + [e]) <==> Chained(initial, audit) && (e.Terminal? ==> e.receipt.op.prior == Reached(initial, audit))
    ensures forall f :: f in audit + [e] <==> f in audit || f == e
  {
    assert (audit + [e])[..|audit|] == audit;
  }

  /** No record is new, changes its operation or comes back to life. */
  ghost predicate Continues(d: Disk, e: Disk) {
    && (forall k :: k in e.journal ==> k in d.journal && e.journal[k].op == d.journal[k].op)
    && (forall k :: Live(e, k) ==> Live(d, k))
  }

  lemma ContinuesKeeps(d: Disk, e: Disk)
    requires Continues(d, e) && OneLive(d) && NamesDistinct(d)
    ensures OneLive(e) && NamesDistinct(e)
  {
  }

  lemma AlignedKeeps(d: Disk, e: Disk, initial: Option<Default>)
    requires Aligned(d, initial) && Continues(d, e) && e.audit == d.audit
    requires forall k :: Live(d, k) ==> Live(e, k)
    requires e.target == d.target || exists k :: Live(d, k) && TerminalsOf(d.audit, d.journal[k].op) == [] && OneLive(d)
    ensures Aligned(e, initial)
  {
    hide Chained, Reached, TerminalsOf;
  }

  lemma NoOrphansKeeps(d: Disk, e: Disk)
    requires NoOrphans(d) && e.(journal := d.journal) == d && e.journal.Keys == d.journal.Keys
    requires forall op :: Effected(d, op) ==> Effected(e, op)
    ensures NoOrphans(e)
  {
  }

  /** The last live record is gone and the audit trail is where the target is. */
  lemma AlignedAtRest(d: Disk, e: Disk, k: Key, initial: Option<Default>)
    requires Aligned(d, initial) && Continues(d, e) && OneLive(d) && Live(d, k) && !Live(e, k)
    requires e.audit == d.audit && e.target == d.target
    requires TerminalsOf(d.audit, d.journal[k].op) == [] ==> d.target == d.journal[k].op.prior
    ensures Aligned(e, initial) && Clean(e)
  {
    hide Chained, Reached, TerminalsOf;
    forall j ensures !Live(e, j) { assert Live(e, j) ==> Live(d, j); }
    forall j | j in e.journal ensures e.journal[j].phase.Finalized? { assert !Live(e, j); }
  }

  lemma {:induction false} NoTraceOf(d: Disk, op: Op, initial: Option<Default>)
    requires Inv(d, initial) && op.key !in d.journal
    ensures Own(op.key) !in d.consumed && op !in d.receipts && TerminalsOf(d.audit, op) == []
  {
    hide TerminalsOf;
    TerminalsIn(d.audit, op);
  }

  lemma ReserveShape(d: Disk, op: Op, now: int, initial: Option<Default>)
    requires Inv(d, initial) && Clean(d) && op.key !in d.journal && op.prior == d.target && !KeyTaken(d, op.key.name)
    ensures var e := Reserve(d, op, now); OneLive(e) && NamesDistinct(e) && Aligned(e, initial)
  {
    hide Chained, Reached, TerminalsOf;
    var e := Reserve(d, op, now);
    NoTraceOf(d, op, initial);
    forall k | k in d.journal ensures k.name != op.key.name {
      assert RecordConsistent(d, k);
      assert d.journal[k].op in d.receipts;
    }
    assert forall k :: Live(e, k) <==> k == op.key;
    assert forall k :: !Live(d, k);
  }

  lemma ReserveKeeps(d: Disk, op: Op, now: int, initial: Option<Default>)
    requires Inv(d, initial) && Clean(d) && op.key !in d.journal && op.prior == d.target && !KeyTaken(d, op.key.name)
    ensures Inv(Reserve(d, op, now), initial)
  {
    ReserveShape(d, op, now, initial);
    ReserveOrphans(d, op, now);
    hide NoOrphans, Aligned, OneLive, NamesDistinct, Chained, Reached, TerminalsOf;
    var e := Reserve(d, op, now);
    NoTraceOf(d, op, initial);
    forall k | k in d.journal ensures RecordConsistent(e, k) { assert RecordConsistent(d, k); }
    assert RecordConsistent(e, op.key);
  }

  lemma ReserveOrphans(d: Disk, op: Op, now: int)
    requires NoOrphans(d) && op.key !in d.journal
    ensures NoOrphans(Reserve(d, op, now))
  {
    assert forall other :: Effected(d, other) ==> Effected(Reserve(d, op, now), other);
  }

  /** The live record of an operation, with no evidence yet. */
  ghost predicate AtPending(d: Disk, op: Op) {
    op.key in d.journal && d.journal[op.key].op == op && d.journal[op.key].phase.Pending?
  }

  lemma CancelKeeps(d: Disk, op: Op, initial: Option<Default>)
    requires Inv(d, initial) && AtPending(d, op) && d.target == op.prior && Own(op.key) !in d.consumed
    ensures Cancel(d, op).1 && Inv(Cancel(d, op).0, initial) && Clean(Cancel(d, op).0)
  {
    hide NoOrphans, Aligned, Clean, OneLive, NamesDistinct, Chained, Reached, TerminalsOf;
    var e := Cancel(d, op).0;
    assert RecordConsistent(d, op.key);
    forall k | k in e.journal ensures RecordConsistent(e, k) { assert RecordConsistent(d, k); }
    ContinuesKeeps(d, e);
    AlignedAtRest(d, e, op.key, initial);
    CancelOrphans(d, op);
  }

  lemma CancelOrphans(d: Disk, op: Op)
    requires NoOrphans(d) && AtPending(d, op) && Own(op.key) !in d.consumed
    ensures NoOrphans(Cancel(d, op).0)
  {
    var e := Cancel(d, op).0;
    assert forall other :: Effected(d, other) ==> Effected(e, other);
  }

  lemma AdmitAligned(d: Disk, op: Op, initial: Option<Default>)
    requires Aligned(d, initial)
    ensures Aligned(Admit(d, op), initial)
  {
    hide Chained, Reached, TerminalsOf;
    AuditAppend(d.audit, Admitted(op), initial);
    assert forall k :: Live(Admit(d, op), k) <==> Live(d, k);
  }

  lemma AdmitKeeps(d: Disk, op: Op, initial: Option<Default>)
    requires Inv(d, initial)
    ensures Inv(Admit(d, op), initial)
  {
    hide Aligned, Clean, OneLive, NamesDistinct, Chained, Reached, TerminalsOf;
    var e := Admit(d, op);
    AuditAppend(d.audit, Admitted(op), initial);
    forall k | k in e.journal ensures RecordConsistent(e, k) { assert RecordConsistent(d, k); }
    ContinuesKeeps(d, e);
    AdmitAligned(d, op, initial);
  }

  lemma ConsumptionKeeps(d: Disk, op: Op, on: bool, initial: Option<Default>)
    requires Inv(d, initial) && AtPending(d, op)
    requires if on then Own(op.key) in d.issued else d.target == op.prior
    ensures Inv(d.(consumed := if on then d.consumed + {Own(op.key)} else d.consumed - {Own(op.key)}), initial)
  {
    hide Aligned, Clean, OneLive, NamesDistinct, Chained, Reached, TerminalsOf;
    var e := d.(consumed := if on then d.consumed + {Own(op.key)} else d.consumed - {Own(op.key)});
    forall k | k in e.journal ensures RecordConsistent(e, k) { assert RecordConsistent(d, k); }
    ContinuesKeeps(d, e);
    AlignedKeeps(d, e, initial);
  }

  lemma SaveKeeps(d: Disk, op: Op, initial: Option<Default>)
    requires Inv(d, initial) && AtPending(d, op) && Own(op.key) in d.consumed
    ensures Inv(Save(d, op.desired), initial)
  {
    hide Aligned, Clean, NamesDistinct, Chained, Reached, TerminalsOf;
    var e := Save(d, op.desired);
    assert Live(d, op.key) && RecordConsistent(d, op.key);
    forall k | k in e.journal ensures RecordConsistent(e, k) {
      assert RecordConsistent(d, k);
      if k != op.key { assert !Live(d, k); }
    }
    ContinuesKeeps(d, e);
    AlignedKeeps(d, e, initial);
  }

  lemma RecordEffectKeeps(d: Disk, op: Op, r: Receipt, initial: Option<Default>)
    requires Inv(d, initial) && AtPending(d, op)
    requires Own(op.key) in d.consumed && d.target == op.desired && r.op == op
    ensures RecordEffect(d, op, r).1 && Inv(RecordEffect(d, op, r).0, initial) && AtFinalizing(RecordEffect(d, op, r).0, op, r)
  {
    hide NoOrphans, Aligned, Clean, OneLive, NamesDistinct, Chained, Reached, TerminalsOf;
    var e := RecordEffect(d, op, r).0;
    assert RecordConsistent(d, op.key);
    TerminalsIn(d.audit, op);
    forall k | k in e.journal ensures RecordConsistent(e, k) { assert RecordConsistent(d, k); }
    ContinuesKeeps(d, e);
    AlignedKeeps(d, e, initial);
    assert forall other :: Effected(d, other) ==> Effected(e, other);
    NoOrphansKeeps(d, e);
  }

  /** The record of this operation is live and its effect is recorded with this receipt. */
  ghost predicate AtFinalizing(d: Disk, op: Op, r: Receipt) {
    op.key in d.journal && d.journal[op.key].op == op && d.journal[op.key].phase == Finalizing(r)
  }

  lemma EnsureReceiptKeeps(d: Disk, op: Op, r: Receipt, initial: Option<Default>)
    requires Inv(d, initial) && AtFinalizing(d, op, r)
    ensures var (e, ok) := EnsureReceipt(d, r); ok && Inv(e, initial) && AtFinalizing(e, op, r) && op in e.receipts
  {
    hide Aligned, Clean, OneLive, NamesDistinct, Chained, Reached, TerminalsOf;
    var e := EnsureReceipt(d, r).0;
    assert RecordConsistent(d, op.key);
    forall k | k in e.journal ensures RecordConsistent(e, k) { assert RecordConsistent(d, k); }
    ContinuesKeeps(d, e);
    AlignedKeeps(d, e, initial);
    assert forall other :: Effected(d, other) ==> Effected(e, other);
  }

  lemma {:induction false} EnsureTerminalKeeps(d: Disk, op: Op, r: Receipt, initial: Option<Default>)
    requires Inv(d, initial) && AtFinalizing(d, op, r) && op in d.receipts
    ensures var (e, ok) := EnsureTerminal(d, r);
            ok && Inv(e, initial) && AtFinalizing(e, op, r) && op in e.receipts && TerminalsOf(e.audit, op) == [r]
  {
    hide NoOrphans, Clean, NamesDistinct, Chained, Reached, TerminalsOf;
    var e := EnsureTerminal(d, r).0;
    assert RecordConsistent(d, op.key);
    AuditAppend(d.audit, Terminal(r), initial);
    assert Live(d, op.key);
    forall k | k in e.journal ensures RecordConsistent(e, k) { assert RecordConsistent(d, k); }
    assert forall k :: Live(e, k) <==> Live(d, k);
    ContinuesKeeps(d, e);
    TerminalOrphans(d, op, r);
  }

  lemma TerminalOrphans(d: Disk, op: Op, r: Receipt)
    requires NoOrphans(d) && AtFinalizing(d, op, r) && r.op == op
    ensures NoOrphans(EnsureTerminal(d, r).0)
  {
    var e := EnsureTerminal(d, r).0;
    assert forall other :: Effected(d, other) ==> Effected(e, other);
  }

  lemma {:induction false} MarkFinalizedKeeps(d: Disk, op: Op, r: Receipt, initial: Option<Default>)
    requires Inv(d, initial) && AtFinalizing(d, op, r) && op in d.receipts && TerminalsOf(d.audit, op) == [r]
    ensures var (e, ok) := MarkFinalized(d, op); ok && Inv(e, initial) && Clean(e)
  {
    hide NoOrphans, Aligned, Clean, OneLive, NamesDistinct, Chained, Reached, TerminalsOf;
    var e := MarkFinalized(d, op).0;
    assert RecordConsistent(d, op.key) && Live(d, op.key);
    forall k | k in e.journal ensures RecordConsistent(e, k) { assert RecordConsistent(d, k); }
    ContinuesKeeps(d, e);
    AlignedAtRest(d, e, op.key, initial);
    assert forall other :: Effected(d, other) ==> Effected(e, other);
    NoOrphansKeeps(d, e);
  }
}
