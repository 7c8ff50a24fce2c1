/** Concurrent callers of session mutations, with crashes and restarts at any step: which calls may start the
    guest effect, and which receipt each of them hands out. */
module SessionFlights {
  import opened Canonical
  import opened Receipts

  /** The identity that an idempotency fingerprint binds; the safety class, resolved later, is not part of it. */
  datatype Request = Request(actor: string, target: string, key: string, body: string)

  /** `Effect` receipts tell what the leader's own run came to, `Interrupted` ones that it is unknown. */
  datatype Verdict = Effect | Interrupted | Denied

  /** `place` is where a listing of the receipt store has it. Random IDs decide it, and only denials are ever looked
      up by listing, so it is left open for these alone. */
  datatype Evidence = Evidence(id: nat, place: nat, request: Request, verdict: Verdict)

  datatype Phase = Pending | Finalizing(receipt: Evidence) | Finalized(receipt: Evidence)

  datatype Reservation = Reservation(request: Request, phase: Phase)

  datatype Answer = Failed | Got(receipt: Evidence)

  /** Whether the durable finalization is the leader's own or resumed by a retry. */
  datatype Role = Leader | Retry

  datatype Pc =
    | Begin
    | Waiting(leader: nat)
    | LookUp
    | Admitting
    | Reserving
    | Preparing
    | Cancelling
    | Ready
    | Running
    | Recording(receipt: Evidence)
    | Recovering
    | Persisting(receipt: Evidence, stage: nat, role: Role)
    | Releasing(answer: Answer)
    | Returned(answer: Answer)

  datatype Thread = Thread(request: Request, pc: Pc)

  /** An in-flight entry is named by the thread that made it. */
  type FlightKey = string

  /** `started` and `answered` are history, in order: the requests whose effect was started, the receipts that
      leaders handed out. */
  datatype State = State(
    up: bool, threads: map<nat, Thread>, flights: map<FlightKey, nat>, results: map<nat, Answer>,
    journal: map<string, Reservation>, stored: set<Evidence>, audited: set<Evidence>,
    started: seq<Request>, answered: seq<Evidence>, nextId: nat)

  /** The parts are joined by colons, which they may contain: requests that differ in all of them can share an entry,
      and the later one then conflicts. */
  function Flight(r: Request): FlightKey { r.actor + ":" + r.target + ":" + r.key }

  function Held(r: Reservation): Option<Evidence> { if r.phase.Pending? then None else Some(r.phase.receipt) }

  predicate Leads(pc: Pc) { !pc.Begin? && !pc.Waiting? && !pc.Returned? }

  datatype Admission = Proceed | Error | Deny(kept: bool, witnessed: bool, place: nat)

  datatype Action =
    | Call(tid: nat, request: Request)
    | Acquire(tid: nat)
    | Look(tid: nat, readable: bool)
    | Admit(tid: nat, admission: Admission)
    | Reserve(tid: nat, fate: Fate)
    | Prepare(tid: nat, prepared: bool)
    | Cancel(tid: nat, fate: Fate)
    | Start(tid: nat, expired: bool)
    | Finish(tid: nat)
    | Record(tid: nat, fate: Fate)
    | Recover(tid: nat, fate: Fate)
    | Persist(tid: nat, fate: Fate)
    | Release(tid: nat)
    | Wake(tid: nat, expired: bool)
    | Crash
    | Reconcile(key: string, fate: Fate)
    | Serve

  // ---------- Steps ----------

  function At(s: State, tid: nat, pc: Pc): State
    requires tid in s.threads
  {
    s.(threads := s.threads[tid := s.threads[tid].(pc := pc)])
  }

  function Answering(s: State, tid: nat, a: Answer): State
    requires tid in s.threads
  {
    At(if a.Got? then s.(answered := s.answered + [a.receipt]) else s, tid, Releasing(a))
  }

  function Write(s: State, key: string, r: Reservation, fate: Fate): State {
    if fate.FailsBefore? then s else s.(journal := s.journal[key := r])
  }

  predicate Kept(before: map<string, Reservation>, after: map<string, Reservation>, but: set<string>) {
    forall k :: k in before && k !in but ==> k in after && after[k] == before[k]
  }

  /** A pending record may come to hold an interrupted receipt. */
  predicate Interruption(a: Reservation, b: Reservation) {
    b == a || (a.phase.Pending? && b.request == a.request && b.phase.Finalizing? && b.phase.receipt.verdict.Interrupted?)
  }

  /** A finalizing record may become finalized with the receipt it holds. */
  predicate Completion(a: Reservation, b: Reservation) {
    b == a || (a.phase.Finalizing? && b == a.(phase := Finalized(a.phase.receipt)))
  }

  /** A leader's own step moves it to another place of a leader. */
  predicate Proceeds(s: State, t: State, tid: nat)
    requires tid in s.threads
  {
    && t.up == s.up && t.results == s.results
    && tid in t.threads && t.threads == s.threads[tid := Thread(s.threads[tid].request, t.threads[tid].pc)]
    && Leads(t.threads[tid].pc)
  }

  /** `acquireFlight`. */
  function AcquireFlight(s: State, tid: nat): (t: State)
    requires tid in s.threads
    ensures t.journal == s.journal && s.stored <= t.stored && s.answered <= t.answered
  {
    var r := s.threads[tid].request;
    if Flight(r) !in s.flights then At(s.(flights := s.flights[Flight(r) := tid]), tid, LookUp)
    else
      var leader := s.flights[Flight(r)];
      if leader in s.threads && s.threads[leader].request == r then At(s, tid, Waiting(leader))
      else At(s, tid, Returned(Failed))
  }

  predicate Listed(stored: set<Evidence>, key: string) { exists e :: e in stored && e.request.key == key }

  predicate IsFirst(e: Evidence, stored: set<Evidence>, key: string) {
    e in stored && e.request.key == key && forall f :: f in stored && f.request.key == key ==> e.place <= f.place
  }

  lemma {:induction false} FirstExists(stored: set<Evidence>, key: string)
    requires Listed(stored, key)
    ensures exists e :: IsFirst(e, stored, key)
    decreases |stored|
  {
    var e :| e in stored && e.request.key == key;
    if !IsFirst(e, stored, key) {
      var f :| f in stored && f.request.key == key && f.place < e.place;
      var rest := stored - {e};
      assert f in rest;
      FirstExists(rest, key);
      var g :| IsFirst(g, rest, key);
      assert IsFirst(g, stored, key);
    }
  }

  /** `findIdempotentReceipt`: the scan stops at the first receipt under the key, whoever's it is. */
  ghost function FirstListed(stored: set<Evidence>, key: string): (e: Evidence)
    requires Listed(stored, key)
    ensures IsFirst(e, stored, key)
  {
    FirstExists(stored, key);
    var e :| IsFirst(e, stored, key);
    e
  }

  /** `lookupSessionRetry`: the reservation first, then a receipt stored without one. */
  ghost function LookUpRetry(s: State, tid: nat): (t: State)
    requires tid in s.threads
    ensures Proceeds(s, t, tid)
    ensures t.journal == s.journal && s.stored <= t.stored && s.answered <= t.answered
  {
    var r := s.threads[tid].request;
    if r.key in s.journal then
      var record := s.journal[r.key];
      if record.request != r then Answering(s, tid, Failed)
      else
        match record.phase
        case Pending => At(s, tid, Recovering)
        case Finalizing(receipt) => At(s, tid, Persisting(receipt, 0, Retry))
        case Finalized(receipt) =>
          Answering(s, tid, if receipt in s.stored && receipt in s.audited then Got(receipt) else Failed)
    else if !Listed(s.stored, r.key) then At(s, tid, Admitting)
    else
      var e := FirstListed(s.stored, r.key);
      if e.request == r && e.verdict.Denied? then Answering(s.(audited := s.audited + {e}), tid, Got(e))
      else Answering(s, tid, Failed)
  }

  /** Approval, lease and policy, before any reservation. A denial is stored and audited as far as the writes go. */
  function AdmitCall(s: State, tid: nat, a: Admission): (t: State)
    requires tid in s.threads
    ensures Proceeds(s, t, tid)
    ensures t.journal == s.journal && s.stored <= t.stored && s.answered <= t.answered
  {
    match a
    case Proceed => At(s, tid, Reserving)
    case Error => Answering(s, tid, Failed)
    case Deny(kept, witnessed, place) =>
      var e := Evidence(s.nextId, place, s.threads[tid].request, Denied);
      Answering(s.(nextId := s.nextId + 1, stored := if kept then s.stored + {e} else s.stored,
                   audited := if kept && witnessed then s.audited + {e} else s.audited), tid, Got(e))
  }

  /** Exclusive creation of the pending record. */
  function ReserveCall(s: State, tid: nat, fate: Fate): (t: State)
    requires tid in s.threads
    ensures Proceeds(s, t, tid)
    ensures s.stored <= t.stored && s.answered <= t.answered && Kept(s.journal, t.journal, {})
  {
    var r := s.threads[tid].request;
    if r.key in s.journal then Answering(s, tid, Failed)
    else
      var u := Write(s, r.key, Reservation(r, Pending), fate);
      if fate.Completes? then At(u, tid, Preparing) else Answering(u, tid, Failed)
  }

  function CancelCall(s: State, tid: nat, fate: Fate): (t: State)
    requires tid in s.threads
    ensures Proceeds(s, t, tid)
    ensures s.stored <= t.stored && s.answered <= t.answered
    ensures var r := s.threads[tid].request; Kept(s.journal, t.journal, if r.key in s.journal && s.journal[r.key] == Reservation(r, Pending) then {r.key} else {})
  {
    var r := s.threads[tid].request;
    var own := r.key in s.journal && s.journal[r.key] == Reservation(r, Pending);
    Answering(if own && !fate.FailsBefore? then s.(journal := s.journal - {r.key}) else s, tid, Failed)
  }

  function RecordCall(s: State, tid: nat, receipt: Evidence, fate: Fate): (t: State)
    requires tid in s.threads
    ensures Proceeds(s, t, tid)
    ensures s.stored <= t.stored && s.answered <= t.answered
    ensures var r := s.threads[tid].request;
            Kept(s.journal, t.journal, if r.key in s.journal && s.journal[r.key] == Reservation(r, Pending) then {r.key} else {})
            && (r.key in s.journal ==> r.key in t.journal)
  {
    var r := s.threads[tid].request;
    if r.key !in s.journal || s.journal[r.key].request != r || !s.journal[r.key].phase.Pending? then
      Answering(s, tid, Got(receipt))
    else
      var u := Write(s, r.key, Reservation(r, Finalizing(receipt)), fate);
      if fate.Completes? then At(u, tid, Persisting(receipt, 0, Leader)) else Answering(u, tid, Got(receipt))
  }

  /** `ensureRecoveryIntent` of a retry that finds its reservation still pending. */
  function RecoverCall(s: State, tid: nat, fate: Fate): (t: State)
    requires tid in s.threads
    ensures Proceeds(s, t, tid)
    ensures s.stored <= t.stored && s.answered <= t.answered && forall k :: k in s.journal ==> k in t.journal && Interruption(s.journal[k], t.journal[k])
  {
    var r := s.threads[tid].request;
    var e := Evidence(s.nextId, 0, r, Interrupted);
    var u := s.(nextId := s.nextId + 1);
    if r.key !in s.journal || s.journal[r.key] != Reservation(r, Pending) then Answering(u, tid, Failed)
    else
      var v := Write(u, r.key, Reservation(r, Finalizing(e)), fate);
      if fate.Completes? then At(v, tid, Persisting(e, 0, Retry)) else Answering(v, tid, Failed)
  }

  /** Receipt, terminal audit event, finalized record: one write after the other. */
  function PersistWrite(s: State, tid: nat): (t: State)
    requires tid in s.threads && s.threads[tid].pc.Persisting?
    ensures t.threads == s.threads && s.stored <= t.stored && t.answered == s.answered
    ensures forall k :: k in s.journal ==> k in t.journal && Completion(s.journal[k], t.journal[k])
  {
    var r, pc := s.threads[tid].request, s.threads[tid].pc;
    var e := pc.receipt;
    if pc.stage == 0 then s.(stored := s.stored + {e})
    else if pc.stage == 1 then s.(audited := s.audited + {e})
    else if r.key in s.journal && s.journal[r.key] == Reservation(r, Finalizing(e)) then
      s.(journal := s.journal[r.key := Reservation(r, Finalized(e))])
    else s
  }

  function PersistCall(s: State, tid: nat, fate: Fate): (t: State)
    requires tid in s.threads && s.threads[tid].pc.Persisting?
    ensures Proceeds(s, t, tid)
    ensures s.stored <= t.stored && s.answered <= t.answered && forall k :: k in s.journal ==> k in t.journal && Completion(s.journal[k], t.journal[k])
  {
    var pc := s.threads[tid].pc;
    var u := if fate.FailsBefore? then s else PersistWrite(s, tid);
    if !fate.Completes? then Answering(u, tid, if pc.role.Leader? then Got(pc.receipt) else Failed)
    else if pc.stage < 2 then At(u, tid, pc.(stage := pc.stage + 1))
    else Answering(u, tid, Got(pc.receipt))
  }

  /** One write of the startup reconciliation, which runs before any caller is served. */
  function ReconcileKey(s: State, key: string, fate: Fate): (t: State)
    requires key in s.journal
    ensures t.threads == s.threads && s.stored <= t.stored && s.answered == t.answered
    ensures forall k :: k in s.journal ==> k in t.journal && (Interruption(s.journal[k], t.journal[k]) || Completion(s.journal[k], t.journal[k]))
  {
    var record := s.journal[key];
    match record.phase
    case Pending =>
      Write(s.(nextId := s.nextId + 1), key, record.(phase := Finalizing(Evidence(s.nextId, 0, record.request, Interrupted))), fate)
    case Finalizing(e) =>
      if fate.FailsBefore? then s
      else if e !in s.stored then s.(stored := s.stored + {e})
      else if e !in s.audited then s.(audited := s.audited + {e})
      else s.(journal := s.journal[key := record.(phase := Finalized(e))])
    case Finalized(_) => s
  }

  predicate Enabled(s: State, tid: nat) { s.up && tid in s.threads }

  /** An action that does not apply changes nothing. */
  ghost function Next(s: State, a: Action): State {
    match a
    case Call(tid, r) => if s.up && tid !in s.threads && tid !in s.results then s.(threads := s.threads[tid := Thread(r, Begin)]) else s
    case Acquire(tid) => if Enabled(s, tid) && s.threads[tid].pc.Begin? then AcquireFlight(s, tid) else s
    case Look(tid, readable) =>
      if !Enabled(s, tid) || !s.threads[tid].pc.LookUp? then s
      else if readable then LookUpRetry(s, tid) else Answering(s, tid, Failed)
    case Admit(tid, admission) => if Enabled(s, tid) && s.threads[tid].pc.Admitting? then AdmitCall(s, tid, admission) else s
    case Reserve(tid, fate) => if Enabled(s, tid) && s.threads[tid].pc.Reserving? then ReserveCall(s, tid, fate) else s
    case Prepare(tid, prepared) =>
      if Enabled(s, tid) && s.threads[tid].pc.Preparing? then At(s, tid, if prepared then Ready else Cancelling) else s
    case Cancel(tid, fate) => if Enabled(s, tid) && s.threads[tid].pc.Cancelling? then CancelCall(s, tid, fate) else s
    case Start(tid, expired) =>
      if !Enabled(s, tid) || !s.threads[tid].pc.Ready? then s
      else if expired then At(s.(nextId := s.nextId + 1), tid, Recording(Evidence(s.nextId, 0, s.threads[tid].request, Effect)))
      else At(s.(started := s.started + [s.threads[tid].request]), tid, Running)
    case Finish(tid) =>
      if Enabled(s, tid) && s.threads[tid].pc.Running?
      then At(s.(nextId := s.nextId + 1), tid, Recording(Evidence(s.nextId, 0, s.threads[tid].request, Effect))) else s
    case Record(tid, fate) =>
      if Enabled(s, tid) && s.threads[tid].pc.Recording? then RecordCall(s, tid, s.threads[tid].pc.receipt, fate) else s
    case Recover(tid, fate) => if Enabled(s, tid) && s.threads[tid].pc.Recovering? then RecoverCall(s, tid, fate) else s
    case Persist(tid, fate) => if Enabled(s, tid) && s.threads[tid].pc.Persisting? then PersistCall(s, tid, fate) else s
    case Release(tid) =>
      if Enabled(s, tid) && s.threads[tid].pc.Releasing? then
        var answer := s.threads[tid].pc.answer;
        At(s.(flights := s.flights - {Flight(s.threads[tid].request)}, results := s.results[tid := answer]), tid, Returned(answer))
      else s
    case Wake(tid, expired) =>
      if !Enabled(s, tid) || !s.threads[tid].pc.Waiting? then s
      else if expired then At(s, tid, Returned(Failed))
      else if s.threads[tid].pc.leader in s.results then At(s, tid, Returned(s.results[s.threads[tid].pc.leader]))
      else s
    case Crash => s.(up := false, threads := map[], flights := map[], results := map[])
    case Reconcile(key, fate) => if !s.up && key in s.journal then ReconcileKey(s, key, fate) else s
    case Serve => if !s.up && forall k :: k in s.journal ==> s.journal[k].phase.Finalized? then s.(up := true) else s
  }

  ghost function Run(s: State, actions: seq<Action>): State
    decreases |actions|
  {
    if actions == [] then s else Run(Next(s, actions[0]), actions[1..])
  }

  const INITIAL := State(false, map[], map[], map[], map[], {}, {}, [], [], 0)

  // ---------- The invariant ----------

  ghost predicate StartedKey(s: State, key: string) { exists i :: 0 <= i < |s.started| && s.started[i].key == key }

  /** A receipt that may have been handed out: a denial, the one its reservation holds, or the leader's own if
      its intent did not become durable. */
  predicate Answerable(s: State, e: Evidence) {
    var r := e.request;
    && e.id < s.nextId
    && (e.verdict.Denied? ||
        (r.key in s.journal && s.journal[r.key].request == r &&
         (Held(s.journal[r.key]) == Some(e) ||
          (e.verdict.Effect? && (s.journal[r.key].phase.Pending? || s.journal[r.key].phase.receipt.verdict.Interrupted?)))))
  }

  predicate AnswerOk(s: State, r: Request, a: Answer) { a.Got? ==> a.receipt in s.answered && a.receipt.request == r }

  /** The pending reservation is this thread's, and nothing but denials was handed out for it. */
  ghost predicate Owner(s: State, r: Request) {
    && r.key in s.journal && s.journal[r.key] == Reservation(r, Pending)
    && forall e :: e in s.answered && e.request == r ==> e.verdict.Denied?
  }

  predicate Unreserved(s: State, r: Request) { r.key in s.journal ==> s.journal[r.key].request != r }

  ghost predicate Unrecorded(s: State, r: Request) { forall e :: e in s.stored ==> e.request != r }

  /** The reservation of the request holds this receipt. */
  predicate Holds(s: State, e: Evidence) {
    e.request.key in s.journal && s.journal[e.request.key].request == e.request && Held(s.journal[e.request.key]) == Some(e)
  }

  /** What can be handed out for a request for ever: the receipt that its reservation holds, or its stored denial. */
  predicate Decided(s: State, e: Evidence) { Holds(s, e) || (e in s.stored && e.verdict.Denied?) }

  ghost predicate Undisputed(s: State, e: Evidence) { forall f :: Decided(s, f) && f.request == e.request ==> f == e }

  /** What a thread relies on between its own steps. */
  ghost predicate PcOk(s: State, r: Request, pc: Pc) {
    match pc
    case Admitting => Unreserved(s, r) && Unrecorded(s, r)
    case Reserving => Unrecorded(s, r)
    case Preparing => Owner(s, r) && !StartedKey(s, r.key)
    case Cancelling => Owner(s, r) && !StartedKey(s, r.key)
    case Ready => Owner(s, r) && !StartedKey(s, r.key)
    case Running => Owner(s, r)
    case Recording(e) => Owner(s, r) && e.request == r && e.verdict.Effect? && e.id < s.nextId
    case Recovering => r.key in s.journal && s.journal[r.key] == Reservation(r, Pending)
    case Persisting(e, stage, _) =>
      && r.key in s.journal && s.journal[r.key].request == r && Held(s.journal[r.key]) == Some(e)
      && (stage > 0 ==> e in s.stored) && (stage > 1 ==> e in s.audited) && stage <= 2
    case Releasing(a) => AnswerOk(s, r, a) && (a.Got? ==> Undisputed(s, a.receipt))
    case Returned(a) => AnswerOk(s, r, a)
    case Waiting(leader) => leader in s.threads && s.threads[leader].request == r
    case _ => true
  }

  ghost predicate ThreadOk(s: State, tid: nat)
    requires tid in s.threads
  {
    var r, pc := s.threads[tid].request, s.threads[tid].pc;
    (Leads(pc) ==> Flight(r) in s.flights && s.flights[Flight(r)] == tid) && PcOk(s, r, pc)
  }

  ghost predicate JournalOk(s: State) {
    forall k :: k in s.journal ==>
      && s.journal[k].request.key == k
      && (Held(s.journal[k]).Some? ==>
            var e := s.journal[k].phase.receipt; e.request == s.journal[k].request && e.id < s.nextId && !e.verdict.Denied?)
      && (s.journal[k].phase.Finalized? ==> s.journal[k].phase.receipt in s.stored && s.journal[k].phase.receipt in s.audited)
  }

  /** No key starts twice, and a started one keeps its reservation for ever. */
  ghost predicate StartedOk(s: State) {
    && (forall i, j :: 0 <= i < j < |s.started| ==> s.started[i].key != s.started[j].key)
    && forall i :: 0 <= i < |s.started| ==> s.started[i].key in s.journal && s.journal[s.started[i].key].request == s.started[i]
  }

  ghost predicate FlightsOk(s: State) {
    forall f :: f in s.flights ==>
      s.flights[f] in s.threads && Flight(s.threads[s.flights[f]].request) == f && Leads(s.threads[s.flights[f]].pc)
  }

  ghost predicate HistoryOk(s: State) {
    && (forall e :: e in s.answered ==> Answerable(s, e))
    && (forall e, f :: e in s.answered && f in s.answered && e.request == f.request && e.verdict.Effect? && f.verdict.Effect? ==> e == f)
    && (forall tid :: tid in s.results ==> tid in s.threads && s.threads[tid].pc == Returned(s.results[tid]))
    && (forall e :: e in s.stored || e in s.audited ==> e.id < s.nextId)
  }

  /** A stored receipt is the one its reservation holds, or the one denial of a request that has none. */
  ghost predicate StoredOk(s: State) {
    && (forall e :: e in s.stored ==> if e.verdict.Denied? then Unreserved(s, e.request) else Holds(s, e))
    && forall e, f :: e in s.stored && f in s.stored && e.request == f.request ==> e == f
  }

  ghost predicate Inv(s: State) {
    && JournalOk(s) && StoredOk(s) && StartedOk(s) && FlightsOk(s) && HistoryOk(s)
    && (forall tid :: tid in s.threads ==> ThreadOk(s, tid))
    && (!s.up ==> s.threads == map[])
  }

  // ---------- Non-interference ----------

  /** A step of one leading thread changes its own place, its own flight, and the journal only under its own key
      while the record there, if any, is its own. */
  ghost predicate Own(s: State, t: State, tid: nat) {
    && tid in s.threads && tid in t.threads
    && var r := s.threads[tid].request;
       && Leads(s.threads[tid].pc) && t.threads[tid].request == r && t.threads == s.threads[tid := t.threads[tid]]
       && t.up == s.up
       && (forall f :: f != Flight(r) ==> (f in t.flights <==> f in s.flights) && (f in s.flights ==> t.flights[f] == s.flights[f]))
       && (forall k :: k != r.key ==> (k in t.journal <==> k in s.journal) && (k in s.journal ==> t.journal[k] == s.journal[k]))
       && (t.journal != s.journal && r.key in s.journal ==> s.journal[r.key].request == r)
       && (t.journal != s.journal && r.key in t.journal ==> t.journal[r.key].request == r)
       && s.stored <= t.stored && s.audited <= t.audited && s.nextId <= t.nextId
       && (forall e :: e in t.stored && e !in s.stored ==> e.request == r)
       && s.answered <= t.answered && (forall e :: e in t.answered && e !in s.answered ==> e.request == r)
       && (t.started == s.started ||
           (t.started == s.started + [r] && r.key in s.journal && s.journal[r.key].request == r))
  }

  lemma OthersKeep(s: State, t: State, tid: nat, other: nat)
    requires Inv(s) && Own(s, t, tid) && other != tid && other in s.threads
    ensures other in t.threads && ThreadOk(t, other)
  {
    hide JournalOk, StartedOk, FlightsOk, HistoryOk, Answerable;
    var r, q := s.threads[tid].request, s.threads[other].request;
    assert ThreadOk(s, tid) && ThreadOk(s, other);
    if Leads(s.threads[other].pc) {
      assert q != r;
      if r.key == q.key && q.key in s.journal && s.journal[q.key].request == q {
        assert t.journal == s.journal && t.started == s.started;
      }
    }
  }

  /** No other effect receipt was handed out for the request. */
  ghost predicate SoleEffect(s: State, e: Evidence) {
    e.verdict.Effect? ==> forall f :: f in s.answered && f.request == e.request && f.verdict.Effect? ==> f == e
  }

  /** What the acting thread must show of its own step. */
  ghost predicate StepOk(s: State, t: State, tid: nat)
    requires Own(s, t, tid)
  {
    var r := s.threads[tid].request;
    && ThreadOk(t, tid)
    && (r.key in t.journal && t.journal != s.journal ==>
          && (Held(t.journal[r.key]).Some? ==>
                var e := t.journal[r.key].phase.receipt; e.request == r && e.id < t.nextId && !e.verdict.Denied?)
          && (t.journal[r.key].phase.Finalized? ==> t.journal[r.key].phase.receipt in t.stored && t.journal[r.key].phase.receipt in t.audited))
    && (r.key !in t.journal && r.key in s.journal ==> !StartedKey(s, r.key))
    && (t.started != s.started ==> r.key in t.journal && t.journal[r.key].request == r && !StartedKey(s, r.key))
    && (forall e :: e in t.answered && e.request == r ==> Answerable(t, e) && SoleEffect(t, e))
    && (forall e :: e in t.stored || e in t.audited ==> e.id < t.nextId)
    && (forall e :: e in t.stored && e.request == r ==> if e.verdict.Denied? then Unreserved(t, r) else Holds(t, e))
    && (forall e, f :: e in t.stored && f in t.stored && e.request == f.request == r ==> e == f)
    && (Flight(r) in t.flights ==> t.flights[Flight(r)] == tid && Leads(t.threads[tid].pc))
    && (t.results == s.results || (t.threads[tid].pc.Returned? && t.results == s.results[tid := t.threads[tid].pc.answer]))
  }

  lemma StartedKeep(s: State, t: State, tid: nat)
    requires Inv(s) && Own(s, t, tid) && StepOk(s, t, tid)
    ensures StartedOk(t)
  {
    hide JournalOk, FlightsOk, HistoryOk, ThreadOk, Answerable;
    var r := s.threads[tid].request;
    forall i | 0 <= i < |s.started|
      ensures s.started[i].key in t.journal && t.journal[s.started[i].key].request == s.started[i]
    {
      if s.started[i].key == r.key { assert StartedKey(s, r.key); }
    }
  }

  /** The receipt that a reservation holds is the only effect receipt handed out for it. */
  lemma HeldIsSole(s: State, e: Evidence)
    requires HistoryOk(s) && Answerable(s, e) && e.request.key in s.journal && Held(s.journal[e.request.key]) == Some(e)
    ensures SoleEffect(s, e)
  {
    forall f | f in s.answered && f.request == e.request && f.verdict.Effect? && e.verdict.Effect? ensures f == e { assert Answerable(s, f); }
  }

  lemma AnswersKeep(s: State, t: State, tid: nat, e: Evidence)
    requires HistoryOk(s) && Own(s, t, tid) && StepOk(s, t, tid) && e in t.answered
    ensures Answerable(t, e) && SoleEffect(t, e)
  {
    hide ThreadOk;
    if e.request != s.threads[tid].request { assert Answerable(s, e); }
  }

  lemma StepKeeps(s: State, t: State, tid: nat)
    requires Inv(s) && Own(s, t, tid) && StepOk(s, t, tid)
    ensures Inv(t)
  {
    StartedKeep(s, t, tid);
    forall e | e in t.answered ensures Answerable(t, e) && SoleEffect(t, e) { AnswersKeep(s, t, tid, e); }
    forall other | other in t.threads ensures ThreadOk(t, other) { if other != tid { OthersKeep(s, t, tid, other); } }
    hide StartedOk, StoredOk, ThreadOk, Answerable, SoleEffect, JournalOk, FlightsOk, HistoryOk;
    JournalKeeps(s, t, tid);
    StoredKeep(s, t, tid);
    FlightsKeep(s, t, tid);
    HistoryKeeps(s, t, tid);
  }

  lemma JournalKeeps(s: State, t: State, tid: nat)
    requires JournalOk(s) && Own(s, t, tid) && StepOk(s, t, tid)
    ensures JournalOk(t)
  {
    hide ThreadOk, Answerable, SoleEffect;
  }

  lemma StoredKeep(s: State, t: State, tid: nat)
    requires StoredOk(s) && Own(s, t, tid) && StepOk(s, t, tid)
    ensures StoredOk(t)
  {
    hide ThreadOk, Answerable, SoleEffect;
  }

  lemma FlightsKeep(s: State, t: State, tid: nat)
    requires FlightsOk(s) && Own(s, t, tid) && StepOk(s, t, tid)
    ensures FlightsOk(t)
  {
    hide ThreadOk, Answerable, SoleEffect;
  }

  lemma HistoryKeeps(s: State, t: State, tid: nat)
    requires HistoryOk(s) && Own(s, t, tid) && StepOk(s, t, tid)
    requires forall e :: e in t.answered ==> Answerable(t, e) && SoleEffect(t, e)
    ensures HistoryOk(t)
  {
    hide ThreadOk, Answerable;
  }

  /** More evidence and fresh IDs disturb nobody but a call that has found no receipt. */
  lemma GrowKeeps(s: State, t: State)
    requires Inv(s) && t == s.(stored := t.stored, audited := t.audited, nextId := t.nextId)
    requires s.stored <= t.stored && s.audited <= t.audited && s.nextId <= t.nextId
    requires StoredOk(t) && forall e :: e in t.stored || e in t.audited ==> e.id < t.nextId
    requires forall e, tid :: e in t.stored && e !in s.stored && tid in s.threads && s.threads[tid].request == e.request ==>
               var pc := s.threads[tid].pc; !pc.Admitting? && !pc.Reserving? && !pc.Releasing?
    ensures Inv(t)
  {
    forall tid | tid in t.threads ensures ThreadOk(t, tid) { assert ThreadOk(s, tid); }
    forall e | e in t.answered ensures Answerable(t, e) { assert Answerable(s, e); }
  }

  lemma MoveKeeps(s: State, tid: nat, pc: Pc)
    requires Inv(s) && tid in s.threads && Leads(s.threads[tid].pc) && Leads(pc) && PcOk(At(s, tid, pc), s.threads[tid].request, pc)
    ensures Inv(At(s, tid, pc))
  {
    hide StartedOk, JournalOk, Answerable;
    assert ThreadOk(s, tid);
    AnswerableMoved(s, At(s, tid, pc));
    StepKeeps(s, At(s, tid, pc), tid);
  }

  /** Whether a receipt may be handed out depends on the journal alone. */
  lemma AnswerableMoved(s: State, t: State)
    requires t.journal == s.journal && s.nextId <= t.nextId
    ensures forall e :: Answerable(s, e) ==> Answerable(t, e)
  {
  }

  lemma AnswerKeeps(s: State, tid: nat, a: Answer)
    requires Inv(s) && tid in s.threads && Leads(s.threads[tid].pc)
    requires a.Got? ==> Answerable(s, a.receipt) && a.receipt.request == s.threads[tid].request && SoleEffect(s, a.receipt) && Undisputed(s, a.receipt)
    ensures Inv(Answering(s, tid, a))
  {
    AnswerOwn(s, tid, a);
    AnswerStepOk(s, tid, a);
    hide *;
    StepKeeps(s, Answering(s, tid, a), tid);
  }

  lemma AnswerOwn(s: State, tid: nat, a: Answer)
    requires tid in s.threads && Leads(s.threads[tid].pc) && (a.Got? ==> a.receipt.request == s.threads[tid].request)
    ensures Own(s, Answering(s, tid, a), tid)
  {
  }

  lemma AnswerStepOk(s: State, tid: nat, a: Answer)
    requires Inv(s) && tid in s.threads && Leads(s.threads[tid].pc) && Own(s, Answering(s, tid, a), tid)
    requires a.Got? ==> Answerable(s, a.receipt) && a.receipt.request == s.threads[tid].request && SoleEffect(s, a.receipt) && Undisputed(s, a.receipt)
    ensures StepOk(s, Answering(s, tid, a), tid)
  {
    hide Own, StartedOk, JournalOk, Answerable;
    assert ThreadOk(s, tid);
    AnswerableMoved(s, Answering(s, tid, a));
  }

  // ---------- Each step ----------

  lemma LookKeeps(s: State, tid: nat)
    requires Inv(s) && Enabled(s, tid) && s.threads[tid].pc.LookUp?
    ensures Inv(LookUpRetry(s, tid))
  {
    var r := s.threads[tid].request;
    if r.key in s.journal && s.journal[r.key].request == r {
      ReservedLookKeeps(s, tid);
    } else {
      LookCases(s, tid);
      hide *;
      var t := LookUpRetry(s, tid);
      if Admits(s, tid, t) { AdmittingKeeps(s, tid); }
      else if e :| Redenies(s, tid, e, t) { DenialLookKeeps(s, tid, e); }
      else { FailingKeeps(s, tid); }
    }
  }

  predicate Admits(s: State, tid: nat, t: State) {
    tid in s.threads && t == At(s, tid, Admitting) && Unreserved(s, s.threads[tid].request) && forall e :: e in s.stored ==> e.request != s.threads[tid].request
  }

  predicate Redenies(s: State, tid: nat, e: Evidence, t: State) {
    && tid in s.threads && e in s.stored && e.request == s.threads[tid].request && e.verdict.Denied?
    && t == Answering(s.(audited := s.audited + {e}), tid, Got(e))
  }

  lemma LookCases(s: State, tid: nat)
    requires tid in s.threads && Unreserved(s, s.threads[tid].request)
    ensures var t := LookUpRetry(s, tid);
            Admits(s, tid, t) || (exists e :: Redenies(s, tid, e, t)) || t == Answering(s, tid, Failed)
  {
    var r := s.threads[tid].request;
    if r.key !in s.journal && Listed(s.stored, r.key) {
      var e := FirstListed(s.stored, r.key);
      if e.request == r && e.verdict.Denied? { assert Redenies(s, tid, e, LookUpRetry(s, tid)); }
    }
    hide Answering;
  }

  lemma AdmittingKeeps(s: State, tid: nat)
    requires Inv(s) && Enabled(s, tid) && s.threads[tid].pc.LookUp? && Admits(s, tid, At(s, tid, Admitting))
    ensures Inv(At(s, tid, Admitting))
  {
    hide Inv;
    MoveKeeps(s, tid, Admitting);
  }

  lemma FailingKeeps(s: State, tid: nat)
    requires Inv(s) && Enabled(s, tid) && s.threads[tid].pc.LookUp?
    ensures Inv(Answering(s, tid, Failed))
  {
    hide Inv;
    AnswerKeeps(s, tid, Failed);
  }

  lemma ReservedLookKeeps(s: State, tid: nat)
    requires Inv(s) && Enabled(s, tid) && s.threads[tid].pc.LookUp?
    requires var r := s.threads[tid].request; r.key in s.journal && s.journal[r.key].request == r
    ensures Inv(LookUpRetry(s, tid))
  {
    hide StartedOk, FlightsOk, ThreadOk;
    var r := s.threads[tid].request;
    match s.journal[r.key].phase {
      case Pending => MoveKeeps(s, tid, Recovering);
      case Finalizing(e) => MoveKeeps(s, tid, Persisting(e, 0, Retry));
      case Finalized(e) => HeldIsSole(s, e); AnswerKeeps(s, tid, Got(e));
    }
  }

  lemma DenialLookKeeps(s: State, tid: nat, e: Evidence)
    requires Inv(s) && Enabled(s, tid) && s.threads[tid].pc.LookUp? && Redenies(s, tid, e, Answering(s.(audited := s.audited + {e}), tid, Got(e)))
    ensures Inv(Answering(s.(audited := s.audited + {e}), tid, Got(e)))
  {
    hide StartedOk, FlightsOk, ThreadOk, JournalOk;
    var t := s.(audited := s.audited + {e});
    GrowKeeps(s, t);
    AnswerKeeps(t, tid, Got(e));
  }

  lemma AdmitKeeps(s: State, tid: nat, a: Admission)
    requires Inv(s) && Enabled(s, tid) && s.threads[tid].pc.Admitting?
    ensures Inv(AdmitCall(s, tid, a))
  {
    assert ThreadOk(s, tid);
    hide StartedOk, FlightsOk, ThreadOk, JournalOk;
    match a {
      case Proceed => MoveKeeps(s, tid, Reserving);
      case Error => AnswerKeeps(s, tid, Failed);
      case Deny(kept, witnessed, place) =>
        DenyKeeps(s, tid, kept, witnessed, place);
    }
  }

  lemma DenyKeeps(s: State, tid: nat, kept: bool, witnessed: bool, place: nat)
    requires Inv(s) && Enabled(s, tid) && s.threads[tid].pc.Admitting?
    ensures Inv(AdmitCall(s, tid, Deny(kept, witnessed, place)))
  {
    hide StartedOk, JournalOk;
    assert ThreadOk(s, tid);
    var t := AdmitCall(s, tid, Deny(kept, witnessed, place));
    forall a | a in t.answered && a.request == s.threads[tid].request ensures Answerable(t, a) && SoleEffect(t, a) {
      if a in s.answered { assert Answerable(s, a); }
    }
    StepKeeps(s, t, tid);
  }

  lemma ReserveKeeps(s: State, tid: nat, fate: Fate)
    requires Inv(s) && Enabled(s, tid) && s.threads[tid].pc.Reserving?
    ensures Inv(ReserveCall(s, tid, fate))
  {
    if s.threads[tid].request.key in s.journal || fate.FailsBefore? {
      hide Inv;
      AnswerKeeps(s, tid, Failed);
    } else {
      var pc := if fate.Completes? then Preparing else Releasing(Failed);
      ReservedKeeps(s, tid, pc);
      hide Inv;
    }
  }

  function Reserved(s: State, tid: nat, pc: Pc): State
    requires tid in s.threads
  {
    var r := s.threads[tid].request;
    At(s.(journal := s.journal[r.key := Reservation(r, Pending)]), tid, pc)
  }

  lemma ReservedKeeps(s: State, tid: nat, pc: Pc)
    requires Inv(s) && tid in s.threads && s.threads[tid].pc.Reserving? && s.threads[tid].request.key !in s.journal
    requires pc in {Preparing, Releasing(Failed)}
    ensures Inv(Reserved(s, tid, pc))
  {
    ReservedOwn(s, tid, pc);
    ReservedOk(s, tid, pc);
    hide *;
    StepKeeps(s, Reserved(s, tid, pc), tid);
  }

  lemma ReservedOwn(s: State, tid: nat, pc: Pc)
    requires tid in s.threads && s.threads[tid].pc.Reserving? && s.threads[tid].request.key !in s.journal
    ensures Own(s, Reserved(s, tid, pc), tid)
  {
  }

  lemma ReservedOk(s: State, tid: nat, pc: Pc)
    requires Inv(s) && tid in s.threads && s.threads[tid].pc.Reserving? && s.threads[tid].request.key !in s.journal
    requires pc in {Preparing, Releasing(Failed)} && Own(s, Reserved(s, tid, pc), tid)
    ensures StepOk(s, Reserved(s, tid, pc), tid)
  {
    hide Own;
    assert ThreadOk(s, tid);
    var r := s.threads[tid].request;
    forall e | e in s.answered && e.request == r ensures e.verdict.Denied? && Answerable(s, e) { assert Answerable(s, e); }
    assert !StartedKey(s, r.key);
    hide StartedOk, FlightsOk, JournalOk;
  }

  lemma CancelKeeps(s: State, tid: nat, fate: Fate)
    requires Inv(s) && Enabled(s, tid) && s.threads[tid].pc.Cancelling?
    ensures Inv(CancelCall(s, tid, fate))
  {
    hide StartedOk;
    assert ThreadOk(s, tid);
    var t := CancelCall(s, tid, fate);
    assert Own(s, t, tid) by { hide PcOk, StoredOk, HistoryOk; }
    assert StepOk(s, t, tid) by { hide Own; }
    hide *;
    StepKeeps(s, t, tid);
  }

  /** A pending reservation turns into one that holds a receipt. */
  lemma IntentKeeps(s: State, tid: nat, e: Evidence, pc: Pc)
    requires Inv(s) && tid in s.threads && Leads(s.threads[tid].pc) && Leads(pc)
    requires var r := s.threads[tid].request;
             && r.key in s.journal && s.journal[r.key] == Reservation(r, Pending) && e.request == r && e.id < s.nextId
             && (e.verdict.Interrupted? || (e.verdict.Effect? && Owner(s, r)))
             && PcOk(s.(journal := s.journal[r.key := Reservation(r, Finalizing(e))]), r, pc)
             && (pc.Releasing? || pc.Persisting?)
    ensures Inv(At(s.(journal := s.journal[s.threads[tid].request.key := Reservation(s.threads[tid].request, Finalizing(e))]), tid, pc))
  {
    hide StartedOk;
    assert ThreadOk(s, tid);
    var r := s.threads[tid].request;
    var t := At(s.(journal := s.journal[r.key := Reservation(r, Finalizing(e))]), tid, pc);
    forall a | a in t.answered && a.request == r ensures Answerable(t, a) && SoleEffect(t, a) { assert Answerable(s, a); }
    assert Own(s, t, tid) by { hide PcOk, StoredOk, HistoryOk; }
    assert StepOk(s, t, tid) by { hide Own, Answerable, SoleEffect; }
    hide *;
    StepKeeps(s, t, tid);
  }

  lemma RecordKeeps(s: State, tid: nat, fate: Fate)
    requires Inv(s) && Enabled(s, tid) && s.threads[tid].pc.Recording?
    ensures Inv(RecordCall(s, tid, s.threads[tid].pc.receipt, fate))
  {
    hide StartedOk, FlightsOk, JournalOk;
    var r, e := s.threads[tid].request, s.threads[tid].pc.receipt;
    assert ThreadOk(s, tid);
    if fate.FailsBefore? {
      AnswerKeeps(s, tid, Got(e));
    } else {
      IntentKeeps(s, tid, e, Persisting(e, 0, Leader));
      var t := At(s.(journal := s.journal[r.key := Reservation(r, Finalizing(e))]), tid, Persisting(e, 0, Leader));
      if fate.FailsAfter? {
        HeldIsSole(t, e);
        AnswerKeeps(t, tid, Got(e));
        assert Answering(t, tid, Got(e)) == RecordCall(s, tid, e, fate);
      }
    }
  }

  lemma RecoverKeeps(s: State, tid: nat, fate: Fate)
    requires Inv(s) && Enabled(s, tid) && s.threads[tid].pc.Recovering?
    ensures Inv(RecoverCall(s, tid, fate))
  {
    hide StartedOk, FlightsOk, JournalOk;
    var r := s.threads[tid].request;
    assert ThreadOk(s, tid);
    var e := Evidence(s.nextId, 0, r, Interrupted);
    var u := s.(nextId := s.nextId + 1);
    GrowKeeps(s, u);
    if fate.FailsBefore? {
      AnswerKeeps(u, tid, Failed);
    } else {
      IntentKeeps(u, tid, e, Persisting(e, 0, Retry));
      var t := At(u.(journal := u.journal[r.key := Reservation(r, Finalizing(e))]), tid, Persisting(e, 0, Retry));
      if fate.FailsAfter? {
        AnswerKeeps(t, tid, Failed);
        assert Answering(t, tid, Failed) == RecoverCall(s, tid, fate);
      }
    }
  }

  /** The record is finalized once its receipt and its terminal event are durable. */
  lemma FinalizeKeeps(s: State, tid: nat)
    requires Inv(s) && Enabled(s, tid) && s.threads[tid].pc.Persisting? && s.threads[tid].pc.stage == 2
    ensures var r, e := s.threads[tid].request, s.threads[tid].pc.receipt;
            Inv(s.(journal := s.journal[r.key := Reservation(r, Finalized(e))]))
  {
    hide StartedOk;
    assert ThreadOk(s, tid);
    var r, e := s.threads[tid].request, s.threads[tid].pc.receipt;
    var t := s.(journal := s.journal[r.key := Reservation(r, Finalized(e))]);
    forall a | a in t.answered && a.request == r ensures Answerable(t, a) && SoleEffect(t, a) { assert Answerable(s, a); }
    assert t.threads == s.threads[tid := s.threads[tid]];
    StepKeeps(s, t, tid);
  }

  /** What the persisting write itself leaves, before the thread moves on. */
  lemma PersistWriteKeeps(s: State, tid: nat)
    requires Inv(s) && Enabled(s, tid) && s.threads[tid].pc.Persisting?
    ensures Inv(PersistWrite(s, tid))
  {
    hide StartedOk, FlightsOk;
    assert ThreadOk(s, tid);
    var r, pc := s.threads[tid].request, s.threads[tid].pc;
    assert pc.receipt.id < s.nextId;
    if pc.stage < 2 { GrowKeeps(s, PersistWrite(s, tid)); } else { FinalizeKeeps(s, tid); }
  }

  lemma PersistKeeps(s: State, tid: nat, fate: Fate)
    requires Inv(s) && Enabled(s, tid) && s.threads[tid].pc.Persisting?
    ensures Inv(PersistCall(s, tid, fate))
  {
    hide Inv, PcOk;
    PersistAnswers(s, tid);
    PersistWriteKeeps(s, tid);
    PersistAnswers(PersistWrite(s, tid), tid);
    if s.threads[tid].pc.stage < 2 { PersistMoves(s, tid); }
  }

  lemma PersistAnswers(t: State, tid: nat)
    requires Inv(t) && Enabled(t, tid) && t.threads[tid].pc.Persisting?
    ensures Inv(Answering(t, tid, Failed)) && Inv(Answering(t, tid, Got(t.threads[tid].pc.receipt)))
  {
    hide StartedOk, FlightsOk;
    assert ThreadOk(t, tid);
    var e := t.threads[tid].pc.receipt;
    assert Answerable(t, e);
    HeldIsSole(t, e);
    AnswerKeeps(t, tid, Got(e));
    AnswerKeeps(t, tid, Failed);
  }

  lemma PersistMoves(s: State, tid: nat)
    requires Enabled(s, tid) && s.threads[tid].pc.Persisting? && s.threads[tid].pc.stage < 2 && Inv(PersistWrite(s, tid))
    ensures Inv(At(PersistWrite(s, tid), tid, s.threads[tid].pc.(stage := s.threads[tid].pc.stage + 1)))
  {
    hide StartedOk, FlightsOk, JournalOk, HistoryOk;
    var t := PersistWrite(s, tid);
    assert ThreadOk(t, tid);
    MoveKeeps(t, tid, t.threads[tid].pc.(stage := t.threads[tid].pc.stage + 1));
  }

  lemma StartKeeps(s: State, tid: nat, expired: bool)
    requires Inv(s) && Enabled(s, tid) && s.threads[tid].pc.Ready?
    ensures Inv(Next(s, Start(tid, expired)))
  {
    assert ThreadOk(s, tid);
    StartOwn(s, tid, expired);
    StartStepOk(s, tid, expired);
    hide *;
    StepKeeps(s, Next(s, Start(tid, expired)), tid);
  }

  lemma StartOwn(s: State, tid: nat, expired: bool)
    requires Enabled(s, tid) && s.threads[tid].pc.Ready? && Owner(s, s.threads[tid].request)
    ensures Own(s, Next(s, Start(tid, expired)), tid)
  {
  }

  lemma StartStepOk(s: State, tid: nat, expired: bool)
    requires Inv(s) && Enabled(s, tid) && s.threads[tid].pc.Ready? && Own(s, Next(s, Start(tid, expired)), tid)
    ensures StepOk(s, Next(s, Start(tid, expired)), tid)
  {
    hide Own, AcquireFlight, LookUpRetry, AdmitCall, ReserveCall, CancelCall, RecordCall, RecoverCall, PersistCall, ReconcileKey;
    assert ThreadOk(s, tid);
    var t := Next(s, Start(tid, expired));
    forall a | a in t.answered && a.request == s.threads[tid].request ensures Answerable(t, a) && SoleEffect(t, a) { assert Answerable(s, a); }
  }

  lemma FinishKeeps(s: State, tid: nat)
    requires Inv(s) && Enabled(s, tid) && s.threads[tid].pc.Running?
    ensures Inv(Next(s, Finish(tid)))
  {
    hide StartedOk, FlightsOk, JournalOk;
    assert ThreadOk(s, tid);
    GrowKeeps(s, s.(nextId := s.nextId + 1));
    MoveKeeps(s.(nextId := s.nextId + 1), tid, Recording(Evidence(s.nextId, 0, s.threads[tid].request, Effect)));
  }

  lemma ReleaseKeeps(s: State, tid: nat)
    requires Inv(s) && Enabled(s, tid) && s.threads[tid].pc.Releasing?
    ensures Inv(Next(s, Release(tid)))
  {
    ReleaseOwn(s, tid);
    ReleaseStepOk(s, tid);
    hide *;
    StepKeeps(s, Next(s, Release(tid)), tid);
  }

  lemma ReleaseOwn(s: State, tid: nat)
    requires Enabled(s, tid) && s.threads[tid].pc.Releasing?
    ensures Own(s, Next(s, Release(tid)), tid)
  {
  }

  lemma ReleaseStepOk(s: State, tid: nat)
    requires Inv(s) && Enabled(s, tid) && s.threads[tid].pc.Releasing? && Own(s, Next(s, Release(tid)), tid)
    ensures StepOk(s, Next(s, Release(tid)), tid)
  {
    hide Own, StartedOk;
    assert ThreadOk(s, tid);
    var t := Next(s, Release(tid));
    forall a | a in t.answered && a.request == s.threads[tid].request ensures Answerable(t, a) && SoleEffect(t, a) { assert Answerable(s, a); }
  }

  /** A step of a thread that holds no flight and touches nothing durable. */
  lemma BystanderKeeps(s: State, t: State, tid: nat)
    requires Inv(s) && s.up && tid in t.threads && (tid in s.threads ==> !Leads(s.threads[tid].pc) && !s.threads[tid].pc.Returned?)
    requires t == s.(threads := s.threads[tid := t.threads[tid]], flights := t.flights)
    requires tid in s.threads ==> t.threads[tid].request == s.threads[tid].request
    requires ThreadOk(t, tid) && tid !in s.results
    requires t.flights == s.flights || (Leads(t.threads[tid].pc) && Flight(t.threads[tid].request) !in s.flights
                                        && t.flights == s.flights[Flight(t.threads[tid].request) := tid])
    requires tid !in s.threads ==> t.flights == s.flights
    ensures Inv(t)
  {
    hide StartedOk, StoredOk, JournalOk;
    forall other | other in t.threads ensures ThreadOk(t, other) { if other != tid { BystanderThread(s, t, tid, other); } }
    hide ThreadOk;
    AnswerableMoved(s, t);
    DurableSame(s, t);
    forall e | e in t.answered ensures Answerable(t, e) { assert Answerable(s, e); }
  }

  lemma BystanderThread(s: State, t: State, tid: nat, other: nat)
    requires other in s.threads && other != tid && ThreadOk(s, other) && tid in t.threads
    requires t == s.(threads := s.threads[tid := t.threads[tid]], flights := t.flights)
    requires tid in s.threads ==> t.threads[tid].request == s.threads[tid].request
    requires t.flights == s.flights || (exists f :: f !in s.flights && t.flights == s.flights[f := tid])
    ensures ThreadOk(t, other)
  {
  }

  lemma DurableSame(s: State, t: State)
    requires StartedOk(s) && StoredOk(s) && JournalOk(s)
    requires t.started == s.started && t.journal == s.journal && t.stored == s.stored && t.audited == s.audited && t.nextId == s.nextId
    ensures StartedOk(t) && StoredOk(t) && JournalOk(t)
  {
  }

  lemma AcquireKeeps(s: State, tid: nat)
    requires Inv(s) && Enabled(s, tid) && s.threads[tid].pc.Begin?
    ensures Inv(AcquireFlight(s, tid))
  {
    hide StartedOk, JournalOk, Answerable;
    assert ThreadOk(s, tid);
    BystanderKeeps(s, AcquireFlight(s, tid), tid);
  }

  lemma WakeKeeps(s: State, tid: nat, expired: bool)
    requires Inv(s) && Enabled(s, tid) && s.threads[tid].pc.Waiting?
    ensures Inv(Next(s, Wake(tid, expired)))
  {
    hide StartedOk, JournalOk, Answerable;
    assert ThreadOk(s, tid);
    var leader := s.threads[tid].pc.leader;
    assert ThreadOk(s, leader);
    if expired || leader in s.results { BystanderKeeps(s, Next(s, Wake(tid, expired)), tid); }
  }

  lemma CallKeeps(s: State, tid: nat, r: Request)
    requires Inv(s)
    ensures Inv(Next(s, Call(tid, r)))
  {
    hide StartedOk, JournalOk, Answerable;
    if s.up && tid !in s.threads && tid !in s.results { BystanderKeeps(s, Next(s, Call(tid, r)), tid); }
  }

  lemma RestartKeeps(s: State, a: Action)
    requires Inv(s) && (a.Crash? || a.Serve?)
    ensures Inv(Next(s, a))
  {
    hide StartedOk, StoredOk, JournalOk;
    var t := Next(s, a);
    DurableSame(s, t);
    forall e | e in t.answered ensures Answerable(t, e) { assert Answerable(s, e); }
  }

  /** With no thread about, a record may take its next step. */
  lemma RecordStepKeeps(s: State, key: string, r: Reservation)
    requires Inv(s) && !s.up && key in s.journal && (Interruption(s.journal[key], r) || Completion(s.journal[key], r))
    requires Held(r).Some? ==> r.phase.receipt.request == r.request && r.phase.receipt.id < s.nextId && !r.phase.receipt.verdict.Denied?
    requires r.phase.Finalized? ==> r.phase.receipt in s.stored && r.phase.receipt in s.audited
    ensures Inv(s.(journal := s.journal[key := r]))
  {
    var t := s.(journal := s.journal[key := r]);
    forall e | e in t.answered ensures Answerable(t, e) { assert Answerable(s, e); }
  }

  lemma ReconcileKeeps(s: State, key: string, fate: Fate)
    requires Inv(s) && !s.up && key in s.journal
    ensures Inv(ReconcileKey(s, key, fate))
  {
    hide StartedOk, FlightsOk, ThreadOk;
    var record := s.journal[key];
    match record.phase {
      case Pending =>
        var e := Evidence(s.nextId, 0, record.request, Interrupted);
        GrowKeeps(s, s.(nextId := s.nextId + 1));
        RecordStepKeeps(s.(nextId := s.nextId + 1), key, record.(phase := Finalizing(e)));
      case Finalizing(e) =>
        if e !in s.stored { GrowKeeps(s, s.(stored := s.stored + {e})); }
        else if e !in s.audited { GrowKeeps(s, s.(audited := s.audited + {e})); }
        else { RecordStepKeeps(s, key, record.(phase := Finalized(e))); }
      case Finalized(_) =>
    }
  }

  lemma NextKeeps(s: State, a: Action)
    requires Inv(s)
    ensures Inv(Next(s, a))
  {
    hide Inv, PcOk;
    match a {
      case Call(tid, r) => CallKeeps(s, tid, r);
      case Acquire(tid) => if Enabled(s, tid) && s.threads[tid].pc.Begin? { AcquireKeeps(s, tid); }
      case Look(tid, readable) => if Enabled(s, tid) && s.threads[tid].pc.LookUp? { LookKeeps(s, tid); FailingKeeps(s, tid); }
      case Admit(tid, admission) => if Enabled(s, tid) && s.threads[tid].pc.Admitting? { AdmitKeeps(s, tid, admission); }
      case Reserve(tid, fate) => if Enabled(s, tid) && s.threads[tid].pc.Reserving? { ReserveKeeps(s, tid, fate); }
      case Prepare(tid, prepared) => if Enabled(s, tid) && s.threads[tid].pc.Preparing? { PrepareKeeps(s, tid, prepared); }
      case Cancel(tid, fate) => if Enabled(s, tid) && s.threads[tid].pc.Cancelling? { CancelKeeps(s, tid, fate); }
      case Start(tid, expired) => if Enabled(s, tid) && s.threads[tid].pc.Ready? { StartKeeps(s, tid, expired); }
      case Finish(tid) => if Enabled(s, tid) && s.threads[tid].pc.Running? { FinishKeeps(s, tid); }
      case Record(tid, fate) => if Enabled(s, tid) && s.threads[tid].pc.Recording? { RecordKeeps(s, tid, fate); }
      case Recover(tid, fate) => if Enabled(s, tid) && s.threads[tid].pc.Recovering? { RecoverKeeps(s, tid, fate); }
      case Persist(tid, fate) => if Enabled(s, tid) && s.threads[tid].pc.Persisting? { PersistKeeps(s, tid, fate); }
      case Release(tid) => if Enabled(s, tid) && s.threads[tid].pc.Releasing? { ReleaseKeeps(s, tid); }
      case Wake(tid, expired) => if Enabled(s, tid) && s.threads[tid].pc.Waiting? { WakeKeeps(s, tid, expired); }
      case Reconcile(key, fate) => if !s.up && key in s.journal { ReconcileKeeps(s, key, fate); }
      case _ => RestartKeeps(s, a);
    }
  }

  lemma PrepareKeeps(s: State, tid: nat, prepared: bool)
    requires Inv(s) && Enabled(s, tid) && s.threads[tid].pc.Preparing?
    ensures Inv(Next(s, Prepare(tid, prepared)))
  {
    hide StartedOk, FlightsOk, JournalOk;
    assert ThreadOk(s, tid);
    MoveKeeps(s, tid, if prepared then Ready else Cancelling);
  }

  lemma {:induction false} RunKeeps(s: State, actions: seq<Action>)
    requires Inv(s)
    ensures Inv(Run(s, actions))
    decreases |actions|
  {
    hide Inv, Next;
    if actions != [] {
      NextKeeps(s, actions[0]);
      RunKeeps(Next(s, actions[0]), actions[1..]);
    }
  }

  // ---------- Main results ----------

  /** Over any interleaving of callers, failing writes, crashes and restarts the guest effect starts at most once
      under an idempotency key, and what has started is never cancelled. */
  lemma {:induction false} EffectStartsAtMostOnce(actions: seq<Action>)
    ensures var s := Run(INITIAL, actions);
            && (forall i, j :: 0 <= i < j < |s.started| ==> s.started[i].key != s.started[j].key)
            && (forall i :: 0 <= i < |s.started| ==> s.started[i].key in s.journal && s.journal[s.started[i].key].request == s.started[i])
            && (forall tid :: tid in s.threads && s.threads[tid].pc.Cancelling? ==> s.threads[tid].request !in s.started)
  {
    RunKeeps(INITIAL, actions);
    var s := Run(INITIAL, actions);
    forall tid | tid in s.threads && s.threads[tid].pc.Cancelling? ensures s.threads[tid].request !in s.started {
      assert ThreadOk(s, tid);
    }
  }

  /** A reservation never gives up the receipt it holds. */
  lemma HeldStays(s: State, a: Action, key: string)
    requires Inv(s) && key in s.journal && Held(s.journal[key]).Some?
    ensures var t := Next(s, a); key in t.journal && Held(t.journal[key]) == Held(s.journal[key]) && t.journal[key].request == s.journal[key].request
  {
    hide JournalOk, StartedOk, FlightsOk, HistoryOk, ThreadOk;
    hide AcquireFlight, LookUpRetry, AdmitCall, ReserveCall, CancelCall, RecordCall, RecoverCall, PersistCall, ReconcileKey;
  }

  lemma {:induction false} HeldStaysForever(s: State, actions: seq<Action>, key: string)
    requires Inv(s) && key in s.journal && Held(s.journal[key]).Some?
    ensures var t := Run(s, actions); key in t.journal && Held(t.journal[key]) == Held(s.journal[key]) && t.journal[key].request == s.journal[key].request
    decreases |actions|
  {
    hide Inv, Next;
    if actions != [] {
      HeldStays(s, actions[0], key);
      NextKeeps(s, actions[0]);
      HeldStaysForever(Next(s, actions[0]), actions[1..], key);
    }
  }

  /** A waiter returns what its leader returned. */
  lemma WaiterGetsLeaderAnswer(s: State, tid: nat)
    requires Inv(s) && Enabled(s, tid) && s.threads[tid].pc.Waiting? && s.threads[tid].pc.leader in s.results
    ensures var leader := s.threads[tid].pc.leader;
            && leader in s.threads && s.threads[leader].request == s.threads[tid].request
            && Next(s, Wake(tid, false)).threads[tid].pc == s.threads[leader].pc
  {
    assert ThreadOk(s, tid);
  }
}
