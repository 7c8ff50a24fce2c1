/** Concurrent recovery mutations: one-use approvals consumed and given back, the machine lease, and provider
    dispatch. Store calls succeed or change nothing; the process may stop between any two steps. */
module ApprovedDispatch {
  import opened Canonical

  /** `tracked` requests report whether their closure reached the provider. */
  datatype Request = Request(approval: Option<string>, machine: string, tracked: bool)

  datatype Pc =
    | Checking
    | Authorizing
    | Leasing
    | Leased
    | Admitting
    | Consuming
    | Hooked
    | Running
    | Compensating
    | Persisting
    | Unleasing(dispatched: bool, kept: bool)
    | Done(dispatched: bool, kept: bool)

  /** `needsApproval` is what policy decided, `consumedHere` the flag the code carries; `acquired` and `released`
      count the lease calls. */
  datatype Caller = Caller(request: Request, pc: Pc, needsApproval: bool, consumedHere: bool, acquired: nat, released: nat)

  /** `consumed` names the caller whose record it is, which the store does not; `dispatches` is history. */
  datatype Dispatch = Dispatch(caller: nat, approval: Option<string>)

  datatype State = State(
    callers: map<nat, Caller>, known: set<nat>, consumed: map<string, nat>, leases: map<string, nat>, dispatches: seq<Dispatch>)

  datatype Verdict = Refused | Allowed(needsApproval: bool)

  datatype Action =
    | Call(tid: nat, request: Request)
    | Check(tid: nat, proceeds: bool)
    | Authorize(tid: nat, verdict: Verdict)
    | Acquire(tid: nat, granted: bool, expired: bool)
    | CheckExpiry(tid: nat, expired: bool)
    | Admit(tid: nat, recorded: bool)
    | Consume(tid: nat, written: bool)
    | RunHooks(tid: nat, passed: bool)
    | Execute(tid: nat, reached: bool)
    | Compensate(tid: nat, removed: bool)
    | Persist(tid: nat)
    | Unlease(tid: nat, removed: bool)
    | Crash

  const INITIAL := State(map[], {}, map[], map[], [])

  function Set(s: State, tid: nat, c: Caller): State { s.(callers := s.callers[tid := c]) }

  predicate Usable(s: State, r: Request) { r.approval.Some? && r.approval.value !in s.consumed }

  /** `precheckOperationApprovalReference`, policy and `verifyApprovalUnconsumed`. */
  function Authorized(s: State, r: Request, v: Verdict): bool {
    && v.Allowed?
    && (r.approval.Some? ==> r.approval.value !in s.consumed)
    && (v.needsApproval ==> r.approval.Some?)
  }

  /** `verifyCanAcquire`: an existing lease is taken over only if it has expired and its owner is dead. */
  predicate Free(s: State, machine: string, expired: bool) {
    machine in s.leases ==> expired && s.leases[machine] !in s.callers
  }

  function Step(s: State, tid: nat, c: Caller, a: Action): State {
    match (a, c.pc)
    case (Check(_, proceeds), Checking) => Set(s, tid, c.(pc := if proceeds then Authorizing else Done(false, false)))
    case (Authorize(_, v), Authorizing) =>
      Set(s, tid, if Authorized(s, c.request, v) then c.(pc := Leasing, needsApproval := v.needsApproval) else c.(pc := Done(false, false)))
    case (Acquire(_, granted, expired), Leasing) =>
      if granted && Free(s, c.request.machine, expired)
      then Set(s.(leases := s.leases[c.request.machine := tid]), tid, c.(pc := Leased, acquired := c.acquired + 1))
      else Set(s, tid, c.(pc := Done(false, false)))
    case (CheckExpiry(_, expired), Leased) =>
      Set(s, tid, c.(pc := if expired then Unleasing(false, false) else Admitting))
    case (Admit(_, recorded), Admitting) =>
      Set(s, tid, c.(pc := if !recorded then Unleasing(false, false) else if c.needsApproval then Consuming else Hooked))
    case (Consume(_, written), Consuming) =>
      if written && Usable(s, c.request)
      then Set(s.(consumed := s.consumed[c.request.approval.value := tid]), tid, c.(pc := Hooked, consumedHere := true))
      else Set(s, tid, c.(pc := Unleasing(false, false)))
    case (RunHooks(_, passed), Hooked) => Set(s, tid, c.(pc := if passed then Running else Compensating))
    case (Execute(_, reached), Running) =>
      if c.request.tracked && !reached then Set(s, tid, c.(pc := Compensating))
      else
        Set(s.(dispatches := s.dispatches + [Dispatch(tid, if c.consumedHere then c.request.approval else None)]),
            tid, c.(pc := Persisting))
    case (Compensate(_, removed), Compensating) =>
      if !c.consumedHere then Set(s, tid, c.(pc := Unleasing(false, false)))
      else if removed && c.request.approval.Some?
      then Set(s.(consumed := s.consumed - {c.request.approval.value}), tid, c.(pc := Unleasing(false, false)))
      else Set(s, tid, c.(pc := Unleasing(false, true)))
    case (Persist(_), Persisting) => Set(s, tid, c.(pc := Unleasing(true, false)))
    case (Unlease(_, removed), Unleasing(dispatched, kept)) =>
      Set(if removed && c.request.machine in s.leases && s.leases[c.request.machine] == tid
          then s.(leases := s.leases - {c.request.machine}) else s,
          tid, c.(pc := Done(dispatched, kept), released := c.released + 1))
    case _ => s
  }

  /** A crash ends every caller; consumption records and leases stay. */
  function Next(s: State, a: Action): State {
    match a
    case Call(tid, r) => if tid in s.known then s else Set(s.(known := s.known + {tid}), tid, Caller(r, Checking, false, false, 0, 0))
    case Crash => s.(callers := map[])
    case _ => if a.tid in s.callers then Step(s, a.tid, s.callers[a.tid], a) else s
  }

  function Run(s: State, actions: seq<Action>): State
    decreases |actions|
  {
    if actions == [] then s else Run(Next(s, actions[0]), actions[1..])
  }

  // ---------- The invariant ----------

  predicate HoldsConsumption(s: State, tid: nat, c: Caller) {
    c.request.approval.Some? && c.request.approval.value in s.consumed && s.consumed[c.request.approval.value] == tid
  }

  predicate MayHoldConsumption(pc: Pc) {
    pc.Hooked? || pc.Running? || pc.Compensating? || pc.Persisting?
    || (pc.Unleasing? && (pc.dispatched || pc.kept)) || (pc.Done? && (pc.dispatched || pc.kept))
  }

  predicate HasLease(pc: Pc) { !pc.Checking? && !pc.Authorizing? && !pc.Leasing? && !pc.Done? }

  /** What the code knows of itself at each place. */
  predicate PcOk(c: Caller) {
    && (c.pc.Unleasing? || c.pc.Done? ==> !(c.pc.dispatched && c.pc.kept))
    && (HasLease(c.pc) ==> c.acquired == 1 && c.released == 0)
    && (c.pc.Done? ==> c.released == c.acquired <= 1)
    && (c.pc.Checking? || c.pc.Authorizing? || c.pc.Leasing? ==> c.acquired == c.released == 0)
    && (c.pc.Hooked? || c.pc.Running? || c.pc.Compensating? || c.pc.Persisting? || Dispatched(c.pc) ==> c.consumedHere == c.needsApproval)
    && (c.pc.Checking? || c.pc.Authorizing? || c.pc.Leasing? || c.pc.Leased? || c.pc.Admitting? || c.pc.Consuming? ==> !c.consumedHere)
    && (c.pc.Consuming? ==> c.needsApproval)
  }

  predicate Dispatched(pc: Pc) { pc.Persisting? || (pc.Unleasing? && pc.dispatched) || (pc.Done? && pc.dispatched) }

  /** A caller owns its own approval's record while it may, and nothing else. */
  predicate CallerOk(s: State, tid: nat, c: Caller) {
    && PcOk(c)
    && (MayHoldConsumption(c.pc) && c.consumedHere ==> HoldsConsumption(s, tid, c))
    && (forall id :: id in s.consumed && s.consumed[id] == tid ==> MayHoldConsumption(c.pc) && c.consumedHere && c.request.approval == Some(id))
    && (HasLease(c.pc) ==> c.request.machine in s.leases && s.leases[c.request.machine] == tid)
  }

  /** A caller that has dispatched is past its closure, and one that has not is not on record. */
  predicate DispatchOk(s: State, d: Dispatch) {
    && d.caller in s.known
    && (d.approval.Some? ==> d.approval.value in s.consumed && s.consumed[d.approval.value] == d.caller)
    && (d.caller in s.callers ==> Dispatched(s.callers[d.caller].pc))
  }

  ghost predicate Inv(s: State) {
    && (forall tid :: tid in s.callers ==> tid in s.known && CallerOk(s, tid, s.callers[tid]))
    && (forall id :: id in s.consumed ==> s.consumed[id] in s.known)
    && (forall i :: 0 <= i < |s.dispatches| ==> DispatchOk(s, s.dispatches[i]))
    && (forall i, j :: 0 <= i < j < |s.dispatches| ==> s.dispatches[i].caller != s.dispatches[j].caller)
  }

  /** A step takes or gives up only what is free or its own. */
  ghost predicate Own(s: State, t: State, tid: nat) {
    && (forall other :: other != tid ==> (other in t.callers <==> other in s.callers) && (other in s.callers ==> t.callers[other] == s.callers[other]))
    && (forall id :: id in s.consumed && s.consumed[id] != tid ==> id in t.consumed && t.consumed[id] == s.consumed[id])
    && (forall id :: id in t.consumed && t.consumed[id] != tid ==> id in s.consumed && s.consumed[id] == t.consumed[id])
    && (forall m :: m in s.leases && s.leases[m] != tid && s.leases[m] in s.callers ==> m in t.leases && t.leases[m] == s.leases[m])
  }

  lemma OtherKeeps(s: State, t: State, tid: nat, other: nat)
    requires Own(s, t, tid) && other != tid && other in s.callers && CallerOk(s, other, s.callers[other])
    ensures other in t.callers && CallerOk(t, other, t.callers[other])
  {
    hide PcOk;
  }

  lemma StepIsOwn(s: State, tid: nat, a: Action)
    requires tid in s.callers && CallerOk(s, tid, s.callers[tid])
    ensures Own(s, Step(s, tid, s.callers[tid], a), tid)
  {
    hide PcOk;
  }

  lemma StepPlace(s: State, tid: nat, a: Action)
    requires tid in s.callers && PcOk(s.callers[tid])
    ensures var t := Step(s, tid, s.callers[tid], a); tid in t.callers && PcOk(t.callers[tid])
  {
  }

  lemma StepCaller(s: State, tid: nat, a: Action)
    requires tid in s.callers && CallerOk(s, tid, s.callers[tid])
    ensures var t := Step(s, tid, s.callers[tid], a); tid in t.callers && CallerOk(t, tid, t.callers[tid])
  {
    StepPlace(s, tid, a);
    assert s.callers[tid].pc.Admitting? || s.callers[tid].pc.Consuming? ==> !s.callers[tid].consumedHere;
    hide PcOk;
  }

  lemma StepDispatches(s: State, tid: nat, a: Action, d: Dispatch)
    requires tid in s.callers && CallerOk(s, tid, s.callers[tid]) && DispatchOk(s, d)
    ensures DispatchOk(Step(s, tid, s.callers[tid], a), d)
  {
    hide PcOk;
  }

  lemma NewDispatch(s: State, tid: nat, a: Action)
    requires tid in s.callers && tid in s.known && CallerOk(s, tid, s.callers[tid])
    ensures var t := Step(s, tid, s.callers[tid], a);
            t.dispatches == s.dispatches ||
            (exists d :: t.dispatches == s.dispatches + [d] && d.caller == tid && DispatchOk(t, d) && !Dispatched(s.callers[tid].pc))
  {
    var c := s.callers[tid];
    var t := Step(s, tid, c, a);
    if t.dispatches != s.dispatches {
      var d := Dispatch(tid, if c.consumedHere then c.request.approval else None);
      assert t.dispatches == s.dispatches + [d] && DispatchOk(t, d);
    }
  }

  lemma DispatchedCaller(s: State, d: Dispatch)
    requires DispatchOk(s, d)
    ensures d.caller in s.callers ==> Dispatched(s.callers[d.caller].pc)
  {
  }

  lemma StepKnows(s: State, tid: nat, a: Action)
    requires Inv(s) && tid in s.callers
    ensures var t := Step(s, tid, s.callers[tid], a);
            t.known == s.known && t.callers.Keys == s.callers.Keys && forall id :: id in t.consumed ==> t.consumed[id] in t.known
  {
    hide CallerOk, DispatchOk;
  }

  lemma StepKeeps(s: State, tid: nat, a: Action)
    requires Inv(s) && tid in s.callers
    ensures Inv(Step(s, tid, s.callers[tid], a))
  {
    hide CallerOk, Step, Own, DispatchOk;
    var t := Step(s, tid, s.callers[tid], a);
    StepIsOwn(s, tid, a);
    StepKnows(s, tid, a);
    StepCaller(s, tid, a);
    NewDispatch(s, tid, a);
    forall other | other in t.callers ensures other in t.known && CallerOk(t, other, t.callers[other]) {
      if other != tid { OtherKeeps(s, t, tid, other); }
    }
    forall i | 0 <= i < |s.dispatches| ensures DispatchOk(t, s.dispatches[i]) { StepDispatches(s, tid, a, s.dispatches[i]); }
    forall i, j | 0 <= i < j < |t.dispatches| ensures t.dispatches[i].caller != t.dispatches[j].caller {
      assert DispatchOk(s, s.dispatches[i]);
      assert s.dispatches[i].caller == tid ==> Dispatched(s.callers[tid].pc) by { DispatchedCaller(s, s.dispatches[i]); }
    }
  }

  lemma NextKeeps(s: State, a: Action)
    requires Inv(s)
    ensures Inv(Next(s, a))
  {
    match a {
      case Call(tid, r) =>
        if tid !in s.known {
          var t := Next(s, a);
          forall other | other in t.callers ensures CallerOk(t, other, t.callers[other]) {
            if other != tid { assert CallerOk(s, other, s.callers[other]); }
          }
          forall i | 0 <= i < |t.dispatches| ensures DispatchOk(t, t.dispatches[i]) { assert DispatchOk(s, s.dispatches[i]); }
        }
      case Crash =>
        forall i | 0 <= i < |s.dispatches| ensures DispatchOk(Next(s, a), s.dispatches[i]) { assert DispatchOk(s, s.dispatches[i]); }
      case _ => if a.tid in s.callers { StepKeeps(s, a.tid, a); }
    }
  }

  lemma {:induction false} RunKeeps(s: State, actions: seq<Action>)
    requires Inv(s)
    ensures Inv(Run(s, actions))
    decreases |actions|
  {
    hide Inv, Next;
    if actions != [] {
      NextKeeps(s, actions[0]);
      RunKeeps(Next(s, actions[0]), actions[1..]);
    }
  }

  // ---------- Main results ----------

  /** Over any interleaving of callers that share approvals and machines, and any crashes: an approval lets at most
      one caller dispatch, and only under a consumption record that is its own and is never removed. */
  lemma {:induction false} OneDispatchPerApproval(actions: seq<Action>)
    ensures var s := Run(INITIAL, actions);
            && (forall i, j :: 0 <= i < j < |s.dispatches| && s.dispatches[i].approval.Some? ==> s.dispatches[i].approval != s.dispatches[j].approval)
            && (forall i :: 0 <= i < |s.dispatches| && s.dispatches[i].approval.Some? ==>
                  var id := s.dispatches[i].approval.value; id in s.consumed && s.consumed[id] == s.dispatches[i].caller)
  {
    RunKeeps(INITIAL, actions);
    var s := Run(INITIAL, actions);
    forall i, j | 0 <= i < j < |s.dispatches| && s.dispatches[i].approval.Some?
      ensures s.dispatches[i].approval != s.dispatches[j].approval
    {
      assert DispatchOk(s, s.dispatches[i]) && DispatchOk(s, s.dispatches[j]);
    }
    forall i | 0 <= i < |s.dispatches| ensures DispatchOk(s, s.dispatches[i]) {}
  }

  /** When a caller returns: it has given back exactly the leases it acquired; if it dispatched, its consumption
      stays; if not, it leaves no consumption, except where its own release call failed, and then only its own. */
  lemma {:induction false} ReturnedCallersLeaveNothing(actions: seq<Action>, tid: nat)
    requires tid in Run(INITIAL, actions).callers && Run(INITIAL, actions).callers[tid].pc.Done?
    ensures var s := Run(INITIAL, actions);
            var c := s.callers[tid];
            && c.released == c.acquired <= 1
            && ((exists id :: id in s.consumed && s.consumed[id] == tid) <==> c.consumedHere && (c.pc.dispatched || c.pc.kept))
            && (c.pc.kept ==> !c.pc.dispatched)
  {
    RunKeeps(INITIAL, actions);
    var s := Run(INITIAL, actions);
    assert CallerOk(s, tid, s.callers[tid]);
  }

  /** A class that needs approval is dispatched only with the caller's own record in place. */
  lemma DispatchUnderConsumption(s: State, a: Action)
    requires Inv(s) && |Next(s, a).dispatches| > |s.dispatches|
    ensures a.Execute? && a.tid in s.callers
    ensures s.callers[a.tid].needsApproval ==> HoldsConsumption(s, a.tid, s.callers[a.tid])
    ensures HasLease(s.callers[a.tid].pc) && s.leases[s.callers[a.tid].request.machine] == a.tid
  {
    assert CallerOk(s, a.tid, s.callers[a.tid]);
  }

  /** Two callers are never between lease and return on the same machine, however soon leases expire. */
  lemma {:induction false} MachinesAreExclusive(actions: seq<Action>, a: nat, b: nat)
    requires var s := Run(INITIAL, actions);
             && a in s.callers && b in s.callers && HasLease(s.callers[a].pc) && HasLease(s.callers[b].pc)
             && s.callers[a].request.machine == s.callers[b].request.machine
    ensures a == b
  {
    RunKeeps(INITIAL, actions);
    var s := Run(INITIAL, actions);
    assert CallerOk(s, a, s.callers[a]) && CallerOk(s, b, s.callers[b]);
  }
}
