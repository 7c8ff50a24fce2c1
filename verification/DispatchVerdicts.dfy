/** Recovery mutations against what policy decided: the verdict of the step that authorised a caller says under which
    approval, if any, it dispatches. */
module DispatchVerdicts {
  import opened Canonical
  import opened ApprovedDispatch

  /** The run's step `k` decides this caller's authorisation. */
  ghost predicate Decides(actions: seq<Action>, k: nat, tid: nat, v: Verdict)
    requires k < |actions|
  {
    var s := Run(INITIAL, actions[..k]);
    actions[k] == Authorize(tid, v) && tid in s.callers && s.callers[tid].pc.Authorizing?
  }

  ghost predicate DecidedBy(actions: seq<Action>, tid: nat, v: Verdict) { exists k :: 0 <= k < |actions| && Decides(actions, k, tid, v) }

  /** The run's step `k` is the call itself. */
  ghost predicate Calls(actions: seq<Action>, k: nat, tid: nat, r: Request)
    requires k < |actions|
  {
    actions[k] == Call(tid, r) && tid !in Run(INITIAL, actions[..k]).known
  }

  ghost predicate CalledWith(actions: seq<Action>, tid: nat, r: Request) { exists k :: 0 <= k < |actions| && Calls(actions, k, tid, r) }

  lemma {:induction false} RunSnoc(s: State, actions: seq<Action>, a: Action)
    ensures Run(s, actions + [a]) == Next(Run(s, actions), a)
    decreases |actions|
  {
    hide Next;
    if actions == [] {
      assert [a][1..] == [] && actions + [a] == [a];
    } else {
      assert (actions + [a])[1..] == actions[1..] + [a];
      RunSnoc(Next(s, actions[0]), actions[1..], a);
    }
  }

  /** A step more decides and calls what it says, and nothing is forgotten. */
  lemma {:induction false} HistoryGrows(actions: seq<Action>, a: Action)
    ensures forall tid, v :: DecidedBy(actions + [a], tid, v) <==>
              DecidedBy(actions, tid, v)
              || (a == Authorize(tid, v) && tid in Run(INITIAL, actions).callers && Run(INITIAL, actions).callers[tid].pc.Authorizing?)
    ensures forall tid, r :: CalledWith(actions + [a], tid, r) <==>
              CalledWith(actions, tid, r) || (a == Call(tid, r) && tid !in Run(INITIAL, actions).known)
  {
    hide Run;
    var next := actions + [a];
    assert next[..|actions|] == actions;
    assert forall k :: 0 <= k < |actions| ==> next[..k] == actions[..k] && next[k] == actions[k];
    forall tid, v ensures DecidedBy(next, tid, v) <==>
      DecidedBy(actions, tid, v) || (a == Authorize(tid, v) && tid in Run(INITIAL, actions).callers && Run(INITIAL, actions).callers[tid].pc.Authorizing?)
    {
      if k :| 0 <= k < |actions| && Decides(actions, k, tid, v) { assert Decides(next, k, tid, v); }
      if a == Authorize(tid, v) && tid in Run(INITIAL, actions).callers && Run(INITIAL, actions).callers[tid].pc.Authorizing? {
        assert Decides(next, |actions|, tid, v);
      }
      if k :| 0 <= k < |next| && Decides(next, k, tid, v) {
        if k < |actions| { assert Decides(actions, k, tid, v); }
      }
    }
    forall tid, r ensures CalledWith(next, tid, r) <==> CalledWith(actions, tid, r) || (a == Call(tid, r) && tid !in Run(INITIAL, actions).known) {
      if k :| 0 <= k < |actions| && Calls(actions, k, tid, r) { assert Calls(next, k, tid, r); }
      if a == Call(tid, r) && tid !in Run(INITIAL, actions).known { assert Calls(next, |actions|, tid, r); }
      if k :| 0 <= k < |next| && Calls(next, k, tid, r) {
        if k < |actions| { assert Calls(actions, k, tid, r); }
      }
    }
  }

  // ---------- What the run remembers of its own steps ----------

  predicate Undecided(pc: Pc) { pc.Checking? || pc.Authorizing? }

  predicate Proceeding(pc: Pc) { !Undecided(pc) && (pc.Done? ==> pc.dispatched) }

  ghost predicate CallerTold(actions: seq<Action>, tid: nat, c: Caller) {
    && CalledWith(actions, tid, c.request)
    && (Undecided(c.pc) ==> forall v :: !DecidedBy(actions, tid, v))
    && (Proceeding(c.pc) ==> DecidedBy(actions, tid, Allowed(c.needsApproval)) && (c.needsApproval ==> c.request.approval.Some?))
  }

  /** The caller's own verdict and request say under which approval this dispatch is. */
  ghost predicate DispatchTold(actions: seq<Action>, d: Dispatch) {
    exists needsApproval, r :: Explains(actions, d, needsApproval, r)
  }

  ghost predicate Explains(actions: seq<Action>, d: Dispatch, needsApproval: bool, r: Request) {
    && DecidedBy(actions, d.caller, Allowed(needsApproval)) && CalledWith(actions, d.caller, r)
    && d.approval == (if needsApproval then r.approval else None) && (needsApproval ==> r.approval.Some?)
  }

  ghost predicate CallersTold(actions: seq<Action>, s: State) {
    && (forall tid :: tid in s.callers ==> CallerTold(actions, tid, s.callers[tid]))
    && (forall tid, v :: DecidedBy(actions, tid, v) ==> tid in s.known)
    && (forall tid, r :: CalledWith(actions, tid, r) ==> tid in s.known)
  }

  ghost predicate ToldOnce(actions: seq<Action>) {
    && (forall tid, v, w :: DecidedBy(actions, tid, v) && DecidedBy(actions, tid, w) ==> v == w)
    && (forall tid, q, r :: CalledWith(actions, tid, q) && CalledWith(actions, tid, r) ==> q == r)
  }

  /** The run's history is that of its steps, and a caller has one verdict and one request. */
  ghost predicate Told(actions: seq<Action>, s: State) {
    && CallersTold(actions, s) && ToldOnce(actions)
    && (forall i :: 0 <= i < |s.dispatches| ==> DispatchTold(actions, s.dispatches[i]))
  }

  /** `next` remembers what `before` does and what this step decides or calls. */
  ghost predicate Grown(before: seq<Action>, a: Action, next: seq<Action>, s: State) {
    && (forall tid, v :: DecidedBy(next, tid, v) <==>
          DecidedBy(before, tid, v) || (a == Authorize(tid, v) && tid in s.callers && s.callers[tid].pc.Authorizing?))
    && (forall tid, r :: CalledWith(next, tid, r) <==> CalledWith(before, tid, r) || (a == Call(tid, r) && tid !in s.known))
  }

  lemma OthersStayTold(before: seq<Action>, a: Action, next: seq<Action>, s: State, tid: nat)
    requires Grown(before, a, next, s) && CallersTold(before, s) && tid in s.callers && (a.Crash? || a.tid != tid)
    ensures CallerTold(next, tid, s.callers[tid])
  {
    hide DecidedBy, CalledWith;
    assert CallerTold(before, tid, s.callers[tid]);
  }

  /** A caller proceeds only from the step that allowed it, and carries what that step said. */
  predicate Moves(c: Caller, a: Action, d: Caller) {
    && d.request == c.request
    && (Undecided(d.pc) ==> Undecided(c.pc) && !(c.pc.Authorizing? && a.Authorize?))
    && (Proceeding(d.pc) ==>
          if c.pc.Authorizing? && a.Authorize? then a.verdict == Allowed(d.needsApproval) && (d.needsApproval ==> c.request.approval.Some?)
          else Proceeding(c.pc) && d.needsApproval == c.needsApproval)
  }

  lemma StepMoves(s: State, a: Action)
    requires !a.Call? && !a.Crash? && a.tid in s.callers
    ensures var t := Next(s, a); a.tid in t.callers && Moves(s.callers[a.tid], a, t.callers[a.tid])
  {
  }

  lemma ActingStaysTold(before: seq<Action>, a: Action, next: seq<Action>, s: State)
    requires Grown(before, a, next, s) && CallersTold(before, s) && !a.Call? && !a.Crash? && a.tid in s.callers
    ensures var t := Next(s, a); a.tid in t.callers && CallerTold(next, a.tid, t.callers[a.tid])
  {
    StepMoves(s, a);
    hide DecidedBy, CalledWith, Next;
    assert CallerTold(before, a.tid, s.callers[a.tid]);
  }

  lemma CallersStayTold(before: seq<Action>, a: Action, next: seq<Action>, s: State)
    requires Grown(before, a, next, s) && CallersTold(before, s) && Inv(s)
    ensures CallersTold(next, Next(s, a))
  {
    hide DecidedBy, CalledWith, CallerTold, Inv, Step;
    var t := Next(s, a);
    KnownGrows(s, a);
    forall tid | tid in t.callers ensures CallerTold(next, tid, t.callers[tid]) {
      if !a.Crash? && a.tid == tid {
        if a.Call? {
          if tid !in s.known {
            NewCallerIsTold(before, a, next, s);
          } else {
            RepeatedCallStaysTold(before, a, next, s);
          }
        } else {
          if tid in s.callers {
            ActingStaysTold(before, a, next, s);
          }
        }
      } else {
        OthersStayTold(before, a, next, s, tid);
      }
    }
  }

  lemma NewCallerIsTold(before: seq<Action>, a: Action, next: seq<Action>, s: State)
    requires Grown(before, a, next, s) && CallersTold(before, s) && a.Call? && a.tid !in s.known
    ensures CallerTold(next, a.tid, Next(s, a).callers[a.tid])
  {
    hide DecidedBy, CalledWith;
  }

  lemma RepeatedCallStaysTold(before: seq<Action>, a: Action, next: seq<Action>, s: State)
    requires Grown(before, a, next, s) && CallersTold(before, s) && a.Call? && a.tid in s.known && a.tid in s.callers
    ensures CallerTold(next, a.tid, s.callers[a.tid])
  {
    hide DecidedBy, CalledWith;
    assert CallerTold(before, a.tid, s.callers[a.tid]);
  }

  lemma CallerIsOk(s: State, tid: nat)
    requires Inv(s) && tid in s.callers
    ensures CallerOk(s, tid, s.callers[tid]) && tid in s.known
  {
  }

  /** No step but a call makes a caller, and only the acting one changes. */
  lemma KnownGrows(s: State, a: Action)
    requires Inv(s)
    ensures var t := Next(s, a);
            && s.known <= t.known && (forall tid :: tid in s.callers ==> tid in s.known) && (a.Call? ==> a.tid in t.known)
            && (forall tid :: tid in t.callers && (a.Crash? || a.tid != tid) ==> tid in s.callers && t.callers[tid] == s.callers[tid])
            && (!a.Crash? && a.tid in t.callers && !(a.Call? && a.tid !in s.known) ==> a.tid in s.callers)
            && (a.Call? && a.tid in s.known ==> t == s)
  {
    hide CallerOk, DispatchOk;
  }

  lemma VerdictsStayOne(before: seq<Action>, a: Action, next: seq<Action>, s: State)
    requires Grown(before, a, next, s) && CallersTold(before, s) && ToldOnce(before)
    ensures ToldOnce(next)
  {
    hide DecidedBy, CalledWith;
    if a.Authorize? && a.tid in s.callers { assert CallerTold(before, a.tid, s.callers[a.tid]); }
  }

  lemma DispatchStaysTold(before: seq<Action>, a: Action, next: seq<Action>, s: State, d: Dispatch)
    requires Grown(before, a, next, s) && DispatchTold(before, d)
    ensures DispatchTold(next, d)
  {
    hide DecidedBy, CalledWith;
    var needsApproval, r :| Explains(before, d, needsApproval, r);
    assert Explains(next, d, needsApproval, r);
  }

  lemma NewDispatchIsTold(before: seq<Action>, a: Action, next: seq<Action>, s: State)
    requires Grown(before, a, next, s) && CallersTold(before, s) && Inv(s)
    ensures var t := Next(s, a);
            t.dispatches == s.dispatches || (|t.dispatches| == |s.dispatches| + 1 && t.dispatches[..|s.dispatches|] == s.dispatches
                                             && DispatchTold(next, t.dispatches[|s.dispatches|]))
  {
    hide DecidedBy, CalledWith, Inv;
    var t := Next(s, a);
    if t.dispatches != s.dispatches {
      var c := s.callers[a.tid];
      CallerIsOk(s, a.tid);
      assert CallerTold(before, a.tid, c);
      assert Explains(next, t.dispatches[|s.dispatches|], c.needsApproval, c.request);
    }
  }

  lemma StepIsTold(before: seq<Action>, a: Action, next: seq<Action>, s: State)
    requires Grown(before, a, next, s) && Told(before, s) && Inv(s)
    ensures Told(next, Next(s, a))
  {
    hide CallersTold, ToldOnce, DispatchTold, Inv, Next, Grown;
    CallersStayTold(before, a, next, s);
    VerdictsStayOne(before, a, next, s);
    NewDispatchIsTold(before, a, next, s);
    var t := Next(s, a);
    forall i | 0 <= i < |t.dispatches| ensures DispatchTold(next, t.dispatches[i]) {
      if i < |s.dispatches| {
        assert t.dispatches[i] == s.dispatches[i];
        DispatchStaysTold(before, a, next, s, s.dispatches[i]);
      }
    }
  }

  lemma {:induction false} RunIsTold(actions: seq<Action>)
    ensures Told(actions, Run(INITIAL, actions))
    decreases |actions|
  {
    if actions == [] {
    } else {
      var before, a := actions[..|actions| - 1], actions[|actions| - 1];
      assert actions == before + [a];
      RunIsTold(before);
      RunKeeps(INITIAL, before);
      RunSnoc(INITIAL, before, a);
      HistoryGrows(before, a);
      StepIsTold(before, a, actions, Run(INITIAL, before));
    }
  }

  // ---------- Main results ----------

  /** Over every run: each dispatch is by a caller that policy allowed, once and for all. If the verdict needed no
      approval, it is under none; if it needed one, it is under the approval its caller's own request names. */
  lemma {:induction false} DispatchFollowsVerdict(actions: seq<Action>, i: nat)
    requires i < |Run(INITIAL, actions).dispatches|
    ensures var d := Run(INITIAL, actions).dispatches[i];
            exists v, r ::
              && DecidedBy(actions, d.caller, v) && (forall w :: DecidedBy(actions, d.caller, w) ==> w == v)
              && CalledWith(actions, d.caller, r) && (forall q :: CalledWith(actions, d.caller, q) ==> q == r)
              && v.Allowed?
              && (v == Allowed(false) ==> d.approval == None)
              && (v == Allowed(true) ==> r.approval.Some? && d.approval == r.approval)
  {
    hide DecidedBy, CalledWith, Run;
    RunIsTold(actions);
    var d := Run(INITIAL, actions).dispatches[i];
    assert DispatchTold(actions, d);
    var needsApproval, r :| Explains(actions, d, needsApproval, r);
    assert DecidedBy(actions, d.caller, Allowed(needsApproval));
  }

  lemma {:induction false} SameApprovalSameDispatch(actions: seq<Action>, i: nat, j: nat)
    requires i < |Run(INITIAL, actions).dispatches| && j < |Run(INITIAL, actions).dispatches|
    requires var s := Run(INITIAL, actions); s.dispatches[i].approval.Some? && s.dispatches[i].approval == s.dispatches[j].approval
    ensures i == j
  {
    hide Run;
    OneDispatchPerApproval(actions);
  }

  /** Two callers whose verdicts both needed an approval never dispatch under the same one: of the calls that name an
      approval at most one dispatches, and its consumption record stands for good. */
  lemma {:induction false} OneUsePerApproval(actions: seq<Action>, i: nat, j: nat, q: Request, r: Request)
    requires i < |Run(INITIAL, actions).dispatches| && j < |Run(INITIAL, actions).dispatches|
    requires var s := Run(INITIAL, actions);
             && DecidedBy(actions, s.dispatches[i].caller, Allowed(true)) && DecidedBy(actions, s.dispatches[j].caller, Allowed(true))
             && CalledWith(actions, s.dispatches[i].caller, q) && CalledWith(actions, s.dispatches[j].caller, r)
             && q.approval == r.approval
    ensures var s := Run(INITIAL, actions);
            && i == j && q == r && q.approval.Some?
            && q.approval.value in s.consumed && s.consumed[q.approval.value] == s.dispatches[i].caller
  {
    hide DecidedBy, CalledWith, Run;
    RunIsTold(actions);
    DispatchFollowsVerdict(actions, i);
    DispatchFollowsVerdict(actions, j);
    OneDispatchPerApproval(actions);
    var s := Run(INITIAL, actions);
    assert s.dispatches[i].approval == q.approval && s.dispatches[j].approval == r.approval;
    SameApprovalSameDispatch(actions, i, j);
  }

  // ---------- What an unhindered call does ----------

  /** Policy can let this call through: an approval it names is unconsumed, and it names one if it needs one. */
  predicate Permitted(s: State, r: Request, v: Verdict) {
    && v.Allowed? && (v.needsApproval ==> r.approval.Some?)
    && (r.approval.Some? ==> r.approval.value !in s.consumed)
  }

  /** The steps of a call up to its hooks, none of which fails. */
  function Admission(tid: nat, r: Request, v: Verdict): seq<Action> {
    [Call(tid, r), Check(tid, true), Authorize(tid, v), Acquire(tid, true, false), CheckExpiry(tid, false), Admit(tid, true)]
    + (if v.Allowed? && v.needsApproval then [Consume(tid, true)] else [])
  }

  function Taken(s: State, tid: nat, r: Request, needsApproval: bool): State {
    s.(known := s.known + {tid}, leases := s.leases[r.machine := tid],
       consumed := if needsApproval && r.approval.Some? then s.consumed[r.approval.value := tid] else s.consumed)
  }

  lemma {:induction false} RunSplits(s: State, xs: seq<Action>, ys: seq<Action>)
    ensures Run(s, xs + ys) == Run(Run(s, xs), ys)
    decreases |xs|
  {
    hide Next;
    if xs == [] {
      assert xs + ys == ys;
    } else {
      assert (xs + ys)[1..] == xs[1..] + ys;
      RunSplits(Next(s, xs[0]), xs[1..], ys);
    }
  }

  lemma {:induction false} RunNone(s: State)
    ensures Run(s, []) == s
  {
  }

  lemma {:induction false} RunThree(s: State, a: Action, b: Action, c: Action)
    ensures Run(s, [a, b, c]) == Next(Next(Next(s, a), b), c)
  {
    hide Next;
    RunNone(s);
    RunSnoc(s, [], a);
    RunSnoc(s, [a], b);
    RunSnoc(s, [a, b], c);
    assert [] + [a] == [a] && [a] + [b] == [a, b] && [a, b] + [c] == [a, b, c];
  }

  lemma {:induction false} LeasedCall(s: State, tid: nat, r: Request, v: Verdict)
    requires tid !in s.known && r.machine !in s.leases && Permitted(s, r, v)
    ensures Run(s, [Call(tid, r), Check(tid, true), Authorize(tid, v), Acquire(tid, true, false)]) ==
            Taken(s, tid, r, false).(callers := s.callers[tid := Caller(r, Leased, v.needsApproval, false, 1, 0)])
  {
    hide Run;
    var s3 := Next(Next(Next(s, Call(tid, r)), Check(tid, true)), Authorize(tid, v));
    assert s3.callers == s.callers[tid := Caller(r, Leasing, v.needsApproval, false, 0, 0)];
    RunThree(s, Call(tid, r), Check(tid, true), Authorize(tid, v));
    RunSnoc(s, [Call(tid, r), Check(tid, true), Authorize(tid, v)], Acquire(tid, true, false));
    assert [Call(tid, r), Check(tid, true), Authorize(tid, v)] + [Acquire(tid, true, false)]
        == [Call(tid, r), Check(tid, true), Authorize(tid, v), Acquire(tid, true, false)];
    assert Next(s3, Acquire(tid, true, false)).callers == s.callers[tid := Caller(r, Leased, v.needsApproval, false, 1, 0)];
  }

  lemma {:induction false} HookedCall(s: State, tid: nat, r: Request, needsApproval: bool)
    requires tid in s.callers && s.callers[tid] == Caller(r, Leased, needsApproval, false, 1, 0)
    requires needsApproval ==> r.approval.Some? && r.approval.value !in s.consumed
    ensures Run(s, [CheckExpiry(tid, false), Admit(tid, true)] + (if needsApproval then [Consume(tid, true)] else [])) ==
            s.(consumed := if needsApproval then s.consumed[r.approval.value := tid] else s.consumed,
               callers := s.callers[tid := Caller(r, Hooked, needsApproval, needsApproval, 1, 0)])
  {
    hide Run;
    var s1 := Next(s, CheckExpiry(tid, false));
    var s2 := Next(s1, Admit(tid, true));
    RunSnoc(s, [], CheckExpiry(tid, false));
    RunNone(s);
    RunSnoc(s, [CheckExpiry(tid, false)], Admit(tid, true));
    assert [] + [CheckExpiry(tid, false)] == [CheckExpiry(tid, false)];
    assert [CheckExpiry(tid, false)] + [Admit(tid, true)] == [CheckExpiry(tid, false), Admit(tid, true)];
    if needsApproval {
      RunSnoc(s, [CheckExpiry(tid, false), Admit(tid, true)], Consume(tid, true));
      assert s2.callers == s.callers[tid := Caller(r, Consuming, true, false, 1, 0)];
      assert Next(s2, Consume(tid, true)).callers == s.callers[tid := Caller(r, Hooked, true, true, 1, 0)];
    } else {
      assert [CheckExpiry(tid, false), Admit(tid, true)] + [] == [CheckExpiry(tid, false), Admit(tid, true)];
      assert s2.callers == s.callers[tid := Caller(r, Hooked, false, false, 1, 0)];
    }
  }

  lemma {:induction false} AdmittedCall(s: State, tid: nat, r: Request, v: Verdict)
    requires tid !in s.known && r.machine !in s.leases && Permitted(s, r, v)
    ensures Run(s, Admission(tid, r, v)) ==
            Taken(s, tid, r, v.needsApproval).(callers := s.callers[tid := Caller(r, Hooked, v.needsApproval, v.needsApproval, 1, 0)])
  {
    hide Run, Next;
    var first := [Call(tid, r), Check(tid, true), Authorize(tid, v), Acquire(tid, true, false)];
    var last := [CheckExpiry(tid, false), Admit(tid, true)] + (if v.needsApproval then [Consume(tid, true)] else []);
    assert Admission(tid, r, v) == first + last;
    RunSplits(s, first, last);
    LeasedCall(s, tid, r, v);
    var s1 := Run(s, first);
    HookedCall(s1, tid, r, v.needsApproval);
    assert s1.callers[tid := Caller(r, Hooked, v.needsApproval, v.needsApproval, 1, 0)]
        == s.callers[tid := Caller(r, Hooked, v.needsApproval, v.needsApproval, 1, 0)];
  }

  lemma ExecutedCall(s: State, tid: nat, c: Caller)
    requires tid in s.callers && s.callers[tid] == c && c.pc.Hooked?
    ensures Next(Next(s, RunHooks(tid, true)), Execute(tid, true)) ==
            s.(dispatches := s.dispatches + [Dispatch(tid, if c.consumedHere then c.request.approval else None)],
               callers := s.callers[tid := c.(pc := Persisting)])
  {
    var s1 := Next(s, RunHooks(tid, true));
    assert s1.callers[tid := c.(pc := Persisting)] == s.callers[tid := c.(pc := Persisting)];
  }

  lemma ReturnedCall(s: State, tid: nat, c: Caller)
    requires tid in s.callers && s.callers[tid] == c && c.pc.Persisting? && c.request.machine in s.leases && s.leases[c.request.machine] == tid
    ensures Next(Next(s, Persist(tid)), Unlease(tid, true)) ==
            s.(leases := s.leases - {c.request.machine}, callers := s.callers[tid := c.(pc := Done(true, false), released := c.released + 1)])
  {
    var s1 := Next(s, Persist(tid));
    var done := c.(pc := Done(true, false), released := c.released + 1);
    assert s1.callers[tid := done] == s.callers[tid := done];
  }

  lemma {:induction false} HookedCallDispatches(s: State, tid: nat, c: Caller)
    requires tid in s.callers && s.callers[tid] == c && c.pc.Hooked? && c.request.machine in s.leases && s.leases[c.request.machine] == tid
    ensures Run(s, [RunHooks(tid, true), Execute(tid, true), Persist(tid), Unlease(tid, true)]) ==
            s.(dispatches := s.dispatches + [Dispatch(tid, if c.consumedHere then c.request.approval else None)],
               leases := s.leases - {c.request.machine}, callers := s.callers[tid := c.(pc := Done(true, false), released := c.released + 1)])
  {
    hide Run, Next;
    var last := [RunHooks(tid, true), Execute(tid, true), Persist(tid), Unlease(tid, true)];
    RunThree(s, last[0], last[1], last[2]);
    RunSnoc(s, last[..3], last[3]);
    assert last == last[..3] + [last[3]] && last[..3] == [last[0], last[1], last[2]];
    ExecutedCall(s, tid, c);
    var s2 := Next(Next(s, last[0]), last[1]);
    ReturnedCall(s2, tid, c.(pc := Persisting));
    var done := c.(pc := Done(true, false), released := c.released + 1);
    assert s2.callers[tid := done] == s.callers[tid := done];
  }

  lemma {:induction false} HookedCallAborts(s: State, tid: nat, c: Caller)
    requires tid in s.callers && s.callers[tid] == c && c.pc.Hooked? && c.request.machine in s.leases && s.leases[c.request.machine] == tid
    requires c.consumedHere ==> c.request.approval.Some?
    ensures Run(s, [RunHooks(tid, false), Compensate(tid, true), Unlease(tid, true)]) ==
            s.(consumed := if c.consumedHere then s.consumed - {c.request.approval.value} else s.consumed,
               leases := s.leases - {c.request.machine}, callers := s.callers[tid := c.(pc := Done(false, false), released := c.released + 1)])
  {
    hide Run;
    var last := [RunHooks(tid, false), Compensate(tid, true), Unlease(tid, true)];
    RunThree(s, last[0], last[1], last[2]);
    var s2 := Next(Next(s, last[0]), last[1]);
    assert s2.callers == s.callers[tid := c.(pc := Unleasing(false, false))];
    assert Next(s2, last[2]).callers == s.callers[tid := c.(pc := Done(false, false), released := c.released + 1)];
  }

  /** A call that has passed its checks goes on to its lease exactly if it is permitted, and otherwise returns at once;
      either way nothing but its place has changed. */
  lemma {:induction false} CallIsAuthorizedExactly(s: State, tid: nat, r: Request, v: Verdict)
    requires tid !in s.known
    ensures var t := Run(s, [Call(tid, r), Check(tid, true), Authorize(tid, v)]);
            && t == s.(known := s.known + {tid}, callers := t.callers) && tid in t.callers && t.callers.Keys == s.callers.Keys + {tid}
            && t.callers[tid].request == r && t.callers[tid].pc == if Permitted(s, r, v) then Leasing else Done(false, false)
  {
    RunThree(s, Call(tid, r), Check(tid, true), Authorize(tid, v));
    hide Run;
    var s2 := Next(Next(s, Call(tid, r)), Check(tid, true));
    assert s2.callers[tid] == Caller(r, Authorizing, false, false, 0, 0) && s2.consumed == s.consumed;
  }

  /** A lease that is asked for is taken exactly if the machine has none, or an expired one of a caller that is gone. */
  lemma LeaseIsTakenExactly(s: State, tid: nat, granted: bool, expired: bool)
    requires tid in s.callers && s.callers[tid].pc.Leasing?
    ensures var m := s.callers[tid].request.machine;
            var free := m !in s.leases || (expired && s.leases[m] !in s.callers);
            var t := Next(s, Acquire(tid, granted, expired));
            && tid in t.callers && t.callers[tid].pc == (if granted && free then Leased else Done(false, false))
            && t.leases == (if granted && free then s.leases[m := tid] else s.leases)
  {
  }

  /** A permitted call that nothing hinders dispatches once: under its request's approval, consumed for it and for
      good, exactly if the verdict needs one. The lease is given back. */
  lemma {:induction false} PermittedCallDispatches(s: State, tid: nat, r: Request, v: Verdict)
    requires tid !in s.known && r.machine !in s.leases && Permitted(s, r, v)
    ensures var t := Run(s, Admission(tid, r, v) + [RunHooks(tid, true), Execute(tid, true), Persist(tid), Unlease(tid, true)]);
            && t.dispatches == s.dispatches + [Dispatch(tid, if v.needsApproval then r.approval else None)]
            && t.consumed == (if v.needsApproval then s.consumed[r.approval.value := tid] else s.consumed)
            && t.leases == s.leases
            && tid in t.callers && t.callers[tid].pc == Done(true, false)
  {
    hide Run, Admission, Next;
    AdmittedCall(s, tid, r, v);
    var s1 := Run(s, Admission(tid, r, v));
    RunSplits(s, Admission(tid, r, v), [RunHooks(tid, true), Execute(tid, true), Persist(tid), Unlease(tid, true)]);
    HookedCallDispatches(s1, tid, s1.callers[tid]);
    assert s1.leases - {r.machine} == s.leases;
  }

  /** A permitted call whose hooks fail leaves no trace: no dispatch, its consumption undone, its lease given back. */
  lemma {:induction false} AbortedCallLeavesNothing(s: State, tid: nat, r: Request, v: Verdict)
    requires tid !in s.known && r.machine !in s.leases && Permitted(s, r, v)
    ensures var t := Run(s, Admission(tid, r, v) + [RunHooks(tid, false), Compensate(tid, true), Unlease(tid, true)]);
            && t.dispatches == s.dispatches && t.consumed == s.consumed && t.leases == s.leases
            && tid in t.callers && t.callers[tid].pc == Done(false, false)
  {
    hide Run, Admission, Next;
    AdmittedCall(s, tid, r, v);
    var s1 := Run(s, Admission(tid, r, v));
    RunSplits(s, Admission(tid, r, v), [RunHooks(tid, false), Compensate(tid, true), Unlease(tid, true)]);
    HookedCallAborts(s1, tid, s1.callers[tid]);
    assert s1.leases - {r.machine} == s.leases;
    if v.needsApproval { assert s1.consumed - {r.approval.value} == s.consumed; }
  }
}
