/** What the callers of session mutations are answered once a request is decided: by a durable finalization intent, or
    by a stored denial. */
module SessionReplays {
  import opened Canonical
  import opened Receipts
  import opened SessionFlights

  /** Every receipt handed out for this one's request between the two states is this one. */
  ghost predicate OnlyAnswer(s: State, t: State, e: Evidence) {
    && s.answered <= t.answered
    && forall i :: |s.answered| <= i < |t.answered| && t.answered[i].request == e.request ==> t.answered[i] == e
  }

  lemma OnlyAnswerJoins(s: State, t: State, u: State, e: Evidence)
    requires OnlyAnswer(s, t, e) && OnlyAnswer(t, u, e)
    ensures OnlyAnswer(s, u, e)
  {
    forall i | |s.answered| <= i < |u.answered| && u.answered[i].request == e.request ensures u.answered[i] == e {
      if i < |t.answered| { assert u.answered[i] == t.answered[i]; }
    }
  }

  // ---------- Decided requests ----------

  /** A leading thread that can still come to an answer other than the decided one does not exist. */
  lemma DecidedPlaces(s: State, tid: nat, e: Evidence)
    requires Inv(s) && Decided(s, e) && tid in s.threads && s.threads[tid].request == e.request
    ensures var pc := s.threads[tid].pc;
            && !pc.Admitting? && !pc.Preparing? && !pc.Cancelling? && !pc.Ready? && !pc.Running? && !pc.Recording? && !pc.Recovering?
            && (pc.Reserving? ==> Holds(s, e)) && (pc.Persisting? ==> pc.receipt == e)
            && (pc.Releasing? && pc.answer.Got? ==> pc.answer.receipt == e)
  {
    hide JournalOk, StartedOk, FlightsOk, HistoryOk;
    assert ThreadOk(s, tid);
  }

  lemma StoredGrows(s: State, a: Action)
    ensures s.stored <= Next(s, a).stored
  {
    hide AcquireFlight, LookUpRetry, AdmitCall, ReserveCall, CancelCall, RecordCall, RecoverCall, PersistCall, ReconcileKey;
  }

  lemma DecidedStays(s: State, a: Action, e: Evidence)
    requires Inv(s) && Decided(s, e)
    ensures Decided(Next(s, a), e)
  {
    hide Inv, Next;
    if Holds(s, e) { HeldStays(s, a, e.request.key); } else { StoredGrows(s, a); }
  }

  /** What one step hands out: something decided, or a leader's own denial or outcome. */
  ghost predicate Sourced(s: State, t: State, tid: nat) {
    && s.answered <= t.answered
    && forall i :: |s.answered| <= i < |t.answered| ==>
         var f := t.answered[i];
         tid in s.threads && s.threads[tid].request == f.request && (Decided(s, f) || s.threads[tid].pc.Admitting? || s.threads[tid].pc.Recording?)
  }

  lemma LookSourced(s: State, tid: nat)
    requires Inv(s) && Enabled(s, tid) && s.threads[tid].pc.LookUp?
    ensures Sourced(s, LookUpRetry(s, tid), tid)
  {
    hide StartedOk, FlightsOk, HistoryOk, ThreadOk;
  }

  lemma PersistSourced(s: State, tid: nat, fate: Fate)
    requires Inv(s) && Enabled(s, tid) && s.threads[tid].pc.Persisting?
    ensures Sourced(s, PersistCall(s, tid, fate), tid)
  {
    assert ThreadOk(s, tid);
    assert Holds(s, s.threads[tid].pc.receipt);
    hide StartedOk, FlightsOk, HistoryOk, ThreadOk, StoredOk;
  }

  lemma AdmitSourced(s: State, tid: nat, admission: Admission)
    requires Enabled(s, tid) && s.threads[tid].pc.Admitting?
    ensures Sourced(s, AdmitCall(s, tid, admission), tid)
  {
  }

  lemma RecordSourced(s: State, tid: nat, fate: Fate)
    requires Inv(s) && Enabled(s, tid) && s.threads[tid].pc.Recording?
    ensures Sourced(s, RecordCall(s, tid, s.threads[tid].pc.receipt, fate), tid)
  {
    assert ThreadOk(s, tid);
    hide StartedOk, FlightsOk, HistoryOk, ThreadOk, StoredOk;
  }

  lemma StepSourced(s: State, a: Action)
    requires Inv(s)
    ensures Next(s, a).answered == s.answered || (!a.Reconcile? && !a.Crash? && !a.Serve? && Sourced(s, Next(s, a), a.tid))
  {
    hide Inv, Sourced, LookUpRetry, PersistCall, AdmitCall, RecordCall;
    match a {
      case Look(tid, _) => if Enabled(s, tid) && s.threads[tid].pc.LookUp? { LookSourced(s, tid); }
      case Persist(tid, fate) => if Enabled(s, tid) && s.threads[tid].pc.Persisting? { PersistSourced(s, tid, fate); }
      case Admit(tid, admission) => if Enabled(s, tid) && s.threads[tid].pc.Admitting? { AdmitSourced(s, tid, admission); }
      case Record(tid, fate) => if Enabled(s, tid) && s.threads[tid].pc.Recording? { RecordSourced(s, tid, fate); }
      case _ =>
    }
  }

  lemma DecidedOnce(s: State, e: Evidence, f: Evidence)
    requires StoredOk(s) && Decided(s, e) && Decided(s, f) && e.request == f.request
    ensures e == f
  {
  }

  lemma DecidedAnswer(s: State, a: Action, e: Evidence)
    requires Inv(s) && Decided(s, e)
    ensures OnlyAnswer(s, Next(s, a), e)
  {
    var t := Next(s, a);
    StepSourced(s, a);
    hide Next, Decided;
    forall i | |s.answered| <= i < |t.answered| && t.answered[i].request == e.request ensures t.answered[i] == e {
      DecidedPlaces(s, a.tid, e);
      DecidedOnce(s, e, t.answered[i]);
    }
  }

  // ---------- Main results ----------

  /** Once a request is decided, every receipt that any leader or retry hands out for it from then on is the one that
      decided it, over any interleaving, failing writes, crashes and restarts. */
  lemma {:induction false} DecidedIsFinal(s: State, actions: seq<Action>, e: Evidence)
    requires Inv(s) && Decided(s, e)
    ensures Decided(Run(s, actions), e) && OnlyAnswer(s, Run(s, actions), e)
    decreases |actions|
  {
    hide Inv, Next, Decided;
    if actions != [] {
      var t := Next(s, actions[0]);
      NextKeeps(s, actions[0]);
      DecidedStays(s, actions[0], e);
      DecidedAnswer(s, actions[0], e);
      DecidedIsFinal(t, actions[1..], e);
      OnlyAnswerJoins(s, t, Run(t, actions[1..]), e);
    }
  }

  /** A denied request is never started after its denial is stored. */
  lemma {:induction false} DenialIsFinal(s: State, actions: seq<Action>, e: Evidence)
    requires Inv(s) && e in s.stored && e.verdict.Denied?
    ensures var t := Run(s, actions); e.request !in t.started && OnlyAnswer(s, t, e)
  {
    hide Next;
    RunKeeps(s, actions);
    DecidedIsFinal(s, actions, e);
  }

  // ---------- Calls ----------

  /** Calls that have their answer, or the leader they will have it from. */
  predicate Settled(s: State, tid: nat) { tid in s.threads && (s.threads[tid].pc.Waiting? || s.threads[tid].pc.Returned?) }

  function SettledCalls(s: State): set<nat> { set tid | tid in s.threads && Settled(s, tid) }

  /** Every call but the `past` ones waits for another such call or has returned the decided receipt, if any. */
  ghost predicate CallsOk(s: State, past: set<nat>, e: Evidence) {
    && (forall tid :: tid in past ==> Settled(s, tid))
    && forall tid :: tid in s.threads && tid !in past && s.threads[tid].request == e.request ==> CallOk(s.threads[tid].pc, past, e)
  }

  predicate CallOk(pc: Pc, past: set<nat>, e: Evidence) {
    && (pc.Waiting? ==> pc.leader !in past)
    && (pc.Returned? && pc.answer.Got? ==> pc.answer.receipt == e)
  }

  lemma LeadersMove(s: State, a: Action, past: set<nat>, e: Evidence)
    requires Inv(s) && CallsOk(s, past, e) && !a.Crash? && !a.Acquire? && !a.Wake? && !a.Release?
    ensures CallsOk(Next(s, a), past, e)
  {
    hide Inv, AcquireFlight, LookUpRetry, AdmitCall, ReserveCall, CancelCall, RecordCall, RecoverCall, PersistCall, ReconcileKey;
  }

  /** A leader in flight is not settled, and a waiter's leader has returned what the waiter is about to return. */
  lemma CallMoves(s: State, a: Action, past: set<nat>, e: Evidence)
    requires Inv(s) && Decided(s, e) && CallsOk(s, past, e) && (a.Acquire? || a.Wake? || a.Release?)
    ensures CallsOk(Next(s, a), past, e)
  {
    var tid := a.tid;
    if Enabled(s, tid) {
      MovesAlone(s, a, tid);
      if tid !in past && s.threads[tid].request == e.request { MoveOk(s, a, tid, past, e); }
      hide *;
      CallsUpdate(s, Next(s, a), tid, past, e);
    }
  }

  lemma CallsUpdate(s: State, t: State, tid: nat, past: set<nat>, e: Evidence)
    requires CallsOk(s, past, e) && tid in s.threads && tid in t.threads
    requires t.threads == s.threads[tid := Thread(s.threads[tid].request, t.threads[tid].pc)]
    requires Settled(s, tid) ==> Settled(t, tid)
    requires tid !in past && s.threads[tid].request == e.request ==> CallOk(t.threads[tid].pc, past, e)
    ensures CallsOk(t, past, e)
  {
    hide CallOk;
  }

  lemma MovesAlone(s: State, a: Action, tid: nat)
    requires Enabled(s, tid) && (a.Acquire? || a.Wake? || a.Release?) && a.tid == tid
    ensures var t := Next(s, a);
            && tid in t.threads && t.threads == s.threads[tid := Thread(s.threads[tid].request, t.threads[tid].pc)]
            && (Settled(s, tid) ==> Settled(t, tid))
  {
  }

  lemma MoveOk(s: State, a: Action, tid: nat, past: set<nat>, e: Evidence)
    requires Inv(s) && Decided(s, e) && CallsOk(s, past, e) && (a.Acquire? || a.Wake? || a.Release?) && a.tid == tid
    requires Enabled(s, tid) && tid !in past && s.threads[tid].request == e.request
    ensures var t := Next(s, a); tid in t.threads && CallOk(t.threads[tid].pc, past, e)
  {
    hide Inv, Decided;
    match a {
      case Acquire(_) => if s.threads[tid].pc.Begin? { AcquireOk(s, tid, past); }
      case Wake(_, _) => if s.threads[tid].pc.Waiting? { WakeOk(s, tid, past, e); }
      case Release(_) => if s.threads[tid].pc.Releasing? { DecidedPlaces(s, tid, e); }
    }
  }

  lemma WakeOk(s: State, tid: nat, past: set<nat>, e: Evidence)
    requires Inv(s) && CallsOk(s, past, e) && tid in s.threads && tid !in past && s.threads[tid].request == e.request && s.threads[tid].pc.Waiting?
    ensures var leader := s.threads[tid].pc.leader;
            leader in s.results && s.results[leader].Got? ==> s.results[leader].receipt == e
  {
    assert ThreadOk(s, tid);
    hide JournalOk, StoredOk, StartedOk, FlightsOk, ThreadOk;
  }

  lemma AcquireOk(s: State, tid: nat, past: set<nat>)
    requires Inv(s) && Enabled(s, tid) && s.threads[tid].pc.Begin? && forall other :: other in past ==> Settled(s, other)
    ensures var pc := AcquireFlight(s, tid).threads[tid].pc; pc.LookUp? || pc == Returned(Failed) || (pc.Waiting? && pc.leader !in past)
  {
    hide JournalOk, StoredOk, StartedOk, HistoryOk, ThreadOk;
  }

  ghost predicate ReturnsOnly(t: State, past: set<nat>, e: Evidence) {
    forall tid :: tid in t.threads && tid !in past && t.threads[tid].request == e.request ==>
      var pc := t.threads[tid].pc; pc.Returned? && pc.answer.Got? ==> pc.answer.receipt == e
  }

  lemma {:induction false} CallsReturn(s: State, actions: seq<Action>, past: set<nat>, e: Evidence)
    requires Inv(s) && Decided(s, e) && CallsOk(s, past, e)
    ensures ReturnsOnly(Run(s, actions), past, e)
    decreases |actions|
  {
    if actions != [] {
      var a := actions[0];
      var t := Next(s, a);
      NextKeeps(s, a);
      DecidedStays(s, a, e);
      if a.Crash? {
        assert t.threads == map[];
        hide Inv, Next, Decided;
        CallsReturn(t, actions[1..], {}, e);
      } else {
        hide Inv, Next, Decided;
        if a.Acquire? || a.Wake? || a.Release? { CallMoves(s, a, past, e); } else { LeadersMove(s, a, past, e); }
        hide CallsOk;
        CallsReturn(t, actions[1..], past, e);
      }
    }
  }

  /** Every call that is neither waiting nor answered when its request is decided, and every later one, fails or
      returns the receipt that decided it, whether it leads or waits. */
  lemma {:induction false} LaterCallsReturnTheDecided(s: State, actions: seq<Action>, e: Evidence)
    requires Inv(s) && Decided(s, e)
    ensures ReturnsOnly(Run(s, actions), SettledCalls(s), e)
  {
    var past := SettledCalls(s);
    assert CallsOk(s, past, e) by {
      forall tid | tid in s.threads && tid !in past ensures CallOk(s.threads[tid].pc, past, e) {}
    }
    CallsReturn(s, actions, past, e);
  }

  // ---------- Lost intents ----------

  /** An effect receipt that its leader handed out although its intent did not become durable. */
  predicate Lost(s: State, e: Evidence) { e in s.answered && e.verdict.Effect? && !Holds(s, e) }

  lemma LostStays(s: State, a: Action, e: Evidence)
    requires Inv(s) && Lost(s, e)
    ensures Lost(Next(s, a), e)
  {
    assert Answerable(s, e);
    StepSourced(s, a);
    if Held(s.journal[e.request.key]).Some? {
      hide Inv, Next;
      HeldStays(s, a, e.request.key);
    } else {
      PendingLost(s, a, e);
    }
  }

  lemma PendingLost(s: State, a: Action, e: Evidence)
    requires Inv(s) && Lost(s, e) && e.request.key in s.journal && s.journal[e.request.key].phase.Pending?
    ensures !Holds(Next(s, a), e)
  {
    if a.Record? && a.tid in s.threads && s.threads[a.tid].request == e.request { LostPlaces(s, a.tid, e); }
    hide Inv, AcquireFlight, LookUpRetry, AdmitCall, RecoverCall, PersistCall, ReconcileKey;
  }

  ghost predicate OnlyInterruptions(s: State, t: State, r: Request) {
    && s.answered <= t.answered
    && forall i :: |s.answered| <= i < |t.answered| && t.answered[i].request == r ==> t.answered[i].verdict.Interrupted?
  }

  lemma LostPlaces(s: State, tid: nat, e: Evidence)
    requires Inv(s) && Lost(s, e) && tid in s.threads && s.threads[tid].request == e.request
    ensures !s.threads[tid].pc.Admitting? && !s.threads[tid].pc.Recording? && !s.threads[tid].pc.Cancelling?
  {
    assert ThreadOk(s, tid) && Answerable(s, e);
    hide JournalOk, StoredOk, StartedOk, FlightsOk, HistoryOk;
  }

  lemma LostDecided(s: State, e: Evidence, f: Evidence)
    requires Inv(s) && Lost(s, e) && Decided(s, f) && f.request == e.request
    ensures f.verdict.Interrupted?
  {
    assert Answerable(s, e);
    hide JournalOk, StartedOk, FlightsOk, HistoryOk, ThreadOk;
  }

  lemma LostAnswer(s: State, a: Action, e: Evidence)
    requires Inv(s) && Lost(s, e)
    ensures OnlyInterruptions(s, Next(s, a), e.request)
  {
    var t := Next(s, a);
    StepSourced(s, a);
    hide Next, Decided, Lost;
    forall i | |s.answered| <= i < |t.answered| && t.answered[i].request == e.request ensures t.answered[i].verdict.Interrupted? {
      LostPlaces(s, a.tid, e);
      LostDecided(s, e, t.answered[i]);
    }
  }

  lemma {:induction false} LostIsInterrupted(s: State, actions: seq<Action>, e: Evidence)
    requires Inv(s) && Lost(s, e)
    ensures OnlyInterruptions(s, Run(s, actions), e.request)
    decreases |actions|
  {
    hide Inv, Next, Lost;
    if actions != [] {
      var t := Next(s, actions[0]);
      var u := Run(t, actions[1..]);
      NextKeeps(s, actions[0]);
      LostStays(s, actions[0], e);
      LostAnswer(s, actions[0], e);
      LostIsInterrupted(t, actions[1..], e);
      forall i | |s.answered| <= i < |u.answered| && u.answered[i].request == e.request ensures u.answered[i].verdict.Interrupted? {
        if i < |t.answered| { assert u.answered[i] == t.answered[i]; }
      }
    }
  }

  /** After a leader has answered with its own receipt, an answer to that request is the same receipt exactly if the
      leader's intent had become durable, and otherwise an interrupted one. */
  lemma {:induction false} LeaderReceiptIsReplayedExactlyIfDurable(s: State, actions: seq<Action>, e: Evidence, i: nat)
    requires Inv(s) && e in s.answered && e.verdict.Effect?
    requires |s.answered| <= i < |Run(s, actions).answered| && Run(s, actions).answered[i].request == e.request
    ensures Run(s, actions).answered[i] == e <==> Holds(s, e)
    ensures !Holds(s, e) ==> Run(s, actions).answered[i].verdict.Interrupted?
  {
    hide Inv, Next, Holds;
    if Holds(s, e) { DecidedIsFinal(s, actions, e); } else { LostIsInterrupted(s, actions, e); }
  }

  // ---------- Retries that answer ----------

  lemma {:induction false} RunJoins(s: State, a: seq<Action>, b: seq<Action>)
    ensures Run(s, a + b) == Run(Run(s, a), b)
    decreases |a|
  {
    hide Next;
    if a == [] {
      assert a + b == b;
    } else {
      assert (a + b)[1..] == a[1..] + b;
      RunJoins(Next(s, a[0]), a[1..], b);
    }
  }

  lemma {:induction false} RunOfTwo(s: State, a: Action, b: Action)
    ensures Run(s, [a, b]) == Next(Next(s, a), b)
  {
    hide Next;
    assert [a, b][1..] == [b] && [b][1..] == [];
    assert Run(Next(s, a), [b]) == Run(Next(Next(s, a), b), []);
  }

  lemma {:induction false} RunOfFour(s: State, a: Action, b: Action, c: Action, d: Action)
    ensures Run(s, [a, b, c, d]) == Next(Next(Next(Next(s, a), b), c), d)
  {
    hide Next;
    assert [a, b, c, d] == [a, b] + [c, d];
    RunJoins(s, [a, b], [c, d]);
    RunOfTwo(s, a, b);
    RunOfTwo(Next(Next(s, a), b), c, d);
  }

  /** What a retry does up to its lookup, and what is left to do after it when no write fails. */
  function Looking(tid: nat, r: Request): seq<Action> { [Call(tid, r), Acquire(tid), Look(tid, true)] }

  function Completing(tid: nat): seq<Action> {
    [Recover(tid, Completes), Persist(tid, Completes), Persist(tid, Completes), Persist(tid, Completes)]
  }

  /** A call that finds its flight free. */
  predicate Unhindered(s: State, tid: nat, r: Request) {
    s.up && tid !in s.threads && tid !in s.results && Flight(r) !in s.flights
  }

  function LookingUp(s: State, tid: nat, r: Request): State {
    s.(threads := s.threads[tid := Thread(r, LookUp)], flights := s.flights[Flight(r) := tid])
  }

  lemma {:induction false} LookingRuns(s: State, tid: nat, r: Request)
    requires Unhindered(s, tid, r)
    ensures Run(s, Looking(tid, r)) == LookUpRetry(LookingUp(s, tid, r), tid)
  {
    hide LookUpRetry;
    var s1 := Next(s, Call(tid, r));
    var s2 := Next(s1, Acquire(tid));
    assert s2 == LookingUp(s, tid, r);
    assert [Call(tid, r), Acquire(tid), Look(tid, true)] == [Call(tid, r), Acquire(tid)] + [Look(tid, true)];
    RunJoins(s, [Call(tid, r), Acquire(tid)], [Look(tid, true)]);
    RunOfTwo(s, Call(tid, r), Acquire(tid));
    assert Run(s2, [Look(tid, true)]) == Run(Next(s2, Look(tid, true)), []);
  }

  /** Nothing is left to do for a call that has its answer. */
  lemma {:induction false} NothingLeft(s: State, tid: nat)
    requires tid in s.threads && s.threads[tid].pc.Releasing?
    ensures Run(s, Completing(tid)) == s
  {
    RunOfFour(s, Recover(tid, Completes), Persist(tid, Completes), Persist(tid, Completes), Persist(tid, Completes));
  }

  /** The call has its answer, and the finalized record holds it. */
  ghost predicate AnsweredWith(s: State, t: State, tid: nat, e: Evidence) {
    && tid in t.threads && t.threads[tid] == Thread(e.request, Releasing(Got(e))) && t.answered == s.answered + [e]
    && e.request.key in t.journal && t.journal[e.request.key] == Reservation(e.request, Finalized(e))
  }

  /** The call is about to make this write for the receipt that its finalizing record holds. */
  predicate Resuming(s: State, tid: nat, e: Evidence, stage: nat) {
    && Enabled(s, tid) && s.threads[tid] == Thread(e.request, Persisting(e, stage, Retry))
    && e.request.key in s.journal && s.journal[e.request.key] == Reservation(e.request, Finalizing(e))
  }

  lemma PersistOnce(s: State, tid: nat, e: Evidence, stage: nat)
    requires Resuming(s, tid, e, stage) && stage <= 2
    ensures var t := Next(s, Persist(tid, Completes));
            if stage < 2 then Resuming(t, tid, e, stage + 1) && t.answered == s.answered else AnsweredWith(s, t, tid, e)
  {
  }

  lemma {:induction false} PersistingCompletes(s: State, tid: nat, e: Evidence)
    requires Resuming(s, tid, e, 0)
    ensures AnsweredWith(s, Run(s, Completing(tid)), tid, e)
  {
    RunOfFour(s, Recover(tid, Completes), Persist(tid, Completes), Persist(tid, Completes), Persist(tid, Completes));
    assert Next(s, Recover(tid, Completes)) == s;
    hide Next, Run;
    PersistAll(s, tid, e);
  }

  lemma PersistAll(s: State, tid: nat, e: Evidence)
    requires Resuming(s, tid, e, 0)
    ensures var a := Persist(tid, Completes); AnsweredWith(s, Next(Next(Next(s, a), a), a), tid, e)
  {
    hide Next;
    var a := Persist(tid, Completes);
    PersistOnce(s, tid, e, 0);
    PersistOnce(Next(s, a), tid, e, 1);
    PersistOnce(Next(Next(s, a), a), tid, e, 2);
  }

  lemma {:induction false} RecoveringCompletes(s: State, tid: nat, r: Request)
    requires Enabled(s, tid) && s.threads[tid] == Thread(r, Pc.Recovering) && r.key in s.journal && s.journal[r.key] == Reservation(r, Pending)
    ensures AnsweredWith(s, Run(s, Completing(tid)), tid, Evidence(s.nextId, 0, r, Interrupted))
  {
    RunOfFour(s, Recover(tid, Completes), Persist(tid, Completes), Persist(tid, Completes), Persist(tid, Completes));
    var e := Evidence(s.nextId, 0, r, Interrupted);
    var t := Next(s, Recover(tid, Completes));
    assert Resuming(t, tid, e, 0) && t.answered == s.answered;
    hide Next, Run;
    PersistAll(t, tid, e);
  }

  /** What a retry is answered: the receipt that its reservation holds, or an interrupted one that it comes to hold. */
  function RetryAnswer(s: State, r: Request): Evidence
    requires r.key in s.journal
  {
    if Held(s.journal[r.key]).Some? then Held(s.journal[r.key]).value else Evidence(s.nextId, 0, r, Interrupted)
  }

  /** A retry that finds its flight free, and whose writes complete, is answered for every phase of its record. */
  lemma {:induction false} RetryIsAnswered(s: State, tid: nat, r: Request)
    requires Inv(s) && Unhindered(s, tid, r) && r.key in s.journal && s.journal[r.key].request == r
    ensures AnsweredWith(s, Run(s, Looking(tid, r) + Completing(tid)), tid, RetryAnswer(s, r))
  {
    RunJoins(s, Looking(tid, r), Completing(tid));
    LookingRuns(s, tid, r);
    var t := LookUpRetry(LookingUp(s, tid, r), tid);
    assert Held(s.journal[r.key]).Some? ==> s.journal[r.key].phase.receipt.request == r;
    hide Inv, Run, Next;
    match s.journal[r.key].phase {
      case Pending => RecoveringCompletes(t, tid, r);
      case Finalizing(e) => PersistingCompletes(t, tid, e);
      case Finalized(e) => NothingLeft(t, tid);
    }
  }

  /** A retry of a finalized mutation needs no write at all. */
  lemma {:induction false} FinalizedIsReplayed(s: State, tid: nat, e: Evidence)
    requires Inv(s) && Unhindered(s, tid, e.request) && e.request.key in s.journal
    requires s.journal[e.request.key] == Reservation(e.request, Finalized(e))
    ensures AnsweredWith(s, Run(s, Looking(tid, e.request)), tid, e)
  {
    LookingRuns(s, tid, e.request);
  }

  /** A stored denial is handed out again exactly if its key is not reserved and the listing comes to it first. */
  lemma {:induction false} DenialIsReplayed(s: State, tid: nat, e: Evidence)
    requires Inv(s) && Unhindered(s, tid, e.request) && e in s.stored && e.verdict.Denied?
    ensures var t := Run(s, Looking(tid, e.request));
            var found := e.request.key !in s.journal && FirstListed(s.stored, e.request.key) == e;
            && tid in t.threads && t.threads[tid] == Thread(e.request, Releasing(if found then Got(e) else Failed))
            && t.answered == if found then s.answered + [e] else s.answered
  {
    LookingRuns(s, tid, e.request);
    assert Listed(s.stored, e.request.key);
    hide JournalOk, StartedOk, FlightsOk, HistoryOk, ThreadOk, Run;
  }

  /** What the listing comes to first depends on the other receipts under the key: a denial that precedes them all is
      found, and one that another precedes is not. */
  lemma FirstByPlace(stored: set<Evidence>, e: Evidence)
    requires e in stored
    ensures (forall f :: f in stored && f.request.key == e.request.key && f != e ==> e.place < f.place) ==>
              FirstListed(stored, e.request.key) == e
    ensures (exists f :: f in stored && f.request.key == e.request.key && f.place < e.place) ==>
              FirstListed(stored, e.request.key) != e
  {
    assert Listed(stored, e.request.key);
    assert IsFirst(FirstListed(stored, e.request.key), stored, e.request.key);
  }

  // ---------- A lost intent ----------

  const ASKED := Request("alice", "vm", "key", "write")
  const LOST := Evidence(0, 0, ASKED, Effect)
  const FOUND := Evidence(1, 0, ASKED, Interrupted)

  const ADMITTED := [Serve, Call(0, ASKED), Acquire(0), Look(0, true)]
  const RESERVED := [Admit(0, Proceed), Reserve(0, Completes), Prepare(0, true), Start(0, false)]
  const INTENT_FAILS := [Finish(0), Record(0, FailsBefore), Release(0), Call(1, ASKED)]
  const RETRIES := [Acquire(1), Look(1, true)]
  const RECOVERS := [Recover(1, Completes), Persist(1, Completes)]
  const ANSWERS := [Persist(1, Completes), Persist(1, Completes)]

  const IDLE := INITIAL.(up := true)
  const FLYING := IDLE.(threads := map[0 := Thread(ASKED, Admitting)], flights := map[Flight(ASKED) := 0])
  const STARTED := FLYING.(threads := map[0 := Thread(ASKED, Running)], journal := map["key" := Reservation(ASKED, Pending)], started := [ASKED])
  const ANSWERING := STARTED.(threads := map[0 := Thread(ASKED, Releasing(Got(LOST)))], answered := [LOST], nextId := 1)
  const FAILED := STARTED.(threads := map[0 := Thread(ASKED, Returned(Got(LOST))), 1 := Thread(ASKED, Begin)], flights := map[],
                           results := map[0 := Got(LOST)], answered := [LOST], nextId := 1)
  const RETRYING := FAILED.(threads := FAILED.threads[1 := Thread(ASKED, Pc.Recovering)], flights := map[Flight(ASKED) := 1])
  const RECOVERED := RETRYING.(threads := FAILED.threads[1 := Thread(ASKED, Persisting(FOUND, 0, Retry))],
                               journal := map["key" := Reservation(ASKED, Finalizing(FOUND))], nextId := 2)
  const STORED := RECOVERED.(threads := FAILED.threads[1 := Thread(ASKED, Persisting(FOUND, 1, Retry))], stored := {FOUND})
  const AUDITED := STORED.(threads := FAILED.threads[1 := Thread(ASKED, Persisting(FOUND, 2, Retry))], audited := {FOUND})

  lemma Admitted()
    ensures Run(INITIAL, ADMITTED) == FLYING
  {
    RunOfFour(INITIAL, Serve, Call(0, ASKED), Acquire(0), Look(0, true));
  }

  lemma ReservesAndStarts()
    ensures Run(FLYING, RESERVED) == STARTED
  {
    RunOfFour(FLYING, Admit(0, Proceed), Reserve(0, Completes), Prepare(0, true), Start(0, false));
  }

  lemma LosesIntent()
    ensures Next(Next(STARTED, Finish(0)), Record(0, FailsBefore)) == ANSWERING
  {
  }

  lemma ReleasesFlight()
    ensures Next(Next(ANSWERING, Release(0)), Call(1, ASKED)) == FAILED
  {
  }

  lemma IntentFails()
    ensures Run(STARTED, INTENT_FAILS) == FAILED
  {
    hide Next;
    RunOfFour(STARTED, Finish(0), Record(0, FailsBefore), Release(0), Call(1, ASKED));
    LosesIntent();
    ReleasesFlight();
  }

  lemma Retries()
    ensures Run(FAILED, RETRIES) == RETRYING
  {
    RunOfTwo(FAILED, Acquire(1), Look(1, true));
  }

  lemma RecordsInterruption()
    ensures Next(RETRYING, Recover(1, Completes)) == RECOVERED
  {
  }

  lemma StoresReceipt()
    ensures Next(RECOVERED, Persist(1, Completes)) == STORED
  {
    assert PersistWrite(RECOVERED, 1) == RECOVERED.(stored := {FOUND});
  }

  lemma Recovers()
    ensures Run(RETRYING, RECOVERS) == STORED
  {
    hide Next;
    RunOfTwo(RETRYING, Recover(1, Completes), Persist(1, Completes));
    RecordsInterruption();
    StoresReceipt();
  }

  lemma AuditsReceipt()
    ensures Next(STORED, Persist(1, Completes)) == AUDITED
  {
    assert PersistWrite(STORED, 1) == STORED.(audited := {FOUND});
  }

  lemma AnswersReceipt()
    ensures Next(AUDITED, Persist(1, Completes)).answered == [LOST, FOUND]
  {
  }

  lemma Answers()
    ensures Run(STORED, ANSWERS).answered == [LOST, FOUND]
  {
    hide Next;
    RunOfTwo(STORED, Persist(1, Completes), Persist(1, Completes));
    AuditsReceipt();
    AnswersReceipt();
  }

  /** A leader whose intent write fails hands out its receipt all the same, and the retry then hands out another
      one: the condition on the intent above cannot be dropped. */
  lemma LostIntentIsNotReplayed()
    ensures exists actions :: Run(INITIAL, actions).answered == [LOST, FOUND]
  {
    hide Next;
    Admitted(); ReservesAndStarts(); IntentFails(); Retries(); Recovers(); Answers();
    RunJoins(RETRYING, RECOVERS, ANSWERS);
    RunJoins(FAILED, RETRIES, RECOVERS + ANSWERS);
    RunJoins(STARTED, INTENT_FAILS, RETRIES + (RECOVERS + ANSWERS));
    RunJoins(FLYING, RESERVED, INTENT_FAILS + (RETRIES + (RECOVERS + ANSWERS)));
    RunJoins(INITIAL, ADMITTED, RESERVED + (INTENT_FAILS + (RETRIES + (RECOVERS + ANSWERS))));
    assert Run(RETRYING, RECOVERS + ANSWERS).answered == [LOST, FOUND];
    assert Run(INITIAL, ADMITTED + (RESERVED + (INTENT_FAILS + (RETRIES + (RECOVERS + ANSWERS))))) == Run(RETRYING, RECOVERS + ANSWERS);
  }

  // ---------- Two denials under one key ----------

  const OTHER := Request("bob", "vm", "key", "write")
  const FIRST := Evidence(0, 0, ASKED, Denied)
  const SECOND := Evidence(1, 1, OTHER, Denied)

  const ADMITTING := FLYING.(threads := map[0 := Thread(ASKED, Admitting), 1 := Thread(OTHER, Admitting)],
                             flights := map[Flight(ASKED) := 0, Flight(OTHER) := 1])
  const DENIED := ADMITTING.(threads := map[0 := Thread(ASKED, Releasing(Got(FIRST))), 1 := Thread(OTHER, Releasing(Got(SECOND)))],
                             stored := {FIRST, SECOND}, audited := {FIRST, SECOND}, answered := [FIRST, SECOND], nextId := 2)
  const DONE := DENIED.(threads := map[0 := Thread(ASKED, Returned(Got(FIRST))), 1 := Thread(OTHER, Returned(Got(SECOND)))],
                        flights := map[], results := map[0 := Got(FIRST), 1 := Got(SECOND)])
  const DENIES := [Admit(0, Deny(true, true, 0)), Admit(1, Deny(true, true, 1)), Release(0), Release(1)]

  lemma FlightsApart()
    ensures Flight(ASKED) != Flight(OTHER)
  {
    assert Flight(ASKED)[0] == 'a' && Flight(OTHER)[0] == 'b';
  }

  lemma BothAdmitting()
    ensures Run(FLYING, Looking(1, OTHER)) == ADMITTING
  {
    FlightsApart();
    LookingRuns(FLYING, 1, OTHER);
    assert !Listed(FLYING.stored, "key");
    hide Run;
  }

  lemma BothDenied()
    ensures Next(Next(ADMITTING, Admit(0, Deny(true, true, 0))), Admit(1, Deny(true, true, 1))) == DENIED
  {
    hide LookUpRetry;
  }

  const HALF_DONE := DENIED.(threads := map[0 := Thread(ASKED, Returned(Got(FIRST))), 1 := Thread(OTHER, Releasing(Got(SECOND)))],
                             flights := map[Flight(OTHER) := 1], results := map[0 := Got(FIRST)])

  lemma FirstReleased()
    ensures Next(DENIED, Release(0)) == HALF_DONE
  {
    FlightsApart();
    hide Flight;
  }

  lemma SecondReleased()
    ensures Next(HALF_DONE, Release(1)) == DONE
  {
  }

  lemma BothReleased()
    ensures Next(Next(DENIED, Release(0)), Release(1)) == DONE
  {
    hide Next;
    FirstReleased();
    SecondReleased();
  }

  lemma BothDone()
    ensures Run(INITIAL, ADMITTED + (Looking(1, OTHER) + DENIES)) == DONE
  {
    hide Next, Looking;
    Admitted(); BothAdmitting(); BothDenied(); BothReleased();
    RunOfFour(ADMITTING, Admit(0, Deny(true, true, 0)), Admit(1, Deny(true, true, 1)), Release(0), Release(1));
    RunJoins(FLYING, Looking(1, OTHER), DENIES);
    RunJoins(INITIAL, ADMITTED, Looking(1, OTHER) + DENIES);
  }

  lemma FirstFound()
    ensures FirstListed({FIRST, SECOND}, "key") == FIRST
  {
    FirstByPlace({FIRST, SECOND}, FIRST);
  }

  lemma RetriesOfBoth()
    requires Inv(DONE)
    ensures Run(DONE, Looking(2, ASKED)).answered == DONE.answered + [FIRST]
    ensures Run(DONE, Looking(2, OTHER)).answered == DONE.answered
  {
    hide Run, Inv, Looking, Next;
    FirstFound();
    DenialIsReplayed(DONE, 2, FIRST);
    DenialIsReplayed(DONE, 2, SECOND);
  }

  /** Two callers, each in its own flight, can both be denied under one key; of their retries only the one whose denial
      is listed first is answered with it. */
  lemma TwoDenialsUnderOneKey()
    ensures exists actions :: Run(INITIAL, actions) == DONE
    ensures Run(DONE, Looking(2, ASKED)).answered == DONE.answered + [FIRST]
    ensures Run(DONE, Looking(2, OTHER)).answered == DONE.answered
  {
    BothDone();
    DoneIsSound();
    hide *;
    RetriesOfBoth();
  }

  lemma DoneIsSound()
    ensures Inv(DONE)
  {
    BothDone();
    RunKeeps(INITIAL, ADMITTED + (Looking(1, OTHER) + DENIES));
    hide Run, Looking, Next;
  }
}
