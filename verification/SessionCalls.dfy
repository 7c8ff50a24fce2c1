/** What a session call does, from the outside: when it waits and for whose answer, what an unhindered call leaves
    behind, and that startup settles any record. */
module SessionCalls {
  import opened Canonical
  import opened Receipts
  import opened SessionFlights
  import opened SessionReplays

  // ---------- Waiting for another's answer ----------

  predicate Unused(s: State, tid: nat) { tid !in s.threads && tid !in s.results }

  /** While its flight is led by another call, a call waits for that one exactly if it asks for the same, and has
      failed at once otherwise. */
  lemma {:induction false} ConcurrentCallWaits(s: State, tid: nat, r: Request)
    requires Inv(s) && s.up && Unused(s, tid) && Flight(r) in s.flights
    ensures var leader := s.flights[Flight(r)];
            && leader in s.threads
            && Run(s, [Call(tid, r), Acquire(tid)]) ==
               s.(threads := s.threads[tid := Thread(r, if s.threads[leader].request == r then Waiting(leader) else Returned(Failed))])
  {
    hide ThreadOk, JournalOk, StoredOk, StartedOk, HistoryOk;
    RunOfTwo(s, Call(tid, r), Acquire(tid));
    var leader := s.flights[Flight(r)];
    assert leader in s.threads && leader != tid;
    var s1 := Next(s, Call(tid, r));
    assert s1.threads[leader] == s.threads[leader];
  }

  /** No crash, and this caller's deadline does not expire. */
  predicate Calm(a: Action, tid: nat) { !a.Crash? && a != Wake(tid, true) }

  ghost predicate AllCalm(actions: seq<Action>, tid: nat) { forall i :: 0 <= i < |actions| ==> Calm(actions[i], tid) }

  /** The call waits for its leader, or has the answer that its leader returned. */
  predicate Follows(s: State, tid: nat, r: Request, leader: nat) {
    && s.up && tid in s.threads && s.threads[tid].request == r && tid != leader
    && (s.threads[tid].pc == Waiting(leader) || (leader in s.results && s.threads[tid].pc == Returned(s.results[leader])))
  }

  lemma UpStays(s: State, a: Action)
    requires s.up && !a.Crash?
    ensures Next(s, a).up
  {
    hide LookUpRetry, AdmitCall, ReserveCall, CancelCall, RecordCall, RecoverCall, PersistCall, ReconcileKey;
  }

  lemma OthersLeaveWaiters(s: State, a: Action, tid: nat)
    requires tid in s.threads && (s.threads[tid].pc.Waiting? || s.threads[tid].pc.Returned?) && !a.Crash? && !(a.Wake? && a.tid == tid)
    ensures var t := Next(s, a); tid in t.threads && t.threads[tid] == s.threads[tid]
  {
    hide LookUpRetry, AdmitCall, ReserveCall, CancelCall, RecordCall, RecoverCall, PersistCall, ReconcileKey;
  }

  lemma ResultsMove(s: State, a: Action)
    requires !a.Crash? && !a.Release?
    ensures Next(s, a).results == s.results
  {
    hide LookUpRetry, AdmitCall, ReserveCall, CancelCall, RecordCall, RecoverCall, PersistCall;
  }

  lemma ResultsStay(s: State, a: Action, tid: nat)
    requires Inv(s) && tid in s.results && !a.Crash?
    ensures var t := Next(s, a); tid in t.results && t.results[tid] == s.results[tid]
  {
    assert tid in s.threads && s.threads[tid].pc.Returned? by { hide JournalOk, StoredOk, StartedOk, FlightsOk, ThreadOk, Answerable; }
    hide Inv;
    if a.Release? { hide AcquireFlight, LookUpRetry, AdmitCall; } else { ResultsMove(s, a); hide *; }
  }

  lemma FollowsOn(s: State, a: Action, tid: nat, r: Request, leader: nat)
    requires Inv(s) && Follows(s, tid, r, leader) && Calm(a, tid)
    ensures Follows(Next(s, a), tid, r, leader)
  {
    UpStays(s, a);
    if leader in s.results { ResultsStay(s, a, leader); }
    if a.Wake? && a.tid == tid {
      hide Inv;
    } else {
      OthersLeaveWaiters(s, a, tid);
      hide Inv, Next;
    }
  }

  lemma {:induction false} FollowsThrough(s: State, actions: seq<Action>, tid: nat, r: Request, leader: nat)
    requires Inv(s) && Follows(s, tid, r, leader) && AllCalm(actions, tid)
    ensures Inv(Run(s, actions)) && Follows(Run(s, actions), tid, r, leader)
    ensures leader in s.results ==> leader in Run(s, actions).results && Run(s, actions).results[leader] == s.results[leader]
    decreases |actions|
  {
    hide Inv, Next, Follows;
    if actions != [] {
      assert Calm(actions[0], tid);
      assert !actions[0].Crash?;
      NextKeeps(s, actions[0]);
      FollowsOn(s, actions[0], tid, r, leader);
      if leader in s.results { ResultsStay(s, actions[0], leader); }
      assert forall i :: 0 <= i < |actions[1..]| ==> actions[1..][i] == actions[i + 1];
      FollowsThrough(Next(s, actions[0]), actions[1..], tid, r, leader);
    }
  }

  lemma ReleaseAnswers(s: State, leader: nat, a: Answer)
    requires Enabled(s, leader) && s.threads[leader].pc == Releasing(a)
    ensures var t := Next(s, Release(leader)); leader in t.results && t.results[leader] == a
  {
  }

  /** The main result on waiting: a call for what is already in flight returns what that flight's leader is released
      with, however the steps of everybody else, its own deadline apart, fall before and after the release. */
  lemma {:induction false} ConcurrentCallReturnsLeaderAnswer(
      s: State, tid: nat, r: Request, leader: nat, before: seq<Action>, a: Answer, after: seq<Action>)
    requires Inv(s) && s.up && Unused(s, tid)
    requires Flight(r) in s.flights && s.flights[Flight(r)] == leader && leader in s.threads && s.threads[leader].request == r
    requires AllCalm(before, tid) && AllCalm(after, tid)
    requires var t := Run(Run(s, [Call(tid, r), Acquire(tid)]), before); leader in t.threads && t.threads[leader].pc == Releasing(a)
    ensures var t := Run(Run(s, [Call(tid, r), Acquire(tid)]), before);
            var u := Run(Next(t, Release(leader)), after);
            var v := Next(u, Wake(tid, false));
            tid in v.threads && v.threads[tid] == Thread(r, Returned(a))
  {
    hide Inv, Next, Run;
    ConcurrentCallWaits(s, tid, r);
    RunKeeps(s, [Call(tid, r), Acquire(tid)]);
    var s2 := Run(s, [Call(tid, r), Acquire(tid)]);
    FollowsThrough(s2, before, tid, r, leader);
    var t := Run(s2, before);
    assert Calm(Release(leader), tid);
    NextKeeps(t, Release(leader));
    FollowsOn(t, Release(leader), tid, r, leader);
    ReleaseAnswers(t, leader, a);
    FollowsThrough(Next(t, Release(leader)), after, tid, r, leader);
    WakeReturns(Run(Next(t, Release(leader)), after), tid, r, leader);
  }

  lemma WakeReturns(s: State, tid: nat, r: Request, leader: nat)
    requires Follows(s, tid, r, leader) && leader in s.results
    ensures var t := Next(s, Wake(tid, false)); tid in t.threads && t.threads[tid] == Thread(r, Returned(s.results[leader]))
  {
  }

  // ---------- Calls under a free flight ----------

  /** A first call: no flight, no reservation and no receipt is in its way. */
  ghost predicate Fresh(s: State, tid: nat, r: Request) {
    Unhindered(s, tid, r) && r.key !in s.journal && !Listed(s.stored, r.key)
  }

  /** Since `s`, the call has come to this place, and nothing durable has happened. */
  predicate Alone(s: State, t: State, tid: nat, r: Request, pc: Pc) {
    t == s.(threads := s.threads[tid := Thread(r, pc)], flights := s.flights[Flight(r) := tid])
  }

  lemma {:induction false} FreshCallIsAdmitted(s: State, tid: nat, r: Request)
    requires Fresh(s, tid, r)
    ensures Alone(s, Run(s, Looking(tid, r)), tid, r, Admitting)
  {
    LookingRuns(s, tid, r);
    hide Run, Looking;
    assert LookingUp(s, tid, r).threads[tid := Thread(r, Admitting)] == s.threads[tid := Thread(r, Admitting)];
  }

  /** A key reserved for another request is refused, and nothing is written. */
  lemma {:induction false} ForeignKeyFails(s: State, tid: nat, r: Request)
    requires Unhindered(s, tid, r) && r.key in s.journal && s.journal[r.key].request != r
    ensures Alone(s, Run(s, Looking(tid, r)), tid, r, Releasing(Failed))
  {
    LookingRuns(s, tid, r);
    hide Run, Looking;
    assert LookingUp(s, tid, r).threads[tid := Thread(r, Releasing(Failed))] == s.threads[tid := Thread(r, Releasing(Failed))];
  }

  /** The call returns and its flight is free again. */
  lemma ReleaseFrees(s: State, t: State, tid: nat, r: Request, a: Answer)
    requires Unhindered(s, tid, r) && t.up && tid in t.threads && t.threads[tid] == Thread(r, Releasing(a))
    requires t.flights == s.flights[Flight(r) := tid] && t.results == s.results
    requires t.threads == s.threads[tid := Thread(r, Releasing(a))]
    ensures Next(t, Release(tid)) ==
            t.(flights := s.flights, results := s.results[tid := a], threads := s.threads[tid := Thread(r, Returned(a))])
  {
    assert s.flights[Flight(r) := tid] - {Flight(r)} == s.flights;
    assert t.threads[tid := Thread(r, Returned(a))] == s.threads[tid := Thread(r, Returned(a))];
  }

  // ---------- The effect ----------

  function Going(tid: nat): seq<Action> { [Admit(tid, Proceed), Reserve(tid, Completes), Prepare(tid, true), Start(tid, false)] }

  function Ending(tid: nat): seq<Action> {
    [Finish(tid), Record(tid, Completes)] + [Persist(tid, Completes), Persist(tid, Completes)] + [Persist(tid, Completes), Release(tid)]
  }

  /** The call's place after a step of its own. */
  predicate Comes(s: State, t: State, tid: nat, r: Request, pc: Pc) {
    t.up && tid in t.threads && t.threads[tid] == Thread(r, pc) && t.threads == s.threads[tid := Thread(r, pc)]
    && t.flights == s.flights[Flight(r) := tid] && t.results == s.results
  }

  lemma Reserves(s: State, t: State, tid: nat, r: Request)
    requires Comes(s, t, tid, r, Admitting) && r.key !in t.journal
    ensures var u := Next(Next(t, Admit(tid, Proceed)), Reserve(tid, Completes));
            Comes(s, u, tid, r, Preparing) && u == t.(journal := t.journal[r.key := Reservation(r, Pending)], threads := u.threads)
  {
    hide Flight;
    var t1 := Next(t, Admit(tid, Proceed));
    assert Comes(s, t1, tid, r, Reserving);
  }

  lemma Starts(s: State, t: State, tid: nat, r: Request)
    requires Comes(s, t, tid, r, Preparing)
    ensures var u := Next(Next(t, Prepare(tid, true)), Start(tid, false));
            Comes(s, u, tid, r, Running) && u == t.(started := t.started + [r], threads := u.threads)
  {
    hide Flight;
    var t1 := Next(t, Prepare(tid, true));
    assert Comes(s, t1, tid, r, Ready);
  }

  lemma {:induction false} ReservesThenStarts(s: State, t: State, tid: nat, r: Request)
    requires Comes(s, t, tid, r, Admitting) && r.key !in t.journal
    ensures var u := Run(t, Going(tid));
            Comes(s, u, tid, r, Running)
            && u == t.(journal := t.journal[r.key := Reservation(r, Pending)], started := t.started + [r], threads := u.threads)
  {
    hide Run, Next, Comes;
    RunOfFour(t, Admit(tid, Proceed), Reserve(tid, Completes), Prepare(tid, true), Start(tid, false));
    Reserves(s, t, tid, r);
    Starts(s, Next(Next(t, Admit(tid, Proceed)), Reserve(tid, Completes)), tid, r);
  }

  lemma Records(s: State, t: State, tid: nat, r: Request)
    requires Comes(s, t, tid, r, Running) && r.key in t.journal && t.journal[r.key] == Reservation(r, Pending)
    ensures var e := Evidence(t.nextId, 0, r, Effect);
            var u := Next(Next(t, Finish(tid)), Record(tid, Completes));
            Comes(s, u, tid, r, Persisting(e, 0, Leader))
            && u == t.(journal := t.journal[r.key := Reservation(r, Finalizing(e))], nextId := t.nextId + 1, threads := u.threads)
  {
    hide Flight;
    var t1 := Next(t, Finish(tid));
    assert Comes(s, t1, tid, r, Recording(Evidence(t.nextId, 0, r, Effect)));
  }

  /** What one durable write behind a receipt adds, whether the leader's or a retry's. */
  lemma PersistsOne(s: State, t: State, tid: nat, r: Request, e: Evidence, stage: nat, role: Role)
    requires Comes(s, t, tid, r, Persisting(e, stage, role)) && stage <= 2 && r.key in t.journal && t.journal[r.key] == Reservation(r, Finalizing(e))
    ensures var u := Next(t, Persist(tid, Completes));
            && Comes(s, u, tid, r, if stage < 2 then Persisting(e, stage + 1, role) else Releasing(Got(e)))
            && (stage == 0 ==> u == t.(stored := t.stored + {e}, threads := u.threads))
            && (stage == 1 ==> u == t.(audited := t.audited + {e}, threads := u.threads))
            && (stage == 2 ==> u == t.(journal := t.journal[r.key := Reservation(r, Finalized(e))], answered := t.answered + [e], threads := u.threads))
  {
    hide Flight;
  }

  lemma Persists(s: State, t: State, tid: nat, r: Request, e: Evidence, role: Role)
    requires Comes(s, t, tid, r, Persisting(e, 0, role)) && r.key in t.journal && t.journal[r.key] == Reservation(r, Finalizing(e))
    ensures var a := Persist(tid, Completes);
            var u := Next(Next(Next(t, a), a), a);
            Comes(s, u, tid, r, Releasing(Got(e)))
            && u == t.(journal := t.journal[r.key := Reservation(r, Finalized(e))], stored := t.stored + {e}, audited := t.audited + {e},
                       answered := t.answered + [e], threads := u.threads)
  {
    hide Next, Comes;
    var a := Persist(tid, Completes);
    PersistsOne(s, t, tid, r, e, 0, role);
    PersistsOne(s, Next(t, a), tid, r, e, 1, role);
    PersistsOne(s, Next(Next(t, a), a), tid, r, e, 2, role);
  }

  lemma {:induction false} RunOfSix(s: State, a: Action, b: Action, c: Action, d: Action, e: Action, f: Action)
    ensures Run(s, [a, b] + [c, d] + [e, f]) == Next(Next(Next(Next(Next(Next(s, a), b), c), d), e), f)
  {
    hide Next;
    RunOfFour(s, a, b, c, d);
    assert [a, b] + [c, d] == [a, b, c, d];
    RunJoins(s, [a, b] + [c, d], [e, f]);
    RunOfTwo(Run(s, [a, b, c, d]), e, f);
  }

  /** What an unhindered first call leaves: its effect started once, its receipt stored, audited and held by its
      finalized record, and handed out; its flight free. */
  lemma {:induction false} FreshCallTakesEffect(s: State, tid: nat, r: Request)
    requires Fresh(s, tid, r)
    ensures var e := Evidence(s.nextId, 0, r, Effect);
            Run(s, Looking(tid, r) + (Going(tid) + Ending(tid))) ==
            s.(threads := s.threads[tid := Thread(r, Returned(Got(e)))], results := s.results[tid := Got(e)],
               journal := s.journal[r.key := Reservation(r, Finalized(e))], stored := s.stored + {e}, audited := s.audited + {e},
               started := s.started + [r], answered := s.answered + [e], nextId := s.nextId + 1)
  {
    hide Next, Run, Looking, Going;
    RunJoins(s, Looking(tid, r), Going(tid) + Ending(tid));
    FreshCallIsAdmitted(s, tid, r);
    var t := Run(s, Looking(tid, r));
    RunJoins(t, Going(tid), Ending(tid));
    ReservesThenStarts(s, t, tid, r);
    var u := Run(t, Going(tid));
    var a := Persist(tid, Completes);
    RunOfSix(u, Finish(tid), Record(tid, Completes), a, a, a, Release(tid));
    Records(s, u, tid, r);
    var e := Evidence(s.nextId, 0, r, Effect);
    var v := Next(Next(u, Finish(tid)), Record(tid, Completes));
    Persists(s, v, tid, r, e, Leader);
    ReleaseFrees(s, Next(Next(Next(v, a), a), a), tid, r, Got(e));
    assert s.journal[r.key := Reservation(r, Pending)][r.key := Reservation(r, Finalizing(e))][r.key := Reservation(r, Finalized(e))]
        == s.journal[r.key := Reservation(r, Finalized(e))];
  }

  lemma Cancels(s: State, t: State, tid: nat, r: Request)
    requires Comes(s, t, tid, r, Preparing) && r.key in t.journal && t.journal[r.key] == Reservation(r, Pending)
    ensures var u := Next(Next(t, Prepare(tid, false)), Cancel(tid, Completes));
            Comes(s, u, tid, r, Releasing(Failed)) && u == t.(journal := t.journal - {r.key}, threads := u.threads)
  {
    hide Flight;
    assert Comes(s, Next(t, Prepare(tid, false)), tid, r, Cancelling);
  }

  /** A first call that cannot prepare its effect leaves nothing: its reservation is gone again, its effect was never
      started, and its key and its flight are free. */
  lemma {:induction false} CancelledCallLeavesNothing(s: State, tid: nat, r: Request)
    requires Fresh(s, tid, r)
    ensures Run(s, Looking(tid, r) + ([Admit(tid, Proceed), Reserve(tid, Completes), Prepare(tid, false), Cancel(tid, Completes)] + [Release(tid)])) ==
            s.(threads := s.threads[tid := Thread(r, Returned(Failed))], results := s.results[tid := Failed])
  {
    hide Next, Run, Looking;
    var cancelling := [Admit(tid, Proceed), Reserve(tid, Completes), Prepare(tid, false), Cancel(tid, Completes)];
    FreshCallIsAdmitted(s, tid, r);
    var t := Run(s, Looking(tid, r));
    RunOfFour(t, Admit(tid, Proceed), Reserve(tid, Completes), Prepare(tid, false), Cancel(tid, Completes));
    Reserves(s, t, tid, r);
    var u := Next(Next(t, Admit(tid, Proceed)), Reserve(tid, Completes));
    Cancels(s, u, tid, r);
    var v := Run(t, cancelling);
    ReleaseFrees(s, v, tid, r, Failed);
    assert s.journal[r.key := Reservation(r, Pending)] - {r.key} == s.journal;
    RunOfOne(v, Release(tid));
    RunJoins(t, cancelling, [Release(tid)]);
    RunJoins(s, Looking(tid, r), cancelling + [Release(tid)]);
  }

  lemma {:induction false} RunOfOne(s: State, a: Action)
    ensures Run(s, [a]) == Next(s, a)
  {
    hide Next;
    assert [a][1..] == [];
    assert Run(s, [a]) == Run(Next(s, a), []);
  }

  lemma Denies(s: State, t: State, tid: nat, r: Request, place: nat)
    requires Comes(s, t, tid, r, Admitting)
    ensures var e := Evidence(t.nextId, place, r, Denied);
            var u := Next(t, Admit(tid, Deny(true, true, place)));
            Comes(s, u, tid, r, Releasing(Got(e)))
            && u == t.(stored := t.stored + {e}, audited := t.audited + {e}, answered := t.answered + [e], nextId := t.nextId + 1, threads := u.threads)
  {
    hide Flight;
  }

  /** A first call that policy denies stores, audits and hands out one denial; it reserves and starts nothing. */
  lemma {:induction false} DeniedCallLeavesItsDenial(s: State, tid: nat, r: Request, place: nat)
    requires Fresh(s, tid, r)
    ensures var e := Evidence(s.nextId, place, r, Denied);
            Run(s, Looking(tid, r) + [Admit(tid, Deny(true, true, place)), Release(tid)]) ==
            s.(threads := s.threads[tid := Thread(r, Returned(Got(e)))], results := s.results[tid := Got(e)],
               stored := s.stored + {e}, audited := s.audited + {e}, answered := s.answered + [e], nextId := s.nextId + 1)
  {
    hide Next, Run, Looking;
    var e := Evidence(s.nextId, place, r, Denied);
    FreshCallIsAdmitted(s, tid, r);
    var t := Run(s, Looking(tid, r));
    RunOfTwo(t, Admit(tid, Deny(true, true, place)), Release(tid));
    Denies(s, t, tid, r, place);
    ReleaseFrees(s, Next(t, Admit(tid, Deny(true, true, place))), tid, r, Got(e));
    RunJoins(s, Looking(tid, r), [Admit(tid, Deny(true, true, place)), Release(tid)]);
  }

  // ---------- Startup ----------

  /** The record is this one's, and no other record differs from before. */
  predicate Rests(s: State, t: State, key: string, record: Reservation) {
    !t.up && t.journal == s.journal[key := record] && s.stored <= t.stored && s.audited <= t.audited
  }

  lemma ReconcilesOnce(s: State, t: State, key: string, r: Request, e: Evidence)
    requires Rests(s, t, key, Reservation(r, Finalizing(e)))
    ensures var u := Next(t, Reconcile(key, Completes));
            if e in t.stored && e in t.audited then Rests(s, u, key, Reservation(r, Finalized(e)))
            else Rests(s, u, key, Reservation(r, Finalizing(e))) && (e in u.stored) && (e in t.stored ==> e in u.audited)
  {
  }

  lemma FinalizedRests(s: State, t: State, key: string, r: Request, e: Evidence)
    requires Rests(s, t, key, Reservation(r, Finalized(e)))
    ensures Next(t, Reconcile(key, Completes)) == t
  {
  }

  lemma ReconcilesThrice(s: State, t: State, key: string, r: Request, e: Evidence)
    requires Rests(s, t, key, Reservation(r, Finalizing(e)))
    ensures var a := Reconcile(key, Completes); Rests(s, Next(Next(Next(t, a), a), a), key, Reservation(r, Finalized(e)))
  {
    hide Next, Rests;
    var a := Reconcile(key, Completes);
    var t1 := Next(t, a);
    var t2 := Next(t1, a);
    ReconcilesOnce(s, t, key, r, e);
    if e in t.stored && e in t.audited {
      FinalizedRests(s, t1, key, r, e);
      FinalizedRests(s, t1, key, r, e);
    } else {
      ReconcilesOnce(s, t1, key, r, e);
      if e in t1.stored && e in t1.audited { FinalizedRests(s, t2, key, r, e); } else { ReconcilesOnce(s, t2, key, r, e); }
    }
  }

  function Settling(key: string): seq<Action> {
    var a := Reconcile(key, Completes);
    [a, a, a, a]
  }

  /** Startup's writes for one record finalize it with the receipt it holds, or with an interrupted one that it comes
      to hold, and touch no other record. */
  lemma {:induction false} StartupSettlesRecord(s: State, key: string)
    requires Inv(s) && !s.up && key in s.journal
    ensures var r := s.journal[key].request;
            Rests(s, Run(s, Settling(key)), key, Reservation(r, Finalized(RetryAnswer(s, r))))
  {
    var a := Reconcile(key, Completes);
    RunOfFour(s, a, a, a, a);
    var r := s.journal[key].request;
    OwnKey(s, key);
    hide Run, Inv;
    var e := RetryAnswer(s, r);
    assert s.journal[key := s.journal[key]] == s.journal;
    match s.journal[key].phase {
      case Pending =>
        assert Rests(s, Next(s, a), key, Reservation(r, Finalizing(e)));
        hide Next, Rests;
        ReconcilesThrice(s, Next(s, a), key, r, e);
      case Finalizing(_) =>
        assert Rests(s, s, key, Reservation(r, Finalizing(e)));
        hide Next, Rests;
        ReconcilesThrice(s, s, key, r, e);
        FinalizedRests(s, Next(Next(Next(s, a), a), a), key, r, e);
      case Finalized(_) =>
        assert Rests(s, s, key, Reservation(r, Finalized(e)));
        hide Next, Rests;
        FinalizedRests(s, s, key, r, e);
    }
  }

  function Unsettled(s: State): set<string> { set k | k in s.journal && !s.journal[k].phase.Finalized? }

  /** Every record is final: with the receipt it held, if it held one. */
  ghost predicate SettledSince(s: State, t: State) {
    && t.journal.Keys == s.journal.Keys
    && forall k :: k in s.journal ==>
         && t.journal[k].request == s.journal[k].request && t.journal[k].phase.Finalized?
         && (Held(s.journal[k]).Some? ==> Held(t.journal[k]) == Held(s.journal[k]))
  }

  lemma OwnKey(s: State, key: string)
    requires Inv(s) && key in s.journal
    ensures s.journal[key].request.key == key
  {
    hide StoredOk, StartedOk, FlightsOk, HistoryOk, ThreadOk;
  }

  lemma {:induction false} StartupSettles(s: State) returns (actions: seq<Action>)
    requires Inv(s) && !s.up
    ensures !Run(s, actions).up && SettledSince(s, Run(s, actions))
    decreases |Unsettled(s)|
  {
    hide Inv, Next;
    if Unsettled(s) == {} {
      actions := [];
      assert forall k :: k in s.journal ==> k !in Unsettled(s);
      assert Run(s, actions) == s;
    } else {
      hide Run;
      var key :| key in Unsettled(s);
      StartupSettlesRecord(s, key);
      RunKeeps(s, Settling(key));
      var t := Run(s, Settling(key));
      assert Unsettled(t) == Unsettled(s) - {key};
      var rest := StartupSettles(t);
      RunJoins(s, Settling(key), rest);
      actions := Settling(key) + rest;
      forall k | k in s.journal
        ensures t.journal[k].request == s.journal[k].request && (Held(s.journal[k]).Some? ==> Held(t.journal[k]) == Held(s.journal[k]))
      {
        if k == key { OwnKey(s, key); }
      }
    }
  }

  /** After a crash at any point the daemon can serve again, once its startup has settled every record. It serves no
      earlier. */
  lemma {:induction false} DaemonServesAgain(s: State)
    requires Inv(s) && !s.up
    ensures Next(s, Serve).up <==> forall k :: k in s.journal ==> s.journal[k].phase.Finalized?
    ensures exists actions :: Run(s, actions).up && SettledSince(s, Run(s, actions))
  {
    hide Inv, Run;
    var actions := StartupSettles(s);
    var t := Run(s, actions);
    RunOfOne(t, Serve);
    RunJoins(s, actions, [Serve]);
    assert Run(s, actions + [Serve]) == Next(t, Serve);
    assert Next(t, Serve).up && SettledSince(s, Next(t, Serve));
  }

  // ---------- Flights ----------

  lemma {:induction false} SplitsAtColon(a: string, b: string, x: string, y: string)
    requires ':' !in a && ':' !in b && a + ":" + x == b + ":" + y
    ensures a == b && x == y
  {
    assert (a + ":" + x)[0] == if a == "" then ':' else a[0];
    assert (b + ":" + y)[0] == if b == "" then ':' else b[0];
    assert (a + ":" + x)[1..] == if a == "" then x else a[1..] + ":" + x;
    assert (b + ":" + y)[1..] == if b == "" then y else b[1..] + ":" + y;
    if a != "" { SplitsAtColon(a[1..], b[1..], x, y); }
  }

  /** Calls share a flight exactly if they agree on actor, target and key, as long as actors and targets hold no colon. */
  lemma FlightsShared(q: Request, r: Request)
    requires ':' !in q.actor && ':' !in r.actor && ':' !in q.target && ':' !in r.target
    ensures Flight(q) == Flight(r) <==> q.actor == r.actor && q.target == r.target && q.key == r.key
  {
    if Flight(q) == Flight(r) {
      assert q.actor + ":" + q.target + ":" + q.key == q.actor + ":" + (q.target + ":" + q.key);
      assert r.actor + ":" + r.target + ":" + r.key == r.actor + ":" + (r.target + ":" + r.key);
      SplitsAtColon(q.actor, r.actor, q.target + ":" + q.key, r.target + ":" + r.key);
      SplitsAtColon(q.target, r.target, q.key, r.key);
    }
  }
}
