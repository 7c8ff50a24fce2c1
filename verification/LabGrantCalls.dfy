/** What one unhindered console call does to a lab grant: issue, revoke, execute. */
module LabGrantCalls {
  import opened Canonical
  import opened Receipts
  import opened LabGrants

  /** A call's steps after its start, none of which fails. */
  function Goes(tid: nat, steps: nat): seq<Action> { if steps == 0 then [] else Goes(tid, steps - 1) + [Go(tid, Completes)] }

  /** The call has begun and is this many steps on. */
  function Called(s: State, tid: nat, kind: Kind, id: string, validFor: nat, steps: nat): State {
    Run(s, [Begin(tid, kind, id, validFor)] + Goes(tid, steps))
  }

  lemma {:induction false} RunSnoc(s: State, actions: seq<Action>, a: Action)
    ensures Run(s, actions + [a]) == Next(Run(s, actions), a)
    decreases |actions|
  {
    hide Next;
    if actions == [] {
      assert [] + [a] == [a] && [a][1..] == [];
      assert Run(s, [a]) == Run(Next(s, a), []);
    } else {
      assert (actions + [a])[1..] == actions[1..] + [a];
      RunSnoc(Next(s, actions[0]), actions[1..], a);
    }
  }

  lemma {:induction false} CalledNext(s: State, tid: nat, kind: Kind, id: string, validFor: nat, steps: nat)
    ensures Called(s, tid, kind, id, validFor, steps + 1) == Next(Called(s, tid, kind, id, validFor, steps), Go(tid, Completes))
  {
    hide Next;
    var begin := [Begin(tid, kind, id, validFor)];
    assert begin + Goes(tid, steps + 1) == (begin + Goes(tid, steps)) + [Go(tid, Completes)];
    RunSnoc(s, begin + Goes(tid, steps), Go(tid, Completes));
  }

  lemma {:induction false} CalledFirst(s: State, tid: nat, kind: Kind, id: string, validFor: nat)
    requires tid !in s.threads
    ensures Called(s, tid, kind, id, validFor, 0) == s.(threads := s.threads[tid := Thread(kind, id, validFor, Waiting)])
  {
    var begin := [Begin(tid, kind, id, validFor)];
    assert begin + Goes(tid, 0) == begin;
    RunSnoc(s, [], begin[0]);
    assert [] + begin == begin;
  }

  lemma {:induction false} Advances(s: State, tid: nat, kind: Kind, id: string, validFor: nat, steps: nat)
    ensures var a := Go(tid, Completes);
            var t := Called(s, tid, kind, id, validFor, steps);
            && Called(s, tid, kind, id, validFor, steps + 1) == Next(t, a)
            && Called(s, tid, kind, id, validFor, steps + 2) == Next(Next(t, a), a)
            && Called(s, tid, kind, id, validFor, steps + 3) == Next(Next(Next(t, a), a), a)
  {
    hide Next, Called;
    CalledNext(s, tid, kind, id, validFor, steps);
    CalledNext(s, tid, kind, id, validFor, steps + 1);
    CalledNext(s, tid, kind, id, validFor, steps + 2);
  }

  /** The call holds its grant's lease and has changed nothing else but this. */
  predicate Holding(s: State, t: State, tid: nat, th: Thread) {
    t == s.(threads := s.threads[tid := th], leases := s.leases[th.id := tid], grants := t.grants, broken := t.broken,
            active := t.active, revoked := t.revoked, receipted := t.receipted, audited := t.audited, fence := t.fence,
            dispatches := t.dispatches)
  }

  lemma TakesLease(s: State, t: State, tid: nat, th: Thread)
    requires tid !in s.threads && th.id !in s.leases && th.pc.Waiting? && t == s.(threads := s.threads[tid := th])
    ensures var u := Next(t, Go(tid, Completes));
            Holding(s, u, tid, th.(pc := StartOf(th.kind))) && u == t.(threads := u.threads, leases := u.leases)
  {
    assert t.threads[tid := th.(pc := StartOf(th.kind))] == s.threads[tid := th.(pc := StartOf(th.kind))];
  }

  lemma GivesLease(s: State, t: State, tid: nat, th: Thread, ok: bool)
    requires th.id !in s.leases && th.pc == Unlocking(ok) && Holding(s, t, tid, th)
    ensures Next(t, Go(tid, Completes)) ==
            t.(threads := s.threads[tid := th.(pc := Ended(ok))], leases := s.leases,
               revocations := if th.kind.Revoke? && ok then s.revocations + {th.id} else s.revocations)
  {
    assert s.leases[th.id := tid] - {th.id} == s.leases;
    assert t.threads[tid := th.(pc := Ended(ok))] == s.threads[tid := th.(pc := Ended(ok))];
  }

  // ---------- Issue ----------

  predicate Unissued(s: State, id: string) { id !in s.grants && id !in s.broken && Doc(s.active, id).Absent? }

  lemma IssuesDocument(s: State, t: State, tid: nat, th: Thread)
    requires th.kind.Issue? && th.pc.IssueStart? && Holding(s, t, tid, th) && Unissued(t, th.id)
    ensures var a := Go(tid, Completes);
            var g := Grant(t.enrollment, t.now, t.now + th.validFor);
            var u := Next(Next(Next(t, a), a), a);
            Holding(s, u, tid, th.(pc := IssueReceipting)) && u == t.(threads := u.threads, grants := t.grants[th.id := g])
  {
    var a := Go(tid, Completes);
    var g := Grant(t.enrollment, t.now, t.now + th.validFor);
    var t1 := Next(t, a);
    var t2 := Next(t1, a);
    assert Holding(s, t1, tid, th.(pc := IssueAdmitting(g, false))) && t1 == t.(threads := t1.threads);
    assert Holding(s, t2, tid, th.(pc := IssueWriting(g))) && t2 == t.(threads := t2.threads, broken := t.broken + {th.id});
    assert t2.broken - {th.id} == t.broken;
  }

  lemma Evidences(s: State, t: State, tid: nat, th: Thread)
    requires th.kind.Issue? && th.pc.IssueReceipting? && Holding(s, t, tid, th)
    ensures var a := Go(tid, Completes);
            var u := Next(Next(t, a), a);
            Holding(s, u, tid, th.(pc := Activating))
            && u == t.(threads := u.threads, receipted := t.receipted + {th.id}, audited := t.audited + {th.id})
  {
    assert Holding(s, Next(t, Go(tid, Completes)), tid, th.(pc := IssueAuditing));
  }

  lemma Activates(s: State, t: State, tid: nat, th: Thread)
    requires th.kind.Issue? && th.pc.Activating? && Holding(s, t, tid, th) && Doc(t.active, th.id).Absent?
    ensures var a := Go(tid, Completes);
            var u := Next(Next(t, a), a);
            Holding(s, u, tid, th.(pc := Unlocking(true))) && u == t.(threads := u.threads, active := t.active[th.id := Written])
  {
    assert Holding(s, Next(t, Go(tid, Completes)), tid, th.(pc := ActiveWriting));
  }

  lemma {:induction false} IssueWrites(s: State, tid: nat, id: string, validFor: nat)
    requires tid !in s.threads && id !in s.leases && Unissued(s, id)
    ensures var th := Thread(Issue, id, validFor, IssueReceipting);
            var t := Called(s, tid, Issue, id, validFor, 4);
            Holding(s, t, tid, th)
            && t == s.(threads := t.threads, leases := t.leases, grants := s.grants[id := Grant(s.enrollment, s.now, s.now + validFor)])
  {
    hide Next, Called, Holding, Goes;
    var th := Thread(Issue, id, validFor, Waiting);
    CalledFirst(s, tid, Issue, id, validFor);
    Advances(s, tid, Issue, id, validFor, 0);
    Advances(s, tid, Issue, id, validFor, 1);
    TakesLease(s, Called(s, tid, Issue, id, validFor, 0), tid, th);
    IssuesDocument(s, Called(s, tid, Issue, id, validFor, 1), tid, th.(pc := IssueStart));
  }

  /** An unhindered issuance leaves an active grant under the present enrollment, valid from now for as long as asked,
      with its receipt and its audit event, and gives its lease back. */
  lemma {:induction false} IssueGrants(s: State, tid: nat, id: string, validFor: nat)
    requires tid !in s.threads && id !in s.leases && Unissued(s, id)
    ensures Called(s, tid, Issue, id, validFor, 9) ==
            s.(threads := s.threads[tid := Thread(Issue, id, validFor, Ended(true))],
               grants := s.grants[id := Grant(s.enrollment, s.now, s.now + validFor)], active := s.active[id := Written],
               receipted := s.receipted + {id}, audited := s.audited + {id})
  {
    hide Next, Called, Holding, Goes;
    var th := Thread(Issue, id, validFor, Waiting);
    IssueWrites(s, tid, id, validFor);
    Advances(s, tid, Issue, id, validFor, 4);
    Advances(s, tid, Issue, id, validFor, 6);
    Evidences(s, Called(s, tid, Issue, id, validFor, 4), tid, th.(pc := IssueReceipting));
    Activates(s, Called(s, tid, Issue, id, validFor, 6), tid, th.(pc := Activating));
    GivesLease(s, Called(s, tid, Issue, id, validFor, 8), tid, th.(pc := Unlocking(true)), true);
  }

  // ---------- Revoke ----------

  lemma Revokes(s: State, t: State, tid: nat, th: Thread)
    requires th.kind.Revoke? && th.pc.RevokeStart? && Holding(s, t, tid, th) && th.id in t.grants && Doc(t.revoked, th.id).Absent?
    ensures var a := Go(tid, Completes);
            var u := Next(Next(Next(t, a), a), a);
            Holding(s, u, tid, th.(pc := RevokeReceipting)) && u == t.(threads := u.threads, revoked := t.revoked[th.id := Written])
  {
    var a := Go(tid, Completes);
    var t1 := Next(t, a);
    assert Holding(s, t1, tid, th.(pc := RevokeAdmitting(false)));
    assert Holding(s, Next(t1, a), tid, th.(pc := RevokeWriting));
  }

  lemma RevocationEvidences(s: State, t: State, tid: nat, th: Thread)
    requires th.kind.Revoke? && th.pc.RevokeReceipting? && Holding(s, t, tid, th)
    ensures var a := Go(tid, Completes);
            var u := Next(Next(t, a), a);
            Holding(s, u, tid, th.(pc := Unlocking(true))) && u == t.(threads := u.threads)
  {
    assert Holding(s, Next(t, Go(tid, Completes)), tid, th.(pc := RevokeAuditing));
  }

  /** An unhindered revocation writes the revocation of this grant and nothing else. */
  lemma {:induction false} RevokeRevokes(s: State, tid: nat, id: string, validFor: nat)
    requires tid !in s.threads && id !in s.leases && id in s.grants && Doc(s.revoked, id).Absent?
    ensures Called(s, tid, Revoke, id, validFor, 7) ==
            s.(threads := s.threads[tid := Thread(Revoke, id, validFor, Ended(true))], revoked := s.revoked[id := Written],
               revocations := s.revocations + {id})
  {
    hide Next, Called, Holding, Goes;
    var th := Thread(Revoke, id, validFor, Waiting);
    CalledFirst(s, tid, Revoke, id, validFor);
    Advances(s, tid, Revoke, id, validFor, 0);
    Advances(s, tid, Revoke, id, validFor, 1);
    Advances(s, tid, Revoke, id, validFor, 4);
    TakesLease(s, Called(s, tid, Revoke, id, validFor, 0), tid, th);
    Revokes(s, Called(s, tid, Revoke, id, validFor, 1), tid, th.(pc := RevokeStart));
    RevocationEvidences(s, Called(s, tid, Revoke, id, validFor, 4), tid, th.(pc := RevokeReceipting));
    GivesLease(s, Called(s, tid, Revoke, id, validFor, 6), tid, th.(pc := Unlocking(true)), true);
  }

  // ---------- Execute ----------

  /** The grant is active, not revoked, within its validity and bound to the present enrollment. */
  predicate Usable(s: State, id: string) {
    && id in s.grants && id in s.active && s.active[id] == Written && (id in s.revoked ==> s.revoked[id] == Absent)
    && s.grants[id].issuedAt <= s.now < s.grants[id].expiresAt && s.enrollment == s.grants[id].identity
  }

  lemma Prepares(s: State, t: State, tid: nat, th: Thread)
    requires th.kind.Execute? && th.pc.ExecuteStart? && Holding(s, t, tid, th) && Usable(t, th.id)
    ensures var a := Go(tid, Completes);
            var u := Next(Next(t, a), a);
            Holding(s, u, tid, th.(pc := Fencing(t.grants[th.id]))) && u == t.(threads := u.threads)
  {
    assert Holding(s, Next(t, Go(tid, Completes)), tid, th.(pc := Preparing(t.grants[th.id])));
  }

  lemma Fences(s: State, t: State, tid: nat, th: Thread, g: Grant)
    requires th.kind.Execute? && Holding(s, t, tid, th) && th.pc == Fencing(g) && t.fence.None?
    ensures var u := Next(t, Go(tid, Completes));
            Holding(s, u, tid, th.(pc := Checking(g))) && u == t.(threads := u.threads, fence := Some(tid))
  {
  }

  lemma Checks(s: State, t: State, tid: nat, th: Thread, g: Grant)
    requires th.kind.Execute? && Holding(s, t, tid, th) && th.pc == Checking(g) && Usable(t, th.id) && g == t.grants[th.id]
    ensures var u := Next(t, Go(tid, Completes));
            Holding(s, u, tid, th.(pc := Checked(g, t.now))) && u == t.(threads := u.threads)
  {
  }

  lemma Dispatches(s: State, t: State, tid: nat, th: Thread, g: Grant, at: nat)
    requires th.kind.Execute? && Holding(s, t, tid, th) && th.pc == Checked(g, at)
    ensures var u := Next(t, Go(tid, Completes));
            Holding(s, u, tid, th.(pc := Unlocking(true)))
            && u == t.(threads := u.threads, fence := None, dispatches := t.dispatches + [Dispatch(th.id, g, at)])
  {
  }

  lemma Refuses(s: State, t: State, tid: nat, th: Thread)
    requires th.kind.Execute? && th.pc.ExecuteStart? && Holding(s, t, tid, th) && !Usable(t, th.id)
    ensures var u := Next(t, Go(tid, Completes));
            Holding(s, u, tid, th.(pc := Unlocking(false))) && u == t.(threads := u.threads)
  {
  }

  lemma Rests(t: State, tid: nat)
    requires tid in t.threads && t.threads[tid].pc.Ended?
    ensures Next(t, Go(tid, Completes)) == t
  {
  }

  /** An unhindered action that meets no other fence is dispatched, once and under its grant, exactly if that is usable
      now. Otherwise nothing is. */
  lemma {:induction false} ExecuteDispatches(s: State, tid: nat, id: string, validFor: nat)
    requires tid !in s.threads && id !in s.leases && s.fence.None?
    ensures Called(s, tid, Execute, id, validFor, 7) ==
            s.(threads := s.threads[tid := Thread(Execute, id, validFor, Ended(Usable(s, id)))],
               dispatches := if Usable(s, id) then s.dispatches + [Dispatch(id, s.grants[id], s.now)] else s.dispatches)
  {
    hide Next, Called, Holding, Goes;
    var th := Thread(Execute, id, validFor, Waiting);
    CalledFirst(s, tid, Execute, id, validFor);
    Advances(s, tid, Execute, id, validFor, 0);
    Advances(s, tid, Execute, id, validFor, 1);
    Advances(s, tid, Execute, id, validFor, 4);
    TakesLease(s, Called(s, tid, Execute, id, validFor, 0), tid, th);
    var t1 := Called(s, tid, Execute, id, validFor, 1);
    if Usable(s, id) {
      Prepares(s, t1, tid, th.(pc := ExecuteStart));
      var g := s.grants[id];
      Fences(s, Called(s, tid, Execute, id, validFor, 3), tid, th.(pc := Fencing(g)), g);
      Checks(s, Called(s, tid, Execute, id, validFor, 4), tid, th.(pc := Checking(g)), g);
      Dispatches(s, Called(s, tid, Execute, id, validFor, 5), tid, th.(pc := Checked(g, s.now)), g, s.now);
      GivesLease(s, Called(s, tid, Execute, id, validFor, 6), tid, th.(pc := Unlocking(true)), true);
    } else {
      Refuses(s, t1, tid, th.(pc := ExecuteStart));
      GivesLease(s, Called(s, tid, Execute, id, validFor, 2), tid, th.(pc := Unlocking(false)), false);
      var t3 := Called(s, tid, Execute, id, validFor, 3);
      Rests(t3, tid);
    }
  }
}
