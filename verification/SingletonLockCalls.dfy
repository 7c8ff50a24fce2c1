/** What one undisturbed attempt at the singleton lock comes to: taking a free lock, judging a recorded owner,
    reclaiming a dead one's lock, and giving up. */
module SingletonLockCalls {
  import opened Canonical
  import opened SingletonLock

  lemma {:induction false} RunSnoc(s: State, actions: seq<Action>, a: Action)
    ensures Run(s, actions + [a]) == Next(Run(s, actions), a)
    decreases |actions|
  {
    hide Next;
    if actions == [] {
      assert [] + [a] == [a] && [a][1..] == [];
      assert Run(s, [a]) == Run(Next(s, a), []);
    } else {
      assert (actions + [a])[1..] == actions[1..] + [a];
      RunSnoc(Next(s, actions[0]), actions[1..], a);
    }
  }

  lemma {:induction false} RunOfThree(s: State, a: Action, b: Action, c: Action)
    ensures Run(s, [a, b, c]) == Next(Next(Next(s, a), b), c)
  {
    hide Next;
    RunSnoc(s, [], a);
    RunSnoc(s, [a], b);
    RunSnoc(s, [a, b], c);
    assert [] + [a] == [a] && [a] + [b] == [a, b] && [a, b] + [c] == [a, b, c];
  }

  lemma {:induction false} RunJoins(s: State, a: seq<Action>, b: seq<Action>)
    ensures Run(s, a + b) == Run(Run(s, a), b)
    decreases |a|
  {
    hide Next;
    if a == [] {
      assert a + b == b;
    } else {
      assert (a + b)[1..] == a[1..] + b;
      RunJoins(Next(s, a[0]), a[1..], b);
    }
  }

  /** Since `s` only this process has moved. */
  predicate Alone(s: State, t: State, p: nat, pc: Pc, guard: Option<nat>, dir: bool, owner: Owner) {
    p in s.processes && t == State(s.processes[p := s.processes[p].(pc := pc)], guard, dir, owner)
  }

  predicate Arriving(s: State, p: nat) { p in s.processes && s.processes[p].pc.Outside? && s.guard.None? }

  function Creation(p: nat): seq<Action> { [CreateOwner(p, true), FillOwner(p, true), Sync(p, true)] }

  lemma {:induction false} Creates(s: State, t: State, p: nat)
    requires Alone(s, t, p, Made, Some(p), true, NoOwner)
    ensures Alone(s, Run(t, Creation(p)), p, Held, None, true, Recorded(s.processes[p].identity))
  {
    RunOfThree(t, CreateOwner(p, true), FillOwner(p, true), Sync(p, true));
    var t1 := Next(t, CreateOwner(p, true));
    assert Alone(s, t1, p, Creating, Some(p), true, Invalid);
    var t2 := Next(t1, FillOwner(p, true));
    assert Alone(s, t2, p, Filled, Some(p), true, Recorded(s.processes[p].identity));
    hide Run;
  }

  /** A free lock is taken by whoever comes, and records it. */
  lemma {:induction false} FreeLockIsTaken(s: State, p: nat)
    requires Arriving(s, p) && !s.dir && s.owner == NoOwner
    ensures Alone(s, Run(s, [Enter(p), Make(p)] + Creation(p)), p, Held, None, true, Recorded(s.processes[p].identity))
  {
    RunJoins(s, [Enter(p), Make(p)], Creation(p));
    RunSnoc(s, [], Enter(p));
    RunSnoc(s, [Enter(p)], Make(p));
    assert [] + [Enter(p)] == [Enter(p)] && [Enter(p)] + [Make(p)] == [Enter(p), Make(p)];
    assert Run(s, []) == s;
    var t := Next(Next(s, Enter(p)), Make(p));
    assert Alone(s, t, p, Made, Some(p), true, NoOwner);
    hide Run, Next;
    Creates(s, t, p);
  }

  /** The record's owner is dead as far as one can tell: it belongs to this runtime or to an earlier boot of this host,
      and its process is neither reported nor found alive. */
  ghost predicate Reclaimable(s: State, p: nat, reportedAlive: bool)
    requires p in s.processes
  {
    && s.owner.Recorded? && !reportedAlive
    && (forall q :: q in s.processes ==> s.processes[q].identity != s.owner.identity)
    && var self, dead := s.processes[p].identity, s.owner.identity;
       (dead.runtimeId == self.runtimeId ||
        (dead.host != "" && dead.host == self.host && dead.boot != "" && self.boot != "" && dead.boot != self.boot))
  }

  /** A lock that is there is reclaimed exactly if its owner may be; otherwise it stays as it is, whatever is on record,
      and the caller gives up. */
  lemma {:induction false} OwnerIsJudged(s: State, p: nat, reportedAlive: bool)
    requires Arriving(s, p) && s.dir
    ensures var t := Run(s, [Enter(p), Make(p), Judge(p, reportedAlive)]);
            if Reclaimable(s, p, reportedAlive) then Alone(s, t, p, RemovingOwner(0), Some(p), true, s.owner)
            else Alone(s, t, p, Gone, None, true, s.owner)
  {
    RunOfThree(s, Enter(p), Make(p), Judge(p, reportedAlive));
    var t := Next(Next(s, Enter(p)), Make(p));
    assert Alone(s, t, p, Reading(0), Some(p), true, s.owner);
    hide Run;
    JudgeDecides(s, t, p, reportedAlive);
  }

  lemma JudgeDecides(s: State, t: State, p: nat, reportedAlive: bool)
    requires Alone(s, t, p, Reading(0), Some(p), true, s.owner)
    ensures var u := Next(t, Judge(p, reportedAlive));
            if Reclaimable(s, p, reportedAlive) then Alone(s, u, p, RemovingOwner(0), Some(p), true, s.owner)
            else Alone(s, u, p, Gone, None, true, s.owner)
  {
    assert s.owner.Recorded? ==> (Lives(t, s.owner.identity) <==> exists q :: q in s.processes && s.processes[q].identity == s.owner.identity) by {
      if s.owner.Recorded? { LivesAlike(s, t, p, s.owner.identity); }
    }
    hide Lives;
  }

  lemma LivesAlike(s: State, t: State, p: nat, identity: Identity)
    requires p in s.processes && t.processes.Keys == s.processes.Keys
    requires forall q :: q in s.processes ==> t.processes[q].identity == s.processes[q].identity
    ensures Lives(t, identity) <==> exists q :: q in s.processes && s.processes[q].identity == identity
  {
    if Lives(t, identity) {
      var q :| q in t.processes && t.processes[q].identity == identity;
      assert q in s.processes && s.processes[q].identity == identity;
    }
    if q :| q in s.processes && s.processes[q].identity == identity {
      assert q in t.processes && t.processes[q].identity == identity;
    }
  }

  /** A dead owner's lock passes to the caller, under its own record. */
  lemma {:induction false} DeadOwnerIsReplaced(s: State, p: nat)
    requires Arriving(s, p) && s.dir && Reclaimable(s, p, false)
    ensures Alone(s, Run(s, [Enter(p), Make(p), Judge(p, false)] + ([RemoveOwner(p, true), RemoveDir(p, true), Make(p)] + Creation(p))),
                  p, Held, None, true, Recorded(s.processes[p].identity))
  {
    hide Reclaimable;
    OwnerIsJudged(s, p, false);
    var t := Run(s, [Enter(p), Make(p), Judge(p, false)]);
    var removal := [RemoveOwner(p, true), RemoveDir(p, true), Make(p)];
    RunJoins(s, [Enter(p), Make(p), Judge(p, false)], removal + Creation(p));
    RunJoins(t, removal, Creation(p));
    RunOfThree(t, removal[0], removal[1], removal[2]);
    var t1 := Next(t, removal[0]);
    assert Alone(s, t1, p, RemovingDir(0), Some(p), true, NoOwner);
    var t2 := Next(t1, removal[1]);
    assert Alone(s, t2, p, Trying(1), Some(p), false, NoOwner);
    assert Alone(s, Next(t2, removal[2]), p, Made, Some(p), true, NoOwner);
    hide Run, Next;
    Creates(s, Next(t2, removal[2]), p);
  }

  /** A record that cannot be written is taken away again, with its directory: the lock is as free as before. */
  lemma {:induction false} FailedCreationIsUndone(s: State, p: nat)
    requires Arriving(s, p) && !s.dir && s.owner == NoOwner
    ensures Alone(s, Run(s, [Enter(p), Make(p), CreateOwner(p, true)] + [FillOwner(p, false), UndoOwner(p, true), UndoDir(p, true)]),
                  p, Gone, None, false, NoOwner)
  {
    var first, last := [Enter(p), Make(p), CreateOwner(p, true)], [FillOwner(p, false), UndoOwner(p, true), UndoDir(p, true)];
    RunJoins(s, first, last);
    RunOfThree(s, first[0], first[1], first[2]);
    assert Alone(s, Next(Next(s, first[0]), first[1]), p, Made, Some(p), true, NoOwner);
    var t := Run(s, first);
    assert Alone(s, t, p, Creating, Some(p), true, Invalid);
    RunOfThree(t, last[0], last[1], last[2]);
    assert Alone(s, Next(t, last[0]), p, Undoing, Some(p), true, Invalid);
    assert Alone(s, Next(Next(t, last[0]), last[1]), p, UndoingDir, Some(p), true, NoOwner);
    hide Run;
  }
}
