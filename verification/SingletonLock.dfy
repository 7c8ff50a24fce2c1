/** The daemon singleton lock: a lock directory with an owner record, changed under a guard that the operating
    system frees when its holder dies. Processes may crash, and file operations fail, at any step. */
module SingletonLock {
  import opened Canonical

  /** `host` and `boot` are the parts of a structured runtime ID, empty where it has none. */
  datatype Identity = Identity(runtimeId: string, host: string, boot: string, pid: nat, startTime: string)

  predicate SameHostDifferentBoot(a: Identity, b: Identity) { a.host != "" && a.boot != "" && b.boot != "" && a.host == b.host && a.boot != b.boot }

  /** The owner file: absent, not (yet) a valid record, or a record. */
  datatype Owner = NoOwner | Invalid | Recorded(identity: Identity)

  datatype Pc =
    | Outside
    | Trying(attempts: nat)
    | Made
    | Creating
    | Filled
    | Undoing
    | UndoingDir
    | Reading(attempts: nat)
    | RemovingOwner(attempts: nat)
    | RemovingDir(attempts: nat)
    | Held
    | Releasing
    | ReleasingOwner
    | ReleasingDir
    | Gone

  datatype Process = Process(identity: Identity, pc: Pc)

  /** Dead processes are no longer in `processes`. */
  datatype State = State(processes: map<nat, Process>, guard: Option<nat>, dir: bool, owner: Owner)

  datatype Action =
    | Spawn(p: nat, identity: Identity)
    | Enter(p: nat)
    | Make(p: nat)
    | CreateOwner(p: nat, ok: bool)
    | FillOwner(p: nat, ok: bool)
    | Sync(p: nat, ok: bool)
    | UndoOwner(p: nat, ok: bool)
    | UndoDir(p: nat, ok: bool)
    | Judge(p: nat, reportedAlive: bool)
    | RemoveOwner(p: nat, ok: bool)
    | RemoveDir(p: nat, ok: bool)
    | EnterRelease(p: nat)
    | CheckRelease(p: nat)
    | ReleaseOwner(p: nat, ok: bool)
    | ReleaseDir(p: nat, ok: bool)
    | Crash(p: nat)

  const ATTEMPTS := 3

  function At(s: State, p: nat, pc: Pc): State
    requires p in s.processes
  {
    s.(processes := s.processes[p := s.processes[p].(pc := pc)])
  }

  /** Leaving the guarded section. */
  function Leave(s: State, p: nat, pc: Pc): State
    requires p in s.processes
  {
    At(s, p, pc).(guard := None)
  }

  ghost predicate Lives(s: State, identity: Identity) { exists p :: p in s.processes && s.processes[p].identity == identity }

  ghost function Step(s: State, p: nat, a: Action): State
    requires p in s.processes
  {
    var self := s.processes[p].identity;
    match (a, s.processes[p].pc)
    case (Enter(_), Outside) => if s.guard.None? then At(s, p, Trying(0)).(guard := Some(p)) else s
    case (Make(_), Trying(n)) =>
      if n >= ATTEMPTS then Leave(s, p, Gone)
      else if !s.dir then At(s, p, Made).(dir := true)
      else At(s, p, Reading(n))
    case (CreateOwner(_, ok), Made) =>
      if !ok || s.owner != NoOwner then At(s, p, Undoing) else At(s, p, Creating).(owner := Invalid)
    case (FillOwner(_, ok), Creating) => if !ok then At(s, p, Undoing) else At(s, p, Filled).(owner := Recorded(self))
    case (Sync(_, ok), Filled) => if !ok then At(s, p, Undoing) else Leave(s, p, Held)
    case (UndoOwner(_, ok), Undoing) => At(s, p, UndoingDir).(owner := if ok then NoOwner else s.owner)
    case (UndoDir(_, ok), UndoingDir) => Leave(s, p, Gone).(dir := if ok && s.owner == NoOwner then false else s.dir)
    case (Judge(_, reportedAlive), Reading(n)) =>
      if !s.owner.Recorded? then Leave(s, p, Gone)
      else if s.owner.identity.runtimeId != self.runtimeId && !SameHostDifferentBoot(s.owner.identity, self) then Leave(s, p, Gone)
      else if reportedAlive || Lives(s, s.owner.identity) then Leave(s, p, Gone)
      else At(s, p, RemovingOwner(n))
    case (RemoveOwner(_, ok), RemovingOwner(n)) => if !ok then Leave(s, p, Gone) else At(s, p, RemovingDir(n)).(owner := NoOwner)
    case (RemoveDir(_, ok), RemovingDir(n)) =>
      if !ok || s.owner != NoOwner then Leave(s, p, Gone) else At(s, p, Trying(n + 1)).(dir := false)
    case (EnterRelease(_), Held) => if s.guard.None? then At(s, p, Releasing).(guard := Some(p)) else s
    case (CheckRelease(_), Releasing) => if s.owner == Recorded(self) then At(s, p, ReleasingOwner) else Leave(s, p, Gone)
    case (ReleaseOwner(_, ok), ReleasingOwner) => if !ok then Leave(s, p, Held) else At(s, p, ReleasingDir).(owner := NoOwner)
    case (ReleaseDir(_, ok), ReleasingDir) => Leave(s, p, Gone).(dir := if ok && s.owner == NoOwner then false else s.dir)
    case _ => s
  }

  /** No two live processes have one identity. A dying process lets go of the guard. */
  ghost function Next(s: State, a: Action): State {
    match a
    case Spawn(p, identity) =>
      if p in s.processes || Lives(s, identity) then s else s.(processes := s.processes[p := Process(identity, Outside)])
    case Crash(p) =>
      if p !in s.processes then s
      else s.(processes := s.processes - {p}, guard := if s.guard == Some(p) then None else s.guard)
    case _ => if a.p in s.processes then Step(s, a.p, a) else s
  }

  ghost function Run(s: State, actions: seq<Action>): State
    decreases |actions|
  {
    if actions == [] then s else Run(Next(s, actions[0]), actions[1..])
  }

  const INITIAL := State(map[], None, false, NoOwner)

  // ---------- The invariant ----------

  /** The process believes it holds the lock until its own release has removed the record. */
  predicate Holds(pc: Pc) { pc.Held? || pc.Releasing? || pc.ReleasingOwner? }

  predicate Guarded(pc: Pc) { !pc.Outside? && !pc.Held? && !pc.Gone? }

  predicate NobodyHolds(s: State) { forall p :: p in s.processes ==> !Holds(s.processes[p].pc) }

  predicate ProcessOk(s: State, p: nat)
    requires p in s.processes
  {
    var self, pc := s.processes[p].identity, s.processes[p].pc;
    && (Guarded(pc) ==> s.guard == Some(p))
    && (Holds(pc) ==> s.dir && s.owner == Recorded(self))
    && match pc
       case Made => s.dir && s.owner == NoOwner
       case Creating => s.dir && s.owner == Invalid
       case Filled => s.dir && s.owner == Recorded(self)
       case Undoing => s.dir && (s.owner.Recorded? ==> s.owner.identity == self)
       case UndoingDir => s.dir && (s.owner.Recorded? ==> s.owner.identity == self)
       case RemovingOwner(_) => s.dir && NobodyHolds(s)
       case RemovingDir(_) => s.dir && s.owner == NoOwner
       case ReleasingDir => s.dir && s.owner == NoOwner
       case Reading(_) => s.dir
       case _ => true
  }

  predicate Inv(s: State) {
    && (forall p :: p in s.processes ==> ProcessOk(s, p))
    && (forall p, q :: p in s.processes && q in s.processes && p != q ==> s.processes[p].identity != s.processes[q].identity)
    && (!s.dir ==> s.owner == NoOwner)
  }

  lemma OthersOutside(s: State, p: nat, q: nat)
    requires Inv(s) && p in s.processes && q in s.processes && p != q && s.guard == Some(p)
    ensures !Guarded(s.processes[q].pc)
  {
    assert ProcessOk(s, q);
  }

  /** With no record, or another's, nobody who is not in the guarded section can hold the lock. */
  lemma HoldersAreRecorded(s: State)
    requires Inv(s)
    ensures forall p :: p in s.processes && Holds(s.processes[p].pc) ==> s.dir && s.owner == Recorded(s.processes[p].identity)
  {
    forall p | p in s.processes && Holds(s.processes[p].pc) ensures s.dir && s.owner == Recorded(s.processes[p].identity) {
      assert ProcessOk(s, p);
    }
  }

  lemma SelfKeeps(s: State, p: nat, a: Action)
    requires Inv(s) && p in s.processes
    ensures var t := Step(s, p, a); p in t.processes && ProcessOk(t, p)
  {
    assert ProcessOk(s, p);
    if a.Judge? {
      JudgeKeeps(s, p, a.reportedAlive);
    } else if a.EnterRelease? || a.CheckRelease? || a.ReleaseOwner? || a.ReleaseDir? {
      ReleaseKeeps(s, p, a);
    } else {
      hide Inv, NobodyHolds, Holds, Lives, SameHostDifferentBoot;
    }
  }

  lemma ReleaseKeeps(s: State, p: nat, a: Action)
    requires p in s.processes && ProcessOk(s, p) && (a.EnterRelease? || a.CheckRelease? || a.ReleaseOwner? || a.ReleaseDir?)
    ensures var t := Step(s, p, a); p in t.processes && ProcessOk(t, p)
  {
    hide NobodyHolds, Lives, SameHostDifferentBoot;
  }

  /** A record that its reader finds dead is nobody's who holds the lock. */
  lemma JudgeKeeps(s: State, p: nat, reportedAlive: bool)
    requires Inv(s) && p in s.processes
    ensures var t := Step(s, p, Judge(p, reportedAlive)); p in t.processes && ProcessOk(t, p)
  {
    assert ProcessOk(s, p);
    HoldersAreRecorded(s);
    hide Inv;
  }

  /** While another process holds the lock, a step leaves directory and record alone. */
  lemma RecordStays(s: State, p: nat, q: nat, a: Action)
    requires p in s.processes && q in s.processes && ProcessOk(s, p) && ProcessOk(s, q)
    requires s.processes[p].identity != s.processes[q].identity && Holds(s.processes[q].pc)
    ensures Step(s, p, a).dir && Step(s, p, a).owner == s.owner
  {
  }

  /** A step moves nobody else, and changes nothing at all while another is in the guarded section, but for the
      place of a process outside it. */
  lemma OnlySelfMoves(s: State, p: nat, q: nat, a: Action)
    requires p in s.processes && q in s.processes && p != q && ProcessOk(s, p)
    ensures var t := Step(s, p, a);
            && q in t.processes && t.processes[q] == s.processes[q]
            && (s.guard == Some(q) ==> t == s)
  {
  }

  lemma OtherKeeps(s: State, p: nat, q: nat, a: Action)
    requires Inv(s) && p in s.processes && q in s.processes && p != q
    ensures var t := Step(s, p, a); q in t.processes && ProcessOk(t, q)
  {
    assert ProcessOk(s, p) && ProcessOk(s, q);
    OnlySelfMoves(s, p, q, a);
    if Holds(s.processes[q].pc) { RecordStays(s, p, q, a); }
    hide Inv, Step;
  }

  lemma StepShape(s: State, p: nat, a: Action)
    requires Inv(s) && p in s.processes
    ensures var t := Step(s, p, a);
            && (forall q :: q in t.processes <==> q in s.processes)
            && (forall q :: q in t.processes ==> t.processes[q].identity == s.processes[q].identity)
            && (!t.dir ==> t.owner == NoOwner)
  {
    assert ProcessOk(s, p);
  }

  lemma StepKeeps(s: State, p: nat, a: Action)
    requires Inv(s) && p in s.processes
    ensures Inv(Step(s, p, a))
  {
    var t := Step(s, p, a);
    StepShape(s, p, a);
    SelfKeeps(s, p, a);
    forall q | q in t.processes ensures ProcessOk(t, q) { if q != p { OtherKeeps(s, p, q, a); } }
    hide ProcessOk, Step;
  }

  lemma NextKeeps(s: State, a: Action)
    requires Inv(s)
    ensures Inv(Next(s, a))
  {
    var t := Next(s, a);
    match a {
      case Spawn(p, identity) =>
        forall q | q in t.processes ensures ProcessOk(t, q) { if q in s.processes { assert ProcessOk(s, q); } }
      case Crash(p) =>
        forall q | q in t.processes ensures ProcessOk(t, q) { assert ProcessOk(s, q); }
      case _ => if a.p in s.processes { StepKeeps(s, a.p, a); }
    }
  }

  lemma {:induction false} RunKeeps(s: State, actions: seq<Action>)
    requires Inv(s)
    ensures Inv(Run(s, actions))
    decreases |actions|
  {
    hide Inv, Next;
    if actions != [] {
      NextKeeps(s, actions[0]);
      RunKeeps(Next(s, actions[0]), actions[1..]);
    }
  }

  // ---------- Main results ----------

  /** Over any interleaving of acquisitions, reclaims, releases, failures and crashes, at most one live process
      holds the lock, and the owner on record is that process. */
  lemma {:induction false} MutuallyExclusive(actions: seq<Action>, p: nat, q: nat)
    requires var s := Run(INITIAL, actions); p in s.processes && q in s.processes && Holds(s.processes[p].pc) && Holds(s.processes[q].pc)
    ensures p == q
    ensures var s := Run(INITIAL, actions); s.dir && s.owner == Recorded(s.processes[p].identity)
  {
    RunKeeps(INITIAL, actions);
    HoldersAreRecorded(Run(INITIAL, actions));
  }

  /** Nobody takes a live holder's lock away: while it holds, no step of another process ends its holding or
      changes its record. */
  lemma HolderIsUndisturbed(s: State, a: Action, p: nat)
    requires Inv(s) && p in s.processes && Holds(s.processes[p].pc) && a.p != p
    ensures var t := Next(s, a); p in t.processes && t.processes[p] == s.processes[p] && t.owner == s.owner && t.dir
  {
    assert ProcessOk(s, p);
    if a.p in s.processes { assert ProcessOk(s, a.p); }
  }

  /** A release frees the lock for the next one to come. */
  lemma {:induction false} ReleaseFreesTheLock(s: State, p: nat)
    requires Inv(s) && p in s.processes && s.processes[p].pc.Held? && s.guard.None?
    ensures var t := Run(s, [EnterRelease(p), CheckRelease(p), ReleaseOwner(p, true), ReleaseDir(p, true)]);
            !t.dir && t.owner == NoOwner && t.guard.None? && p in t.processes && t.processes[p].pc.Gone?
  {
    assert ProcessOk(s, p);
    hide Inv, Run, ProcessOk;
    assert Next(s, EnterRelease(p)) == At(s, p, Releasing).(guard := Some(p));
    var s1 := At(s, p, Releasing).(guard := Some(p));
    assert Next(s1, CheckRelease(p)) == At(s1, p, ReleasingOwner);
    var s2 := At(s1, p, ReleasingOwner);
    assert Next(s2, ReleaseOwner(p, true)) == At(s2, p, ReleasingDir).(owner := NoOwner);
    RunOfFour(s, EnterRelease(p), CheckRelease(p), ReleaseOwner(p, true), ReleaseDir(p, true));
  }

  lemma {:induction false} RunOfFour(s: State, a: Action, b: Action, c: Action, d: Action)
    ensures Run(s, [a, b, c, d]) == Next(Next(Next(Next(s, a), b), c), d)
  {
    hide Next;
    assert [a, b, c, d][1..] == [b, c, d] && [b, c, d][1..] == [c, d] && [c, d][1..] == [d] && [d][1..] == [];
    var s1 := Next(s, a);
    var s2 := Next(s1, b);
    assert Run(s2, [c, d]) == Run(Next(s2, c), [d]) == Run(Next(Next(s2, c), d), []);
    assert Run(s1, [b, c, d]) == Run(s2, [c, d]);
  }
}
