/** Console lab grants: issuance, activation, revocation and guest actions under a lease for each grant and an
    enrollment fence, with failing writes and crashes at any step. */
module LabGrants {
  import opened Canonical
  import opened Receipts

  /** A grant binds the enrollment identity it was issued under. */
  datatype Grant = Grant(identity: nat, issuedAt: nat, expiresAt: nat)

  /** A create-once file: absent, reserved but not fully written, or written. */
  datatype Document = Absent | Partial | Written

  datatype Kind = Issue | Revoke | Execute

  datatype Pc =
    | Waiting
    | IssueStart
    | IssueAdmitting(grant: Grant, existing: bool)
    | IssueWriting(grant: Grant)
    | IssueReceipting
    | IssueAuditing
    | Activating
    | ActiveWriting
    | RevokeStart
    | RevokeAdmitting(existing: bool)
    | RevokeWriting
    | RevokeReceipting
    | RevokeAuditing
    | ExecuteStart
    | Preparing(grant: Grant)
    | Fencing(grant: Grant)
    | Checking(grant: Grant)
    | Checked(grant: Grant, at: nat)
    | Unlocking(ok: bool)
    | Ended(ok: bool)

  datatype Thread = Thread(kind: Kind, id: string, validFor: nat, pc: Pc)

  /** `checkedAt` is the instant of the final authority check. */
  datatype Dispatch = Dispatch(id: string, grant: Grant, checkedAt: nat)

  /** `grants` holds the contents of written grant documents; `revocations` and `dispatches` are history: the grants
      whose revocation succeeded, and the guest actions. */
  datatype State = State(
    threads: map<nat, Thread>, leases: map<string, nat>, fence: Option<nat>, enrollment: nat, now: nat,
    grants: map<string, Grant>, broken: set<string>, active: map<string, Document>, revoked: map<string, Document>,
    receipted: set<string>, audited: set<string>, revocations: set<string>, dispatches: seq<Dispatch>)

  datatype Action =
    | Begin(tid: nat, kind: Kind, id: string, validFor: nat)
    | Go(tid: nat, fate: Fate)
    | Enroll(identity: nat)
    | Tick(time: nat)
    | Crash(tid: nat)

  const INITIAL := State(map[], map[], None, 0, 0, map[], {}, map[], map[], {}, {}, {}, [])

  function Doc(docs: map<string, Document>, id: string): Document { if id in docs then docs[id] else Absent }

  /** `resolveLabBinding`: within validity, not revoked, and the enrollment is the one bound. */
  predicate Bound(s: State, id: string, g: Grant) {
    g.issuedAt <= s.now < g.expiresAt && Doc(s.revoked, id).Absent? && s.enrollment == g.identity
  }

  /** `requireActiveLabGrant` and the first check of an action. */
  predicate Authorized(s: State, id: string, g: Grant) { Bound(s, id, g) && Doc(s.active, id).Written? }

  function At(s: State, tid: nat, pc: Pc): State
    requires tid in s.threads
  {
    s.(threads := s.threads[tid := s.threads[tid].(pc := pc)])
  }

  /** A document's final write; a failure before it takes the reservation away. */
  function Settle(fate: Fate): Document { if fate.FailsBefore? then Absent else Written }

  /** Two maps agree but for one key. */
  ghost predicate SameBut<T>(a: map<string, T>, b: map<string, T>, id: string) {
    forall x :: x != id ==> (x in a <==> x in b) && (x in a ==> b[x] == a[x])
  }

  /** What a step of an issuance may touch. */
  ghost predicate Issuing(s: State, t: State, tid: nat, id: string)
    requires tid in s.threads
  {
    && t == s.(threads := t.threads, grants := t.grants, broken := t.broken, active := t.active, receipted := t.receipted, audited := t.audited)
    && SameBut(s.grants, t.grants, id) && SameBut(s.active, t.active, id)
    && s.receipted <= t.receipted && s.audited <= t.audited
    && tid in t.threads && t.threads == s.threads[tid := t.threads[tid]] && t.threads[tid].id == s.threads[tid].id
  }

  /** Up to the grant document. */
  function IssueDocument(s: State, tid: nat, th: Thread, fate: Fate): (t: State)
    requires tid in s.threads
    ensures Issuing(s, t, tid, th.id)
  {
    var id := th.id;
    match th.pc
    case IssueStart =>
      if !fate.Completes? || id in s.broken then At(s, tid, Unlocking(false))
      else if id in s.grants then
        At(s, tid, if Bound(s, id, s.grants[id]) && s.grants[id].expiresAt == s.grants[id].issuedAt + th.validFor
                   then IssueAdmitting(s.grants[id], true) else Unlocking(false))
      else At(s, tid, IssueAdmitting(Grant(s.enrollment, s.now, s.now + th.validFor), false))
    case IssueAdmitting(g, existing) =>
      if !fate.Completes? then At(s, tid, Unlocking(false))
      else if existing then At(s, tid, IssueReceipting)
      else At(s.(broken := s.broken + {id}), tid, IssueWriting(g))
    case IssueWriting(g) =>
      At(s.(broken := s.broken - {id}, grants := if fate.FailsBefore? then s.grants else s.grants[id := g]), tid,
         if fate.Completes? then IssueReceipting else Unlocking(false))
    case _ => s
  }

  /** `persistLabAuthority`. */
  function PersistAuthority(s: State, tid: nat, th: Thread, fate: Fate): (t: State)
    requires tid in s.threads
    ensures Issuing(s, t, tid, th.id)
  {
    var id := th.id;
    match th.pc
    case IssueReceipting =>
      At(if fate.FailsBefore? then s else s.(receipted := s.receipted + {id}), tid, if fate.Completes? then IssueAuditing else Unlocking(false))
    case IssueAuditing =>
      At(if fate.FailsBefore? then s else s.(audited := s.audited + {id}), tid, if fate.Completes? then Activating else Unlocking(false))
    case _ => s
  }

  function ActivateGrant(s: State, tid: nat, th: Thread, fate: Fate): (t: State)
    requires tid in s.threads
    ensures Issuing(s, t, tid, th.id)
  {
    var id := th.id;
    match th.pc
    case Activating =>
      if !Doc(s.active, id).Absent? then At(s, tid, Unlocking(Doc(s.active, id).Written?))
      else if fate.Completes? then At(s.(active := s.active[id := Partial]), tid, ActiveWriting)
      else At(s, tid, Unlocking(false))
    case ActiveWriting => At(s.(active := s.active[id := Settle(fate)]), tid, Unlocking(fate.Completes?))
    case _ => s
  }

  function StepIssue(s: State, tid: nat, th: Thread, fate: Fate): State
    requires tid in s.threads
  {
    if th.pc.IssueStart? || th.pc.IssueAdmitting? || th.pc.IssueWriting? then IssueDocument(s, tid, th, fate)
    else if th.pc.IssueReceipting? || th.pc.IssueAuditing? then PersistAuthority(s, tid, th, fate)
    else ActivateGrant(s, tid, th, fate)
  }

  function StepRevoke(s: State, tid: nat, th: Thread, fate: Fate): (t: State)
    requires tid in s.threads
    ensures t == s.(threads := t.threads, revoked := t.revoked) && SameBut(s.revoked, t.revoked, th.id)
    ensures tid in t.threads && t.threads == s.threads[tid := t.threads[tid]] && t.threads[tid].id == s.threads[tid].id
  {
    var id := th.id;
    match th.pc
    case RevokeStart =>
      if !fate.Completes? || id !in s.grants || Doc(s.revoked, id).Partial? then At(s, tid, Unlocking(false))
      else At(s, tid, RevokeAdmitting(Doc(s.revoked, id).Written?))
    case RevokeAdmitting(existing) =>
      if !fate.Completes? then At(s, tid, Unlocking(false))
      else if existing then At(s, tid, RevokeReceipting)
      else At(s.(revoked := s.revoked[id := Partial]), tid, RevokeWriting)
    case RevokeWriting => At(s.(revoked := s.revoked[id := Settle(fate)]), tid, if fate.Completes? then RevokeReceipting else Unlocking(false))
    case RevokeReceipting => At(s, tid, if fate.Completes? then RevokeAuditing else Unlocking(false))
    case RevokeAuditing => At(s, tid, Unlocking(fate.Completes?))
    case _ => s
  }

  function StepExecute(s: State, tid: nat, th: Thread, fate: Fate): (t: State)
    requires tid in s.threads
    ensures t == s.(threads := t.threads, fence := t.fence, dispatches := t.dispatches)
    ensures tid in t.threads && t.threads == s.threads[tid := t.threads[tid]] && t.threads[tid].id == s.threads[tid].id
  {
    var id := th.id;
    match th.pc
    case ExecuteStart =>
      At(s, tid, if fate.Completes? && id in s.grants && Authorized(s, id, s.grants[id]) then Preparing(s.grants[id]) else Unlocking(false))
    case Preparing(g) => At(s, tid, if fate.Completes? then Fencing(g) else Unlocking(false))
    case Fencing(g) => if s.fence.None? then At(s.(fence := Some(tid)), tid, Checking(g)) else s
    case Checking(g) =>
      if fate.Completes? && Authorized(s, id, g) then At(s, tid, Checked(g, s.now))
      else At(s.(fence := None), tid, Unlocking(false))
    case Checked(g, at) =>
      At(s.(fence := None, dispatches := s.dispatches + [Dispatch(id, g, at)]), tid, Unlocking(fate.Completes?))
    case _ => s
  }

  function StartOf(kind: Kind): Pc { match kind case Issue => IssueStart case Revoke => RevokeStart case Execute => ExecuteStart }

  function Step(s: State, tid: nat, fate: Fate): State
    requires tid in s.threads
  {
    var th := s.threads[tid];
    match th.pc
    case Waiting =>
      if th.id in s.leases then s else if !fate.Completes? then At(s, tid, Ended(false))
      else At(s.(leases := s.leases[th.id := tid]), tid, StartOf(th.kind))
    case Unlocking(ok) =>
      At(s.(leases := s.leases - {th.id}, revocations := if th.kind.Revoke? && ok then s.revocations + {th.id} else s.revocations), tid, Ended(ok))
    case Ended(_) => s
    case _ =>
      match th.kind
      case Issue => StepIssue(s, tid, th, fate)
      case Revoke => StepRevoke(s, tid, th, fate)
      case Execute => StepExecute(s, tid, th, fate)
  }

  /** A dead thread's lease and fence are free again. */
  function Next(s: State, a: Action): State {
    match a
    case Begin(tid, kind, id, validFor) => if tid in s.threads then s else s.(threads := s.threads[tid := Thread(kind, id, validFor, Waiting)])
    case Go(tid, fate) => if tid in s.threads then Step(s, tid, fate) else s
    case Enroll(identity) => if s.fence.None? then s.(enrollment := identity) else s
    case Tick(time) => if time >= s.now then s.(now := time) else s
    case Crash(tid) =>
      if tid !in s.threads then s
      else
        var id := s.threads[tid].id;
        s.(threads := s.threads - {tid}, fence := if s.fence == Some(tid) then None else s.fence,
           leases := if id in s.leases && s.leases[id] == tid then s.leases - {id} else s.leases)
  }

  function Run(s: State, actions: seq<Action>): State
    decreases |actions|
  {
    if actions == [] then s else Run(Next(s, actions[0]), actions[1..])
  }

  // ---------- The invariant ----------

  predicate Locked(pc: Pc) { !pc.Waiting? && !pc.Ended? }

  predicate KindOk(th: Thread) {
    var pc := th.pc;
    && (pc.IssueStart? || pc.IssueAdmitting? || pc.IssueWriting? || pc.IssueReceipting? || pc.IssueAuditing? || pc.Activating? || pc.ActiveWriting? ==> th.kind.Issue?)
    && (pc.RevokeStart? || pc.RevokeAdmitting? || pc.RevokeWriting? || pc.RevokeReceipting? || pc.RevokeAuditing? ==> th.kind.Revoke?)
    && (pc.ExecuteStart? || pc.Preparing? || pc.Fencing? || pc.Checking? || pc.Checked? ==> th.kind.Execute?)
  }

  predicate ThreadOk(s: State, tid: nat)
    requires tid in s.threads
  {
    var th := s.threads[tid];
    var id, pc := th.id, th.pc;
    && KindOk(th)
    && (Locked(pc) ==> id in s.leases && s.leases[id] == tid)
    && (pc.Checking? || pc.Checked? <==> s.fence == Some(tid))
    && match pc
       case IssueAdmitting(g, existing) => !existing ==> id !in s.grants
       case IssueWriting(g) => id !in s.grants
       case IssueAuditing => id in s.receipted
       case Activating => id in s.receipted && id in s.audited
       case ActiveWriting => id in s.receipted && id in s.audited && Doc(s.active, id).Partial?
       case RevokeAdmitting(existing) => Doc(s.revoked, id) == if existing then Written else Absent
       case RevokeWriting => Doc(s.revoked, id).Partial?
       case RevokeReceipting => Doc(s.revoked, id).Written?
       case RevokeAuditing => Doc(s.revoked, id).Written?
       case Preparing(g) => id in s.grants && s.grants[id] == g
       case Fencing(g) => id in s.grants && s.grants[id] == g
       case Checking(g) => id in s.grants && s.grants[id] == g
       case Checked(g, at) =>
         && id in s.grants && s.grants[id] == g && Doc(s.active, id).Written? && Doc(s.revoked, id).Absent?
         && s.enrollment == g.identity && g.issuedAt <= at < g.expiresAt && at <= s.now
       case Unlocking(ok) => th.kind.Revoke? && ok ==> Doc(s.revoked, id).Written?
       case _ => true
  }

  ghost predicate StoreOk(s: State) {
    && (forall id :: !Doc(s.active, id).Absent? ==> id in s.receipted && id in s.audited)
    && (forall id :: id in s.revocations ==> Doc(s.revoked, id).Written?)
    && (s.fence.Some? ==> s.fence.value in s.threads)
  }

  ghost predicate Inv(s: State) { StoreOk(s) && forall tid :: tid in s.threads ==> ThreadOk(s, tid) }

  /** What a thread may rely on while another one steps: its own grant's documents stay, its fence keeps the
      enrollment, and nothing durable is taken back. */
  ghost predicate Framed(s: State, t: State, id: string, fenced: bool) {
    && (id in s.leases ==> id in t.leases && t.leases[id] == s.leases[id])
    && (id in s.grants <==> id in t.grants) && (id in s.grants ==> t.grants[id] == s.grants[id])
    && Doc(t.active, id) == Doc(s.active, id) && Doc(t.revoked, id) == Doc(s.revoked, id)
    && s.receipted <= t.receipted && s.audited <= t.audited && s.now <= t.now
    && (fenced ==> t.enrollment == s.enrollment && t.fence == s.fence)
  }

  lemma FramedKeeps(s: State, t: State, tid: nat)
    requires tid in s.threads && ThreadOk(s, tid) && tid in t.threads && t.threads[tid] == s.threads[tid]
    requires Locked(s.threads[tid].pc) ==> Framed(s, t, s.threads[tid].id, s.fence == Some(tid))
    requires s.fence != Some(tid) ==> t.fence != Some(tid)
    ensures ThreadOk(t, tid)
  {
  }

  predicate Inside(pc: Pc) { Locked(pc) && !pc.Unlocking? }

  /** What one guarded step may touch: its own grant's documents and, if it holds the fence or takes a free one,
      the fence. */
  ghost predicate Own(s: State, t: State, tid: nat)
    requires tid in s.threads
  {
    var id := s.threads[tid].id;
    && tid in t.threads && t.threads == s.threads[tid := t.threads[tid]]
    && SameBut(s.leases, t.leases, id) && SameBut(s.grants, t.grants, id)
    && SameBut(s.active, t.active, id) && SameBut(s.revoked, t.revoked, id)
    && s.receipted <= t.receipted && s.audited <= t.audited && t.now == s.now && t.enrollment == s.enrollment
    && (t.fence == s.fence || (s.fence.None? && t.fence == Some(tid)) || (s.fence == Some(tid) && t.fence.None?))
  }

  lemma ExecuteOwn(s: State, tid: nat, fate: Fate)
    requires tid in s.threads && ThreadOk(s, tid)
    ensures Own(s, StepExecute(s, tid, s.threads[tid], fate), tid)
  {
  }

  lemma StepOwn(s: State, tid: nat, fate: Fate)
    requires tid in s.threads && ThreadOk(s, tid)
    ensures Own(s, Step(s, tid, fate), tid)
  {
    if Inside(s.threads[tid].pc) {
      hide StepIssue, StepRevoke, StepExecute, ThreadOk, Own;
      match s.threads[tid].kind {
        case Issue => IssueOwn(s, tid, fate);
        case Revoke => RevokeOwn(s, tid, fate);
        case Execute => ExecuteOwn(s, tid, fate);
      }
    } else {
      hide StepIssue, StepRevoke, StepExecute, ThreadOk;
    }
  }

  lemma IssueOwn(s: State, tid: nat, fate: Fate)
    requires tid in s.threads
    ensures Own(s, StepIssue(s, tid, s.threads[tid], fate), tid)
  {
    hide IssueDocument, PersistAuthority, ActivateGrant;
  }

  lemma RevokeOwn(s: State, tid: nat, fate: Fate)
    requires tid in s.threads
    ensures Own(s, StepRevoke(s, tid, s.threads[tid], fate), tid)
  {
    hide StepRevoke;
  }

  /** A step leaves every other lease holder's grant alone. */
  lemma StepFrames(s: State, tid: nat, fate: Fate, other: nat)
    requires tid in s.threads && other in s.threads && other != tid && ThreadOk(s, tid) && ThreadOk(s, other)
    ensures var t := Step(s, tid, fate);
            && other in t.threads && t.threads[other] == s.threads[other]
            && (Locked(s.threads[other].pc) ==> Framed(s, t, s.threads[other].id, s.fence == Some(other)))
            && (s.fence != Some(other) ==> t.fence != Some(other))
  {
    StepOwn(s, tid, fate);
    WaitingTakesFree(s, tid, fate);
    hide Step;
    if Locked(s.threads[other].pc) && s.threads[other].id == s.threads[tid].id { OneHolder(s, tid, other); }
  }

  /** A thread outside its lease changes no document, and takes only a free lease. */
  lemma WaitingTakesFree(s: State, tid: nat, fate: Fate)
    requires tid in s.threads
    ensures !Locked(s.threads[tid].pc) ==>
              var t := Step(s, tid, fate);
              && t.grants == s.grants && t.active == s.active && t.revoked == s.revoked
              && (s.threads[tid].id in s.leases ==> t.leases == s.leases)
  {
    hide StepIssue, StepRevoke, StepExecute;
  }

  lemma OneHolder(s: State, a: nat, b: nat)
    requires a in s.threads && b in s.threads && a != b && ThreadOk(s, a) && ThreadOk(s, b) && s.threads[a].id == s.threads[b].id
    ensures Locked(s.threads[b].pc) ==> !Locked(s.threads[a].pc) && s.threads[a].id in s.leases
  {
  }

  lemma IssueSelf(s: State, tid: nat, fate: Fate)
    requires Inv(s) && tid in s.threads && s.threads[tid].kind.Issue? && Inside(s.threads[tid].pc)
    ensures var t := StepIssue(s, tid, s.threads[tid], fate);
            && tid in t.threads && ThreadOk(t, tid) && StoreOk(t) && t.threads.Keys == s.threads.Keys && t.dispatches == s.dispatches
  {
    hide IssueDocument, PersistAuthority, ActivateGrant, ThreadOk, StoreOk;
    DocumentSelf(s, tid, fate);
    PersistSelf(s, tid, fate);
    ActivateSelf(s, tid, fate);
  }

  lemma DocumentSelf(s: State, tid: nat, fate: Fate)
    requires Inv(s) && tid in s.threads && s.threads[tid].kind.Issue? && Inside(s.threads[tid].pc)
    ensures var t := IssueDocument(s, tid, s.threads[tid], fate);
            tid in t.threads && ThreadOk(t, tid) && StoreOk(t)
  {
    assert ThreadOk(s, tid);
  }

  lemma PersistSelf(s: State, tid: nat, fate: Fate)
    requires Inv(s) && tid in s.threads && s.threads[tid].kind.Issue? && Inside(s.threads[tid].pc)
    ensures var t := PersistAuthority(s, tid, s.threads[tid], fate);
            tid in t.threads && ThreadOk(t, tid) && StoreOk(t)
  {
    assert ThreadOk(s, tid);
  }

  lemma ActivateSelf(s: State, tid: nat, fate: Fate)
    requires Inv(s) && tid in s.threads && s.threads[tid].kind.Issue? && Inside(s.threads[tid].pc)
    ensures var t := ActivateGrant(s, tid, s.threads[tid], fate);
            tid in t.threads && ThreadOk(t, tid) && StoreOk(t)
  {
    assert ThreadOk(s, tid);
  }

  lemma RevokeSelf(s: State, tid: nat, fate: Fate)
    requires Inv(s) && tid in s.threads && s.threads[tid].kind.Revoke? && Inside(s.threads[tid].pc)
    ensures var t := StepRevoke(s, tid, s.threads[tid], fate);
            && tid in t.threads && ThreadOk(t, tid) && StoreOk(t) && t.threads.Keys == s.threads.Keys && t.dispatches == s.dispatches
  {
    assert ThreadOk(s, tid);
  }

  lemma ExecuteSelf(s: State, tid: nat, fate: Fate)
    requires Inv(s) && tid in s.threads && s.threads[tid].kind.Execute? && Inside(s.threads[tid].pc)
    ensures var t := StepExecute(s, tid, s.threads[tid], fate);
            && tid in t.threads && ThreadOk(t, tid) && StoreOk(t) && t.threads.Keys == s.threads.Keys
            && (t.dispatches == s.dispatches || exists d :: t.dispatches == s.dispatches + [d] && LiveDispatch(s, d))
  {
    assert ThreadOk(s, tid);
    var pc := s.threads[tid].pc;
    if pc.Checked? {
      var d := Dispatch(s.threads[tid].id, pc.grant, pc.at);
      assert LiveDispatch(s, d);
    }
  }

  /** Places that rely on nothing but the lease. */
  predicate Plain(th: Thread) { th.pc.Waiting? || th.pc.Ended? || th.pc == StartOf(th.kind) }

  lemma PlainOk(t: State, tid: nat)
    requires tid in t.threads && Plain(t.threads[tid]) && t.fence != Some(tid)
    requires Locked(t.threads[tid].pc) ==> t.threads[tid].id in t.leases && t.leases[t.threads[tid].id] == tid
    ensures ThreadOk(t, tid)
  {
  }

  lemma OutsideOk(s: State, tid: nat)
    requires tid in s.threads && ThreadOk(s, tid) && !Inside(s.threads[tid].pc)
    ensures s.fence != Some(tid)
    ensures s.threads[tid].pc.Unlocking? && s.threads[tid].pc.ok && s.threads[tid].kind.Revoke? ==> Doc(s.revoked, s.threads[tid].id).Written?
  {
  }

  /** Taking and giving back the lease. */
  lemma OutsideStep(s: State, tid: nat, fate: Fate)
    requires tid in s.threads && !Inside(s.threads[tid].pc)
    ensures var t := Step(s, tid, fate);
            var th := s.threads[tid];
            && t == s.(threads := t.threads, leases := t.leases, revocations := t.revocations)
            && t.threads.Keys == s.threads.Keys && Plain(t.threads[tid])
            && (Locked(t.threads[tid].pc) ==> t.threads[tid].id in t.leases && t.leases[t.threads[tid].id] == tid)
            && (forall id :: id in t.revocations ==> id in s.revocations || (id == th.id && th.kind.Revoke? && th.pc == Unlocking(true)))
  {
    hide StepIssue, StepRevoke, StepExecute;
  }

  lemma OutsideSelf(s: State, tid: nat, fate: Fate)
    requires Inv(s) && tid in s.threads && !Inside(s.threads[tid].pc)
    ensures var t := Step(s, tid, fate);
            && tid in t.threads && ThreadOk(t, tid) && StoreOk(t) && t.threads.Keys == s.threads.Keys && t.dispatches == s.dispatches
  {
    hide Step, ThreadOk, Plain;
    OutsideOk(s, tid);
    OutsideStep(s, tid, fate);
    PlainOk(Step(s, tid, fate), tid);
  }

  lemma StepSelf(s: State, tid: nat, fate: Fate)
    requires Inv(s) && tid in s.threads
    ensures var t := Step(s, tid, fate);
            && tid in t.threads && ThreadOk(t, tid) && StoreOk(t) && t.threads.Keys == s.threads.Keys
            && (t.dispatches == s.dispatches || exists d :: t.dispatches == s.dispatches + [d] && LiveDispatch(s, d))
  {
    if Inside(s.threads[tid].pc) {
      match s.threads[tid].kind {
        case Issue => IssueSelf(s, tid, fate);
        case Revoke => RevokeSelf(s, tid, fate);
        case Execute => ExecuteSelf(s, tid, fate);
      }
    } else {
      OutsideSelf(s, tid, fate);
    }
    hide StepIssue, StepRevoke, StepExecute, ThreadOk, StoreOk, Inv, LiveDispatch;
  }

  lemma NextKeeps(s: State, a: Action)
    requires Inv(s)
    ensures Inv(Next(s, a))
  {
    hide Inv, Next;
    if a.Go? { GoKeeps(s, a.tid, a.fate); } else { WorldKeeps(s, a); }
  }

  lemma GoKeeps(s: State, tid: nat, fate: Fate)
    requires Inv(s)
    ensures Inv(Next(s, Go(tid, fate)))
  {
    var t := Next(s, Go(tid, fate));
    hide Step, ThreadOk, StoreOk, Framed;
    if tid in s.threads {
      StepSelf(s, tid, fate);
      forall other | other in t.threads ensures ThreadOk(t, other) {
        if other != tid {
          StepFrames(s, tid, fate, other);
          FramedKeeps(s, t, other);
        }
      }
    }
  }

  lemma WorldKeeps(s: State, a: Action)
    requires Inv(s) && !a.Go?
    ensures Inv(Next(s, a))
  {
    hide ThreadOk;
    forall other | other in Next(s, a).threads ensures ThreadOk(Next(s, a), other) {
      WorldThread(s, a, other);
    }
  }

  lemma WorldThread(s: State, a: Action, other: nat)
    requires Inv(s) && !a.Go? && other in Next(s, a).threads
    ensures ThreadOk(Next(s, a), other)
  {
    var t := Next(s, a);
    if other in s.threads {
      assert ThreadOk(s, other);
      WorldFrames(s, a, other);
      hide ThreadOk, Next, Framed;
      FramedKeeps(s, t, other);
    } else {
      PlainOk(t, other);
    }
  }

  lemma WorldFrames(s: State, a: Action, other: nat)
    requires StoreOk(s) && other in s.threads && ThreadOk(s, other) && !a.Go? && other in Next(s, a).threads
    ensures var t := Next(s, a);
            && t.threads[other] == s.threads[other]
            && (Locked(s.threads[other].pc) ==> Framed(s, t, s.threads[other].id, s.fence == Some(other)))
            && (s.fence != Some(other) ==> t.fence != Some(other))
  {
  }

  lemma {:induction false} RunKeeps(s: State, actions: seq<Action>)
    requires Inv(s)
    ensures Inv(Run(s, actions))
    decreases |actions|
  {
    hide Inv, Next;
    if actions != [] {
      NextKeeps(s, actions[0]);
      RunKeeps(Next(s, actions[0]), actions[1..]);
    }
  }

  // ---------- Main results ----------

  /** Whatever runs beside it, an action is dispatched only while its grant is active and not revoked, bound to the
      current enrollment, checked within its validity, and with its issuance receipt and audit durable. */
  lemma {:induction false} DispatchNeedsLiveGrant(actions: seq<Action>, a: Action)
    requires var s := Run(INITIAL, actions); Next(s, a).dispatches != s.dispatches
    ensures var s := Run(INITIAL, actions);
            exists d :: Next(s, a).dispatches == s.dispatches + [d] && LiveDispatch(s, d)
  {
    RunKeeps(INITIAL, actions);
    var s := Run(INITIAL, actions);
    DispatchStep(s, a);
  }

  predicate LiveDispatch(s: State, d: Dispatch) {
    && d.id in s.grants && s.grants[d.id] == d.grant
    && Doc(s.active, d.id).Written? && d.id in s.receipted && d.id in s.audited
    && Doc(s.revoked, d.id).Absent? && d.id !in s.revocations
    && s.enrollment == d.grant.identity && d.grant.issuedAt <= d.checkedAt < d.grant.expiresAt && d.checkedAt <= s.now
  }

  lemma DispatchStep(s: State, a: Action)
    requires Inv(s) && Next(s, a).dispatches != s.dispatches
    ensures exists d :: Next(s, a).dispatches == s.dispatches + [d] && LiveDispatch(s, d)
  {
    hide Step, LiveDispatch;
    StepSelf(s, a.tid, a.fate);
  }

  lemma RevocationStays(s: State, a: Action, id: string)
    requires id in s.revocations
    ensures id in Next(s, a).revocations
  {
    hide IssueDocument, PersistAuthority, ActivateGrant, StepRevoke, StepExecute;
  }

  /** Once a revocation has succeeded no action of the grant is ever dispatched. */
  lemma {:induction false} NoDispatchAfterRevoke(s: State, actions: seq<Action>, id: string)
    requires Inv(s) && id in s.revocations
    ensures var t := Run(s, actions);
            && s.dispatches <= t.dispatches && id in t.revocations
            && forall i :: |s.dispatches| <= i < |t.dispatches| ==> t.dispatches[i].id != id
    decreases |actions|
  {
    hide Inv, Next;
    if actions != [] {
      var t := Next(s, actions[0]);
      NextKeeps(s, actions[0]);
      RevocationStays(s, actions[0], id);
      if t.dispatches != s.dispatches { DispatchStep(s, actions[0]); }
      NoDispatchAfterRevoke(t, actions[1..], id);
    }
  }

  /** An activation, even a half-written one, means that the issuance receipt and its terminal event are durable. */
  lemma {:induction false} ActivationImpliesEvidence(actions: seq<Action>, id: string)
    requires !Doc(Run(INITIAL, actions).active, id).Absent?
    ensures id in Run(INITIAL, actions).receipted && id in Run(INITIAL, actions).audited
  {
    RunKeeps(INITIAL, actions);
  }
}
