/** Publication of recording snapshots by rename under a marker, with one writer that may fail or crash between
    any two steps, any number of readers, and pruning of expired recordings. */
module RecordingSnapshots {
  import opened ByteStrings

  /** `body` stands for the rest of a document; all documents of a recording expire together. */
  datatype Doc = Doc(sequence: nat, body: string)

  /** The content of the pending file: created, or written whole. */
  datatype Pending = NoPending | Partial | Whole(doc: Doc)

  datatype Writer = Resting | Marked(doc: Doc) | Created(doc: Doc) | Written(doc: Doc) | Renamed(doc: Doc) | Crashed

  /** `published` at the first marker check goes with the reader as history. */
  datatype Reader =
    | Begun
    | Checked(before: set<nat>)
    | Listing(before: set<nat>, must: set<nat>, seen: set<nat>)
    | Listed(before: set<nat>, name: nat)
    | Loaded(before: set<nat>, doc: Doc)
    | Trusted(before: set<nat>, doc: Doc)
    | Answered(before: set<nat>, doc: Doc)
    | Inconclusive

  /** `published` is history: the documents whose marker has been removed, under their sequence numbers. */
  datatype State = State(
    files: map<nat, Doc>, marker: bool, pending: Pending, writer: Writer, tried: int,
    published: map<nat, Doc>, now: nat, expiresAt: nat, readers: map<nat, Reader>)

  datatype Action =
    | Publish(doc: Doc, reached: bool)
    | CreatePending(ok: bool)
    | WritePending(ok: bool)
    | Rename(ok: bool)
    | Unmark(ok: bool)
    | Crash
    | Tick(time: nat)
    | Prune(sequence: nat)
    | Begin(rid: nat)
    | FirstCheck(rid: nat)
    | OpenListing(rid: nat)
    | SeeName(rid: nat, sequence: nat)
    | SeeMarker(rid: nat)
    | EndListing(rid: nat)
    | Load(rid: nat)
    | SecondCheck(rid: nat)
    | Answer(rid: nat)

  const MAX_SEQUENCE := 61

  function Start(expiresAt: nat): State { State(map[], false, NoPending, Resting, -1, map[], 0, expiresAt, map[]) }

  /** Any failure after the marker leaves the marker and takes the pending file away. */
  function Abandon(s: State): State { s.(writer := Resting, pending := NoPending) }

  function WriterStep(s: State, a: Action): State {
    match a
    case Publish(doc, reached) =>
      if !s.writer.Resting? || doc.sequence <= s.tried then s
      else if doc.sequence in s.files || doc.sequence > MAX_SEQUENCE || s.marker || !reached then s.(tried := doc.sequence)
      else s.(tried := doc.sequence, marker := true, writer := Marked(doc))
    case CreatePending(ok) =>
      if !s.writer.Marked? then s
      else if !ok || !s.pending.NoPending? then s.(writer := Resting)
      else s.(pending := Partial, writer := Created(s.writer.doc))
    case WritePending(ok) =>
      if !s.writer.Created? then s else if !ok then Abandon(s) else s.(pending := Whole(s.writer.doc), writer := Written(s.writer.doc))
    case Rename(ok) =>
      if !s.writer.Written? || !s.pending.Whole? then s
      else if !ok then Abandon(s)
      else s.(pending := NoPending, files := s.files[s.writer.doc.sequence := s.pending.doc], writer := Renamed(s.writer.doc))
    case Unmark(ok) =>
      if !s.writer.Renamed? then s
      else if !ok then s.(writer := Resting)
      else s.(marker := false, writer := Resting, published := s.published[s.writer.doc.sequence := s.writer.doc])
    case _ => s
  }

  function At(s: State, rid: nat, r: Reader): State { s.(readers := s.readers[rid := r]) }

  predicate Newest(name: nat, seen: set<nat>) { name in seen && forall n :: n in seen ==> n <= name }

  ghost function ReaderStep(s: State, rid: nat, r: Reader, a: Action): State {
    match (a, r)
    case (FirstCheck(_), Begun) => At(s, rid, if s.marker then Inconclusive else Checked(s.published.Keys))
    case (OpenListing(_), Checked(before)) => At(s, rid, Listing(before, s.files.Keys, {}))
    case (SeeName(_, n), Listing(before, must, seen)) => if n in s.files then At(s, rid, Listing(before, must, seen + {n})) else s
    case (SeeMarker(_), Listing(_, _, _)) => if s.marker then At(s, rid, Inconclusive) else s
    case (EndListing(_), Listing(before, must, seen)) =>
      if !(must * s.files.Keys <= seen) then s
      else if exists n :: Newest(n, seen) then
        var n :| Newest(n, seen);
        At(s, rid, Listed(before, n))
      else At(s, rid, Inconclusive)
    case (Load(_), Listed(before, name)) =>
      At(s, rid, if name in s.files && s.files[name].sequence == name then Loaded(before, s.files[name]) else Inconclusive)
    case (SecondCheck(_), Loaded(before, doc)) => At(s, rid, if s.marker then Inconclusive else Trusted(before, doc))
    case (Answer(_), Trusted(before, doc)) => At(s, rid, if s.now < s.expiresAt then Answered(before, doc) else Inconclusive)
    case _ => s
  }

  /** Listings return every name that was there all along, and any others that were there at some point. */
  ghost function Next(s: State, a: Action): State {
    match a
    case Crash => s.(writer := Crashed)
    case Tick(time) => if time >= s.now then s.(now := time) else s
    case Prune(n) => if s.now >= s.expiresAt then s.(files := s.files - {n}) else s
    case Begin(rid) => if rid in s.readers then s else At(s, rid, Begun)
    case Publish(_, _) => WriterStep(s, a)
    case CreatePending(_) => WriterStep(s, a)
    case WritePending(_) => WriterStep(s, a)
    case Rename(_) => WriterStep(s, a)
    case Unmark(_) => WriterStep(s, a)
    case _ => if a.rid in s.readers then ReaderStep(s, a.rid, s.readers[a.rid], a) else s
  }

  ghost function Run(s: State, actions: seq<Action>): State
    decreases |actions|
  {
    if actions == [] then s else Run(Next(s, actions[0]), actions[1..])
  }

  // ---------- The invariant ----------

  predicate Unpublished(s: State, doc: Doc) { doc.sequence !in s.published && doc.sequence <= s.tried }

  predicate WriterOk(s: State) {
    match s.writer
    case Resting => true
    case Crashed => true
    case Marked(doc) => s.marker && Unpublished(s, doc) && doc.sequence !in s.files && OnlyHidden(s, doc)
    case Created(doc) => s.marker && Unpublished(s, doc) && doc.sequence !in s.files && OnlyHidden(s, doc)
    case Written(doc) => s.marker && Unpublished(s, doc) && doc.sequence !in s.files && OnlyHidden(s, doc) && s.pending == Whole(doc)
    case Renamed(doc) =>
      && s.marker && Unpublished(s, doc) && OnlyHidden(s, doc) && (doc.sequence in s.files ==> s.files[doc.sequence] == doc)
      && (s.now < s.expiresAt ==> doc.sequence in s.files)
  }

  /** Everything visible is published, except what is being published. */
  predicate OnlyHidden(s: State, doc: Doc) { forall n :: n in s.files ==> n in s.published || n == doc.sequence }

  /** What is visible and not yet published hides behind the marker. */
  ghost predicate DirectoryOk(s: State) {
    && (forall n :: n in s.files ==> s.files[n].sequence == n && n <= s.tried)
    && (forall n :: n in s.published ==> s.published[n].sequence == n && n <= s.tried)
    && (forall n :: n in s.files && n in s.published ==> s.files[n] == s.published[n])
    && (!s.marker ==> forall n :: n in s.files ==> n in s.published)
    && (s.now < s.expiresAt ==> forall n :: n in s.published ==> n in s.files)
  }

  /** A published document, of a sequence no smaller than any that was published at the reader's first check. */
  ghost predicate Fresh(s: State, before: set<nat>, doc: Doc) {
    && doc.sequence in s.published && s.published[doc.sequence] == doc
    && forall n :: n in before ==> n <= doc.sequence
  }

  ghost predicate ReaderOk(s: State, r: Reader) {
    match r
    case Begun => true
    case Inconclusive => true
    case Checked(before) => before <= s.published.Keys
    case Listing(before, must, seen) => s.now < s.expiresAt ==> before <= must && must <= s.files.Keys && seen <= s.files.Keys
    case Listed(before, name) => s.now < s.expiresAt ==> name in s.files && forall n :: n in before ==> n <= name
    case Loaded(before, doc) =>
      s.now < s.expiresAt ==> doc.sequence in s.files && s.files[doc.sequence] == doc && forall n :: n in before ==> n <= doc.sequence
    case Trusted(before, doc) => s.now < s.expiresAt ==> Fresh(s, before, doc)
    case Answered(before, doc) => Fresh(s, before, doc)
  }

  ghost predicate Inv(s: State) {
    WriterOk(s) && DirectoryOk(s) && forall rid :: rid in s.readers ==> ReaderOk(s, s.readers[rid])
  }

  // ---------- Each kind of step ----------

  /** What readers rely on: before expiry no visible file goes or changes, and what is published stays so. */
  ghost predicate Grows(s: State, t: State) {
    && t.readers == s.readers && t.expiresAt == s.expiresAt && s.now <= t.now
    && (t.now < t.expiresAt ==> forall n :: n in s.files ==> n in t.files && t.files[n] == s.files[n])
    && (forall n :: n in s.published ==> n in t.published && t.published[n] == s.published[n])
  }

  lemma ReadersKeep(s: State, t: State)
    requires (forall rid :: rid in s.readers ==> ReaderOk(s, s.readers[rid])) && Grows(s, t)
    ensures forall rid :: rid in t.readers ==> ReaderOk(t, t.readers[rid])
  {
    forall rid | rid in t.readers ensures ReaderOk(t, t.readers[rid]) { assert ReaderOk(s, s.readers[rid]); }
  }

  lemma WriterKeeps(s: State, a: Action)
    requires Inv(s)
    ensures Inv(WriterStep(s, a))
  {
    WriterGrows(s, a);
    WriterDirectory(s, a);
    hide ReaderOk, WriterStep, WriterOk, DirectoryOk, Grows;
    ReadersKeep(s, WriterStep(s, a));
  }

  lemma WriterGrows(s: State, a: Action)
    requires WriterOk(s) && DirectoryOk(s)
    ensures Grows(s, WriterStep(s, a))
  {
  }

  lemma WriterDirectory(s: State, a: Action)
    requires WriterOk(s) && DirectoryOk(s)
    ensures WriterOk(WriterStep(s, a)) && DirectoryOk(WriterStep(s, a))
  {
  }

  lemma WorldKeeps(s: State, a: Action)
    requires Inv(s) && (a.Crash? || a.Tick? || a.Prune?)
    ensures Inv(Next(s, a))
  {
    hide ReaderOk;
    ReadersKeep(s, Next(s, a));
  }

  lemma ReaderKeeps(s: State, rid: nat, a: Action)
    requires Inv(s) && rid in s.readers
    ensures Inv(ReaderStep(s, rid, s.readers[rid], a))
  {
    hide ReaderOk, ReaderStep;
    assert ReaderOk(s, s.readers[rid]);
    ReaderMoves(s, rid, a);
    ReaderLeavesOthers(s, rid, a);
    var t := ReaderStep(s, rid, s.readers[rid], a);
    forall other | other in t.readers ensures ReaderOk(t, t.readers[other]) {
      if other != rid { OtherReader(s, t, s.readers[other]); }
    }
  }

  lemma ReaderLeavesOthers(s: State, rid: nat, a: Action)
    requires rid in s.readers
    ensures var t := ReaderStep(s, rid, s.readers[rid], a);
            t.readers.Keys == s.readers.Keys && forall other :: other in s.readers && other != rid ==> t.readers[other] == s.readers[other]
  {
  }

  lemma OtherReader(s: State, t: State, r: Reader)
    requires ReaderOk(s, r) && t == s.(readers := t.readers)
    ensures ReaderOk(t, r)
  {
  }

  lemma ReaderMoves(s: State, rid: nat, a: Action)
    requires Inv(s) && rid in s.readers && ReaderOk(s, s.readers[rid])
    ensures var t := ReaderStep(s, rid, s.readers[rid], a); t == s.(readers := t.readers) && rid in t.readers && ReaderOk(t, t.readers[rid])
  {
    var r := s.readers[rid];
    if a.EndListing? && r.Listing? && s.now < s.expiresAt {
      forall b | b in r.before && r.must * s.files.Keys <= r.seen ensures b in r.seen { assert b in r.must * s.files.Keys; }
    }
  }

  lemma NextKeeps(s: State, a: Action)
    requires Inv(s)
    ensures Inv(Next(s, a))
  {
    hide WriterStep, ReaderStep;
    match a {
      case Begin(rid) =>
        if rid !in s.readers {
          forall other | other in s.readers ensures ReaderOk(Next(s, a), s.readers[other]) { OtherReader(s, Next(s, a), s.readers[other]); }
        }
      case Publish(_, _) => WriterKeeps(s, a);
      case CreatePending(_) => WriterKeeps(s, a);
      case WritePending(_) => WriterKeeps(s, a);
      case Rename(_) => WriterKeeps(s, a);
      case Unmark(_) => WriterKeeps(s, a);
      case Crash => WorldKeeps(s, a);
      case Tick(_) => WorldKeeps(s, a);
      case Prune(_) => WorldKeeps(s, a);
      case _ => if a.rid in s.readers { ReaderKeeps(s, a.rid, a); }
    }
  }

  lemma {:induction false} RunKeeps(s: State, actions: seq<Action>)
    requires Inv(s)
    ensures Inv(Run(s, actions))
    decreases |actions|
  {
    hide Inv, Next;
    if actions != [] {
      NextKeeps(s, actions[0]);
      RunKeeps(Next(s, actions[0]), actions[1..]);
    }
  }

  // ---------- Main results ----------

  /** Over any interleaving of the writer, its failures and crash, readers and pruning: an answer is a whole
      document that the writer published, and no older than the newest published at the reader's first check. */
  lemma {:induction false} AnswersArePublishedAndRecent(expiresAt: nat, actions: seq<Action>, rid: nat)
    requires var s := Run(Start(expiresAt), actions); rid in s.readers && s.readers[rid].Answered?
    ensures var s := Run(Start(expiresAt), actions); Fresh(s, s.readers[rid].before, s.readers[rid].doc)
  {
    RunKeeps(Start(expiresAt), actions);
    var s := Run(Start(expiresAt), actions);
    assert ReaderOk(s, s.readers[rid]);
  }

  /** The publication had finished when the marker was checked the second time. */
  lemma PublishedBeforeSecondCheck(s: State, rid: nat)
    requires Inv(s) && rid in s.readers && s.readers[rid].Loaded? && s.now < s.expiresAt
    requires Next(s, SecondCheck(rid)).readers[rid].Trusted?
    ensures var doc := s.readers[rid].doc; doc.sequence in s.published && s.published[doc.sequence] == doc
  {
    assert ReaderOk(s, s.readers[rid]);
  }

  lemma MarkerStays(s: State, a: Action)
    requires s.marker && (s.writer.Resting? || s.writer.Crashed?)
    ensures var t := Next(s, a); t.marker && t.published == s.published && (t.writer.Resting? || t.writer.Crashed?)
  {
  }

  /** Whatever fails or crashes once the marker is up, later readers learn nothing instead of something doubtful. */
  lemma {:induction false} FailedPublicationStaysInconclusive(s: State, actions: seq<Action>)
    requires s.marker && (s.writer.Resting? || s.writer.Crashed?)
    ensures var t := Run(s, actions); t.marker && t.published == s.published
    decreases |actions|
  {
    hide Next;
    if actions != [] {
      MarkerStays(s, actions[0]);
      FailedPublicationStaysInconclusive(Next(s, actions[0]), actions[1..]);
    }
  }

  // ---------- Unhindered publications and reads ----------

  lemma {:induction false} RunSnoc(s: State, actions: seq<Action>, a: Action)
    ensures Run(s, actions + [a]) == Next(Run(s, actions), a)
    decreases |actions|
  {
    hide Next;
    if actions == [] {
      assert [] + [a] == [a] && [a][1..] == [];
      assert Run(s, [a]) == Run(Next(s, a), []);
    } else {
      assert (actions + [a])[1..] == actions[1..] + [a];
      RunSnoc(Next(s, actions[0]), actions[1..], a);
    }
  }

  /** A publication that nothing hinders makes its document visible and published, and takes the marker away again. */
  lemma {:induction false} PublicationShows(s: State, doc: Doc)
    requires s.writer.Resting? && !s.marker && s.pending.NoPending?
    requires s.tried < doc.sequence <= MAX_SEQUENCE && doc.sequence !in s.files
    ensures Run(s, [Publish(doc, true), CreatePending(true), WritePending(true), Rename(true), Unmark(true)]) ==
            s.(files := s.files[doc.sequence := doc], published := s.published[doc.sequence := doc], tried := doc.sequence)
  {
    var a := [Publish(doc, true), CreatePending(true), WritePending(true), Rename(true), Unmark(true)];
    RunSnoc(s, [], a[0]);
    RunSnoc(s, [a[0]], a[1]);
    RunSnoc(s, [a[0], a[1]], a[2]);
    RunSnoc(s, [a[0], a[1], a[2]], a[3]);
    RunSnoc(s, [a[0], a[1], a[2], a[3]], a[4]);
    assert [] + [a[0]] == [a[0]] && [a[0]] + [a[1]] == [a[0], a[1]] && [a[0], a[1]] + [a[2]] == [a[0], a[1], a[2]];
    assert [a[0], a[1], a[2]] + [a[3]] == [a[0], a[1], a[2], a[3]] && [a[0], a[1], a[2], a[3]] + [a[4]] == a;
    assert Run(s, []) == s;
    hide Run;
  }

  lemma {:induction false} SeesAll(s: State, rid: nat, before: set<nat>, must: set<nat>, names: set<nat>) returns (actions: seq<Action>)
    requires rid in s.readers && s.readers[rid] == Listing(before, must, {}) && names <= s.files.Keys
    ensures Run(s, actions) == At(s, rid, Listing(before, must, names))
    decreases |names|
  {
    if names == {} {
      actions := [];
      assert s.readers[rid := Listing(before, must, {})] == s.readers;
    } else {
      var n :| n in names;
      var rest := SeesAll(s, rid, before, must, names - {n});
      actions := rest + [SeeName(rid, n)];
      RunSnoc(s, rest, SeeName(rid, n));
      assert names - {n} + {n} == names;
      hide Run;
    }
  }

  lemma EndsAtNewest(s: State, rid: nat, before: set<nat>, name: nat)
    requires rid in s.readers && s.readers[rid] == Listing(before, s.files.Keys, s.files.Keys) && Newest(name, s.files.Keys)
    ensures Next(s, EndListing(rid)) == At(s, rid, Listed(before, name))
  {
    assert s.files.Keys * s.files.Keys <= s.files.Keys;
  }

  lemma {:induction false} OpensListing(s: State, rid: nat)
    requires rid !in s.readers && !s.marker
    ensures Run(s, [Begin(rid), FirstCheck(rid), OpenListing(rid)]) == At(s, rid, Listing(s.published.Keys, s.files.Keys, {}))
  {
    var a := [Begin(rid), FirstCheck(rid), OpenListing(rid)];
    RunSnoc(s, [], a[0]);
    RunSnoc(s, [a[0]], a[1]);
    RunSnoc(s, [a[0], a[1]], a[2]);
    assert [] + [a[0]] == [a[0]] && [a[0]] + [a[1]] == [a[0], a[1]] && [a[0], a[1]] + [a[2]] == a;
    assert Run(s, []) == s;
    hide Run;
    assert At(At(At(s, rid, Begun), rid, Checked(s.published.Keys)), rid, Listing(s.published.Keys, s.files.Keys, {}))
        == At(s, rid, Listing(s.published.Keys, s.files.Keys, {}));
  }

  lemma {:induction false} LoadsAndAnswers(s: State, rid: nat, before: set<nat>, name: nat)
    requires rid in s.readers && s.readers[rid] == Listed(before, name) && !s.marker && s.now < s.expiresAt
    requires name in s.files && s.files[name].sequence == name
    ensures var t := Run(s, [Load(rid), SecondCheck(rid), Answer(rid)]); rid in t.readers && t.readers[rid] == Answered(before, s.files[name])
  {
    var a := [Load(rid), SecondCheck(rid), Answer(rid)];
    RunSnoc(s, [], a[0]);
    RunSnoc(s, [a[0]], a[1]);
    RunSnoc(s, [a[0], a[1]], a[2]);
    assert [] + [a[0]] == [a[0]] && [a[0]] + [a[1]] == [a[0], a[1]] && [a[0], a[1]] + [a[2]] == a;
    assert Run(s, []) == s;
    hide Run;
  }

  lemma {:induction false} RunJoins(s: State, a: seq<Action>, b: seq<Action>)
    ensures Run(s, a + b) == Run(Run(s, a), b)
    decreases |a|
  {
    hide Next;
    if a == [] {
      assert a + b == b;
    } else {
      assert (a + b)[1..] == a[1..] + b;
      RunJoins(Next(s, a[0]), a[1..], b);
    }
  }

  /** A read that meets no publication, before the recording expires, can end with the newest visible document. */
  lemma {:induction false} QuietReadAnswersNewest(s: State, rid: nat, name: nat)
    requires Inv(s) && rid !in s.readers && !s.marker && s.now < s.expiresAt && Newest(name, s.files.Keys)
    ensures exists actions :: var t := Run(s, actions); rid in t.readers && t.readers[rid] == Answered(s.published.Keys, s.files[name])
  {
    hide Run, Next, ReaderOk, WriterOk;
    var opens := [Begin(rid), FirstCheck(rid), OpenListing(rid)];
    var last := [Load(rid), SecondCheck(rid), Answer(rid)];
    OpensListing(s, rid);
    var s1 := Run(s, opens);
    var sees := SeesAll(s1, rid, s.published.Keys, s.files.Keys, s.files.Keys);
    var s2 := Run(s1, sees);
    EndsAtNewest(s2, rid, s.published.Keys, name);
    RunSnoc(s1, sees, EndListing(rid));
    var s3 := Next(s2, EndListing(rid));
    LoadsAndAnswers(s3, rid, s.published.Keys, name);
    RunJoins(s1, sees + [EndListing(rid)], last);
    RunJoins(s, opens, (sees + [EndListing(rid)]) + last);
    assert Run(s, opens + ((sees + [EndListing(rid)]) + last)) == Run(s3, last);
  }

  // ---------- Names ----------

  /** The two-digit name of a snapshot. */
  function Name(n: nat): string
    requires n < 100
  {
    [('0' as int + n / 10) as char, ('0' as int + n % 10) as char] + ".json"
  }

  predicate SnapshotName(name: string) { exists n :: 0 <= n <= MAX_SEQUENCE && name == Name(n) }

  /** The order of names is the order of sequence numbers. */
  lemma NamesInOrder(a: nat, b: nat)
    requires a < 100 && b < 100
    ensures Less(Name(a), Name(b)) <==> a < b
    ensures Name(a) == Name(b) <==> a == b
  {
    assert Name(a)[0] as int - '0' as int == a / 10 && Name(a)[1] as int - '0' as int == a % 10;
    assert Name(b)[0] as int - '0' as int == b / 10 && Name(b)[1] as int - '0' as int == b % 10;
    var tailA, tailB := Name(a)[1..], Name(b)[1..];
    assert tailA[0] == Name(a)[1] && tailB[0] == Name(b)[1];
    if a == b { LessIrreflexive(Name(a)); }
  }

  datatype Latest = NoLatest | Latest(sequence: nat)

  /** The loop of `latestRecordingSnapshot`: none if an entry is neither pending nor a snapshot, or no snapshot. */
  method LatestSnapshot(entries: seq<string>) returns (latest: Latest)
    ensures latest.Latest? <==> (forall e :: e in entries ==> e == "pending" || SnapshotName(e)) && exists e :: e in entries && SnapshotName(e)
    ensures latest.Latest? ==>
              && latest.sequence <= MAX_SEQUENCE && Name(latest.sequence) in entries
              && forall n :: 0 <= n <= MAX_SEQUENCE && Name(n) in entries ==> n <= latest.sequence
  {
    var name := "";
    ghost var best := -1;
    for i := 0 to |entries|
      invariant forall e :: e in entries[..i] ==> e == "pending" || SnapshotName(e)
      invariant if best == -1 then name == "" && forall e :: e in entries[..i] ==> !SnapshotName(e)
                else 0 <= best <= MAX_SEQUENCE && name == Name(best) && name in entries[..i]
      invariant forall n :: 0 <= n <= MAX_SEQUENCE && Name(n) in entries[..i] ==> n <= best
    {
      assert entries[..i + 1] == entries[..i] + [entries[i]];
      if entries[i] == "pending" {
        PendingIsNoName();
        continue;
      }
      if !IsSnapshotName(entries[i]) {
        assert entries[i] in entries;
        return NoLatest;
      }
      ghost var n :| 0 <= n <= MAX_SEQUENCE && entries[i] == Name(n);
      forall m | 0 <= m <= MAX_SEQUENCE ensures Less(name, Name(m)) <==> best < m {
        if best != -1 { NamesInOrder(best, m); }
      }
      forall m | 0 <= m <= MAX_SEQUENCE ensures Name(m) == Name(n) <==> m == n { NamesInOrder(m, n); }
      if Less(name, entries[i]) {
        name := entries[i];
        best := n;
      }
    }
    assert entries[..|entries|] == entries;
    if name == "" { return NoLatest; }
    return Latest(Number(name));
  }

  lemma PendingIsNoName()
    ensures !SnapshotName("pending")
  {
    forall n | 0 <= n <= MAX_SEQUENCE ensures Name(n) != "pending" { assert Name(n)[2] == '.'; }
  }

  /** `validRecordingSnapshot`: the name is what its own number formats to. */
  predicate IsSnapshotName(name: string)
    ensures IsSnapshotName(name) <==> SnapshotName(name)
  {
    assert forall n :: 0 <= n <= MAX_SEQUENCE ==>
        Name(n)[0] as int - '0' as int == n / 10 && Name(n)[1] as int - '0' as int == n % 10;
    |name| == 7 && '0' <= name[0] <= '9' && '0' <= name[1] <= '9' && Number(name) <= MAX_SEQUENCE && name == Name(Number(name))
  }

  function Number(name: string): nat
    requires |name| >= 2 && '0' <= name[0] <= '9' && '0' <= name[1] <= '9'
    ensures Number(name) < 100
    ensures forall n :: 0 <= n < 100 && name == Name(n) ==> Number(name) == n
  {
    (name[0] as int - '0' as int) * 10 + (name[1] as int - '0' as int)
  }
}
