/** The lifecycle metadata of one recording: the documents that the capture loop tries to persist, whichever
    captures and writes fail. */
module RecordingProgress {
  const TTL := 900
  const MIN_FRAMES := 2
  const MAX_FRAMES := 30

  /** `identity` is the verdict of the schema, caller, actor, ID and locator checks, which no step changes. */
  datatype Doc = Doc(
    identity: bool, sequence: nat, requested: int, attempted: int, completed: int, inFlight: bool,
    terminal: bool, reason: string, startedAt: int, updatedAt: int, expiresAt: int)

  predicate ValidCounts(d: Doc) {
    && MIN_FRAMES <= d.requested <= MAX_FRAMES && 0 <= d.attempted <= d.requested && 0 <= d.completed <= d.attempted
    && (d.inFlight ==> d.attempted > d.completed)
  }

  predicate ValidTimes(d: Doc) { d.startedAt != 0 && d.startedAt <= d.updatedAt && d.expiresAt == d.startedAt + TTL }

  /** `validRecordingDocument`. */
  predicate ValidDocument(d: Doc) {
    && d.identity && ValidCounts(d) && ValidTimes(d)
    && if !d.terminal then d.reason == ""
       else !d.inFlight && ((d.reason == "completed" && d.completed == d.requested) || d.reason in ["failed", "canceled", "deadline_exceeded"])
  }

  /** What an error is to `errors.Is`: joined errors keep both kinds, and cancellation is asked for first. */
  datatype Problem = NoProblem | Problem(canceled: bool, deadline: bool)

  function Join(a: Problem, b: Problem): Problem {
    if a.NoProblem? then b else if b.NoProblem? then a else Problem(a.canceled || b.canceled, a.deadline || b.deadline)
  }

  function Reason(p: Problem): string {
    if p.NoProblem? then "completed" else if p.canceled then "canceled" else if p.deadline then "deadline_exceeded" else "failed"
  }

  const OTHER := Problem(false, false)

  /** What one turn of the capture loop meets, in order. */
  datatype Turn = Turn(
    loopContext: Problem, admission: Problem, captureContext: Problem, capture: Problem, validation: Problem,
    saving: Problem, processing: Problem, waiting: Problem)

  /** The clock never goes back: each reading is the last one plus some ticks. */
  datatype World = World(now: int, ticks: seq<nat>, writes: seq<bool>)

  function Tick(w: World): World { World(if w.ticks == [] then w.now else w.now + w.ticks[0], if w.ticks == [] then [] else w.ticks[1..], w.writes) }

  predicate AllWritten(w: World) { forall i :: 0 <= i < |w.writes| ==> w.writes[i] }

  predicate Untroubled(t: Turn) {
    && t.loopContext.NoProblem? && t.admission.NoProblem? && t.captureContext.NoProblem? && t.capture.NoProblem?
    && t.validation.NoProblem? && t.saving.NoProblem? && t.processing.NoProblem? && t.waiting.NoProblem?
  }

  class Progress {
    var document: Doc
    var world: World
    /** The documents handed to the store, whether or not it wrote them. */
    ghost var attempts: seq<Doc>

    /** Between steps: nothing is in flight unless a capture is, and the next document is numbered by its predecessors. */
    ghost predicate Consistent()
      reads this
    {
      && document.identity && !document.terminal && document.reason == ""
      && ValidCounts(document) && ValidTimes(document) && document.updatedAt <= world.now
      && AllValid(attempts) && |attempts| == document.sequence + 1
      && attempts[|attempts| - 1].updatedAt == document.updatedAt && !attempts[|attempts| - 1].terminal
    }

    constructor (frames: int, now: int, ticks: seq<nat>, writes: seq<bool>)
      requires MIN_FRAMES <= frames <= MAX_FRAMES && now != 0
      ensures Consistent() && document.requested == frames && document.attempted == document.completed == 0 && !document.inFlight
      ensures attempts == [document] && document.sequence == 0 && world == World(now, ticks, writes)
    {
      var first := Doc(true, 0, frames, 0, 0, false, false, "", now, now, now + TTL);
      document := first;
      world := World(now, ticks, writes);
      attempts := [first];
    }

    /** The document goes to the store with a new time and number; the store may fail. */
    method Persist() returns (p: Problem)
      requires document.updatedAt <= world.now
      modifies this
      ensures document == old(document).(updatedAt := document.updatedAt, sequence := old(document.sequence) + 1)
      ensures old(document.updatedAt) <= document.updatedAt == world.now && attempts == old(attempts) + [document]
      ensures p in {NoProblem, OTHER}
      ensures old(AllWritten(world)) ==> AllWritten(world) && p.NoProblem?
    {
      world := Tick(world);
      document := document.(updatedAt := world.now);
      document := document.(sequence := document.sequence + 1);
      attempts := attempts + [document];
      var written := world.writes == [] || world.writes[0];
      world := world.(writes := if world.writes == [] then [] else world.writes[1..]);
      return if written then NoProblem else OTHER;
    }

    method BeforeCapture(context: Problem) returns (p: Problem)
      requires Consistent() && !document.inFlight && document.attempted < document.requested
      modifies this
      ensures Consistent() && document.requested == old(document.requested) && document.completed == old(document.completed)
      ensures p.NoProblem? ==> document.inFlight && document.attempted == old(document.attempted) + 1
      ensures !p.NoProblem? ==> !document.inFlight && document.attempted == old(document.attempted)
      ensures document.sequence <= old(document.sequence) + 1
      ensures old(AllWritten(world)) ==> AllWritten(world) && p == context
    {
      if !context.NoProblem? { return context; }
      document := document.(attempted := document.attempted + 1);
      document := document.(inFlight := true);
      p := Persist();
      AllValidNext(old(attempts), document);
      if !p.NoProblem? {
        document := document.(attempted := document.attempted - 1);
        document := document.(inFlight := false);
      }
    }

    method AfterCapture(valid: bool) returns (p: Problem)
      requires Consistent() && document.inFlight
      modifies this
      ensures Consistent() && document.requested == old(document.requested) && document.attempted == old(document.attempted)
      ensures document.completed == old(document.completed) + (if valid then 1 else 0) && !document.inFlight
      ensures document.sequence == old(document.sequence) + 1
      ensures old(AllWritten(world)) ==> AllWritten(world) && p.NoProblem?
    {
      document := document.(inFlight := false);
      if valid { document := document.(completed := document.completed + 1); }
      p := Persist();
      AllValidNext(old(attempts), document);
    }

    /** A terminal document: complete if there was no error and only then, and never in flight. */
    method Finish(error: Problem) returns (p: Problem)
      requires Consistent() && !document.inFlight && (error.NoProblem? ==> document.completed == document.requested)
      modifies this
      ensures AllValid(attempts) && |attempts| == document.sequence + 1 && attempts[|attempts| - 1] == document
      ensures document.terminal && !document.inFlight && document.requested == old(document.requested)
      ensures document.reason == "completed" <==> error.NoProblem?
      ensures document.reason == "canceled" <==> error.Problem? && error.canceled
      ensures document.reason == "deadline_exceeded" <==> error.Problem? && !error.canceled && error.deadline
      ensures document.reason == "completed" ==> document.completed == document.requested
      ensures document.sequence == old(document.sequence) + 1
      ensures old(AllWritten(world)) ==> p.NoProblem?
    {
      document := document.(terminal := true);
      document := document.(reason := Reason(error));
      p := Persist();
      AllValidNext(old(attempts), document);
    }

    /** `screenshot` as far as the recording goes. */
    method Screenshot(turn: Turn) returns (p: Problem)
      requires Consistent() && !document.inFlight && document.attempted < document.requested
      modifies this
      ensures Consistent() && !document.inFlight && document.requested == old(document.requested)
      ensures old(document.attempted) <= document.attempted <= old(document.attempted) + 1
      ensures p.NoProblem? ==> document.attempted == old(document.attempted) + 1 && document.completed == old(document.completed) + 1
      ensures document.sequence <= old(document.sequence) + 2
      ensures old(AllWritten(world)) ==> AllWritten(world) && (Untroubled(turn) ==> p.NoProblem?)
    {
      if !turn.admission.NoProblem? { return turn.admission; }
      p := BeforeCapture(turn.captureContext);
      if !p.NoProblem? { return; }
      if !turn.capture.NoProblem? {
        p := AfterCapture(false);
        return Join(turn.capture, p);
      }
      p := AfterCapture(turn.validation.NoProblem?);
      p := Join(turn.validation, p);
      if !p.NoProblem? { return; }
      return turn.saving;
    }

    method CollectFrames(turns: seq<Turn>) returns (p: Problem)
      requires Consistent() && !document.inFlight && document.attempted == document.completed == 0 && |turns| == document.requested
      modifies this
      ensures Consistent() && !document.inFlight && document.requested == old(document.requested)
      ensures p.NoProblem? ==> document.completed == document.requested
      ensures document.sequence <= old(document.sequence) + 2 * |turns|
      ensures old(AllWritten(world)) ==>
                AllWritten(world) && ((forall i :: 0 <= i < |turns| ==> Untroubled(turns[i])) ==> p.NoProblem?)
    {
      for i := 0 to |turns|
        invariant Consistent() && !document.inFlight && document.requested == old(document.requested)
        invariant document.attempted == document.completed == i
        invariant document.sequence <= old(document.sequence) + 2 * i
        invariant old(AllWritten(world)) ==> AllWritten(world)
      {
        if !turns[i].loopContext.NoProblem? { return turns[i].loopContext; }
        p := Screenshot(turns[i]);
        if !p.NoProblem? { return; }
        if !turns[i].processing.NoProblem? { return turns[i].processing; }
        if i < |turns| - 1 {
          if !turns[i].waiting.NoProblem? { return turns[i].waiting; }
        }
      }
      return NoProblem;
    }
  }

  ghost predicate AllValid(attempts: seq<Doc>) {
    && (forall k :: 0 <= k < |attempts| ==> ValidDocument(attempts[k]) && attempts[k].sequence == k)
    && forall k :: 0 <= k < |attempts| - 1 ==> attempts[k].updatedAt <= attempts[k + 1].updatedAt && !attempts[k].terminal
  }

  lemma AllValidNext(attempts: seq<Doc>, d: Doc)
    requires AllValid(attempts) && attempts != [] && ValidDocument(d) && d.sequence == |attempts|
    requires attempts[|attempts| - 1].updatedAt <= d.updatedAt && !attempts[|attempts| - 1].terminal
    ensures AllValid(attempts + [d])
  {
    hide ValidDocument;
  }

  /** `Record` with a recording ID, from the reserved first document on: the loop, the encoding, the final status.
      Every document tried is valid and numbered by its place, the numbers stay within one per frame before and
      after its capture and one at the end, only the last document may be terminal, and it is once the first was
      written. A recording that succeeds ends in a "completed" one with every frame captured; it succeeds unless
      something fails. */
  method Record(frames: int, intervalMillis: int, width: int, height: int, now: int, ticks: seq<nat>, writes: seq<bool>,
                turns: seq<Turn>, encoding: Problem)
    returns (accepted: bool, result: Problem, ghost attempts: seq<Doc>)
    requires now != 0 && |turns| == (if frames < 0 then 0 else frames)
    ensures accepted <==> ValidBounds(frames, intervalMillis, width, height)
    ensures !accepted ==> attempts == []
    ensures accepted ==>
              && AllValid(attempts) && 1 <= |attempts| <= 2 * frames + 2 <= 62
              && (result.NoProblem? ==> attempts[|attempts| - 1].terminal && attempts[|attempts| - 1].reason == "completed"
                                        && attempts[|attempts| - 1].completed == frames)
              && (writes == [] || writes[0] ==> attempts[|attempts| - 1].terminal)
    ensures accepted && Undisturbed(writes, turns, encoding) ==> result.NoProblem?
  {
    attempts := [];
    if !ValidBounds(frames, intervalMillis, width, height) { return false, OTHER, []; }
    var reserved := writes == [] || writes[0];
    var progress := new Progress(frames, now, ticks, if writes == [] then [] else writes[1..]);
    if !reserved { return true, OTHER, progress.attempts; }
    var error := progress.CollectFrames(turns);
    if error.NoProblem? { error := encoding; }
    var p := progress.Finish(error);
    return true, Join(error, p), progress.attempts;
  }

  predicate Undisturbed(writes: seq<bool>, turns: seq<Turn>, encoding: Problem) {
    && encoding.NoProblem? && (forall i :: 0 <= i < |writes| ==> writes[i])
    && forall i :: 0 <= i < |turns| ==> Untroubled(turns[i])
  }

  predicate ValidBounds(frames: int, intervalMillis: int, width: int, height: int) {
    && MIN_FRAMES <= frames <= MAX_FRAMES && 100 <= intervalMillis <= 2000 && frames * intervalMillis <= 30000
    && 1 <= width && 1 <= height && width <= 307200 / height
  }
}
