/** The refresh worker pool: a producer, workers and a collector over an unbuffered job channel and a buffered
    result channel, under any schedule and any cancellation. */
module RefreshPool {
  datatype Snapshot = NoSnapshot | Snapshot(hostId: string, health: string)

  datatype Result = Result(index: nat, snapshot: Snapshot)

  datatype Producer = Checking(i: nat) | Offering(i: nat) | Filling(i: nat) | Closed

  datatype Worker = Idle | Busy(index: nat) | Exited

  /** `sent` is everything ever sent on the result channel, which has room for one result per host. */
  datatype State = State(
    cancelled: bool, producer: Producer, workers: seq<Worker>, sent: seq<Result>, closed: bool, panicked: bool)

  datatype Step =
    | Cancel
    | CheckContext
    | Hand(worker: nat)
    | GiveUp
    | Fill
    | Finish(worker: nat, health: string)
    | Exit(worker: nat)
    | CloseResults

  function Start(hosts: seq<string>, concurrency: nat): State {
    State(false, Checking(0), seq(if concurrency <= |hosts| then concurrency else |hosts|, _ => Idle), [], false, false)
  }

  /** Sending on a closed channel panics. */
  function Send(s: State, r: Result): State { if s.closed then s.(panicked := true) else s.(sent := s.sent + [r]) }

  predicate HasRoom(s: State, hosts: seq<string>) { |s.sent| < |hosts| }

  predicate Enabled(s: State, hosts: seq<string>, step: Step) {
    match step
    case Cancel => !s.cancelled
    case CheckContext => s.producer.Checking?
    case Hand(w) => s.producer.Offering? && w < |s.workers| && s.workers[w].Idle?
    case GiveUp => s.producer.Offering? && s.cancelled
    case Fill => s.producer.Filling? && (s.producer.i >= |hosts| || s.closed || HasRoom(s, hosts))
    case Finish(w, _) => w < |s.workers| && s.workers[w].Busy? && s.workers[w].index < |hosts| && (s.closed || HasRoom(s, hosts))
    case Exit(w) => s.producer.Closed? && w < |s.workers| && s.workers[w].Idle?
    case CloseResults => !s.closed && forall w :: 0 <= w < |s.workers| ==> s.workers[w].Exited?
  }

  function Next(s: State, hosts: seq<string>, step: Step): State
    requires Enabled(s, hosts, step)
  {
    match step
    case Cancel => s.(cancelled := true)
    case CheckContext =>
      var i := s.producer.i;
      s.(producer := if i >= |hosts| then Closed else if s.cancelled then Filling(i) else Offering(i))
    case Hand(w) => s.(producer := Checking(s.producer.i + 1), workers := s.workers[w := Busy(s.producer.i)])
    case GiveUp => s.(producer := Filling(s.producer.i))
    case Fill =>
      var i := s.producer.i;
      if i >= |hosts| then s.(producer := Closed)
      else Send(s, Result(i, Snapshot(hosts[i], "unavailable"))).(producer := Filling(i + 1))
    case Finish(w, health) =>
      var i := s.workers[w].index;
      Send(s, Result(i, Snapshot(hosts[i], health))).(workers := s.workers[w := Idle])
    case Exit(w) => s.(workers := s.workers[w := Exited])
    case CloseResults => s.(closed := true)
  }

  /** The states of a run, first to last. */
  ghost predicate IsRun(hosts: seq<string>, run: seq<State>, steps: seq<Step>) {
    && |run| == |steps| + 1
    && forall k :: 0 <= k < |steps| ==> Enabled(run[k], hosts, steps[k]) && run[k + 1] == Next(run[k], hosts, steps[k])
  }

  // ---------- Safety ----------

  function Position(s: State, hosts: seq<string>): nat { if s.producer.Closed? then |hosts| else s.producer.i }

  predicate Delivered(s: State, j: nat) { exists k :: 0 <= k < |s.sent| && s.sent[k].index == j }

  predicate InHand(s: State, j: nat) { exists w :: 0 <= w < |s.workers| && s.workers[w] == Busy(j) }

  /** Every index the producer has passed is delivered or in one worker's hand, once; none other is. */
  ghost predicate Inv(s: State, hosts: seq<string>) {
    && Position(s, hosts) <= |hosts|
    && (s.producer.Offering? ==> s.producer.i < |hosts|)
    && (forall k :: 0 <= k < |s.sent| ==> SentRight(s, hosts, k))
    && (forall w :: 0 <= w < |s.workers| && s.workers[w].Busy? ==> s.workers[w].index < Position(s, hosts) && !Delivered(s, s.workers[w].index))
    && (forall a, b :: 0 <= a < b < |s.sent| ==> s.sent[a].index != s.sent[b].index)
    && (forall v, w :: 0 <= v < w < |s.workers| && s.workers[v].Busy? ==> s.workers[v] != s.workers[w])
    && (forall j: nat :: j < Position(s, hosts) ==> Delivered(s, j) || InHand(s, j))
    && (forall w :: 0 <= w < |s.workers| && s.workers[w].Exited? ==> s.producer.Closed?)
    && (s.closed ==> forall w :: 0 <= w < |s.workers| ==> s.workers[w].Exited?)
    && (|s.workers| == 0 ==> |hosts| == 0)
    && !s.panicked
  }

  predicate SentRight(s: State, hosts: seq<string>, k: nat)
    requires k < |s.sent|
  {
    var r := s.sent[k];
    r.index < Position(s, hosts) && r.index < |hosts| && r.snapshot.Snapshot? && r.snapshot.hostId == hosts[r.index]
  }

  lemma SendKeeps(s: State, t: State, hosts: seq<string>, r: Result)
    requires Inv(s, hosts) && !s.closed && t == s.(sent := s.sent + [r], producer := t.producer, workers := t.workers)
    requires r.index < |hosts| && r.snapshot.Snapshot? && r.snapshot.hostId == hosts[r.index] && !Delivered(s, r.index)
    requires (t.workers == s.workers && s.producer == Filling(r.index) && t.producer == Filling(r.index + 1))
             || (t.producer == s.producer && exists w :: 0 <= w < |s.workers| && s.workers[w] == Busy(r.index) && t.workers == s.workers[w := Idle])
    ensures Inv(t, hosts)
  {
    assert t.sent[|s.sent|] == r;
    forall j: nat ensures Delivered(t, j) <==> Delivered(s, j) || j == r.index {
      if Delivered(s, j) {
        var k :| 0 <= k < |s.sent| && s.sent[k].index == j;
        assert t.sent[k].index == j;
      }
      if j == r.index { assert t.sent[|s.sent|].index == j; }
    }
    forall a, b | 0 <= a < b < |t.sent| ensures t.sent[a].index != t.sent[b].index {
      if b == |s.sent| { assert s.sent[a].index != r.index; }
    }
    forall k | 0 <= k < |t.sent| ensures SentRight(t, hosts, k) {
      if k < |s.sent| { assert SentRight(s, hosts, k); }
    }
    forall j: nat | j < Position(t, hosts) ensures Delivered(t, j) || InHand(t, j) {
      if j < Position(s, hosts) && j != r.index && InHand(s, j) {
        var w :| 0 <= w < |s.workers| && s.workers[w] == Busy(j);
        assert t.workers[w] == Busy(j);
      }
    }
  }

  lemma HandKeeps(s: State, hosts: seq<string>, w: nat)
    requires Inv(s, hosts) && Enabled(s, hosts, Hand(w))
    ensures Inv(Next(s, hosts, Hand(w)), hosts)
  {
    var i := s.producer.i;
    var t := Next(s, hosts, Hand(w));
    assert t.workers[w] == Busy(i);
    forall k | 0 <= k < |s.sent| ensures s.sent[k].index != i { assert SentRight(s, hosts, k); }
    forall k | 0 <= k < |t.sent| ensures SentRight(t, hosts, k) { assert SentRight(s, hosts, k); }
    forall j: nat ensures Delivered(t, j) <==> Delivered(s, j) {}
    forall j: nat | j < Position(t, hosts) ensures Delivered(t, j) || InHand(t, j) {
      if j < i && InHand(s, j) {
        var v :| 0 <= v < |s.workers| && s.workers[v] == Busy(j);
        assert t.workers[v] == Busy(j);
      }
    }
  }

  /** Steps that send nothing and hand over nothing. */
  lemma QuietKeeps(s: State, hosts: seq<string>, step: Step)
    requires Inv(s, hosts) && Enabled(s, hosts, step)
    requires step.Cancel? || step.CheckContext? || step.GiveUp? || step.Exit? || step.CloseResults? || (step.Fill? && s.producer.i >= |hosts|)
    ensures Inv(Next(s, hosts, step), hosts)
  {
    var t := Next(s, hosts, step);
    forall k | 0 <= k < |t.sent| ensures SentRight(t, hosts, k) { assert SentRight(s, hosts, k); }
    forall j: nat ensures Delivered(t, j) <==> Delivered(s, j) {}
    forall j: nat | j < Position(t, hosts) ensures Delivered(t, j) || InHand(t, j) {
      if InHand(s, j) {
        var w :| 0 <= w < |s.workers| && s.workers[w] == Busy(j);
        assert t.workers[w] == Busy(j);
      }
    }
  }

  lemma StepKeeps(s: State, hosts: seq<string>, step: Step)
    requires Inv(s, hosts) && Enabled(s, hosts, step)
    ensures Inv(Next(s, hosts, step), hosts)
  {
    match step {
      case Hand(w) => HandKeeps(s, hosts, w);
      case Fill =>
        var i := s.producer.i;
        if i < |hosts| {
          var first := s.workers[0];
          assert s.closed ==> first.Exited?;
          forall k | 0 <= k < |s.sent| ensures s.sent[k].index != i { assert SentRight(s, hosts, k); }
          SendKeeps(s, Next(s, hosts, step), hosts, Result(i, Snapshot(hosts[i], "unavailable")));
        } else {
          QuietKeeps(s, hosts, step);
        }
      case Finish(w, health) =>
        var i := s.workers[w].index;
        SendKeeps(s, Next(s, hosts, step), hosts, Result(i, Snapshot(hosts[i], health)));
      case _ => QuietKeeps(s, hosts, step);
    }
  }

  lemma StartOk(hosts: seq<string>, concurrency: nat)
    requires concurrency >= 1
    ensures Inv(Start(hosts, concurrency), hosts)
  {
  }

  lemma {:induction false} RunKeeps(hosts: seq<string>, run: seq<State>, steps: seq<Step>, k: nat)
    requires IsRun(hosts, run, steps) && k < |run| && Inv(run[0], hosts)
    ensures Inv(run[k], hosts)
    decreases k
  {
    if k > 0 {
      RunKeeps(hosts, run, steps, k - 1);
      StepKeeps(run[k - 1], hosts, steps[k - 1]);
      assert run[k - 1 + 1] == Next(run[k - 1], hosts, steps[k - 1]);
    }
  }

  lemma {:induction false} DistinctBelow(s: seq<nat>, n: nat)
    requires (forall k :: 0 <= k < |s| ==> s[k] < n) && forall a, b :: 0 <= a < b < |s| ==> s[a] != s[b]
    ensures |s| <= n
    decreases n
  {
    if i :| 0 <= i < |s| && s[i] == n - 1 {
      var rest := s[..i] + s[i + 1..];
      assert forall k :: 0 <= k < |rest| ==> rest[k] == s[if k < i then k else k + 1];
      DistinctBelow(rest, n - 1);
    } else if s != [] {
      assert s[0] < n;
      DistinctBelow(s, n - 1);
    }
  }

  lemma {:induction false} WorkersStay(hosts: seq<string>, run: seq<State>, steps: seq<Step>, k: nat)
    requires IsRun(hosts, run, steps) && k < |run|
    ensures |run[k].workers| == |run[0].workers|
    decreases k
  {
    if k > 0 {
      WorkersStay(hosts, run, steps, k - 1);
      assert run[k - 1 + 1] == Next(run[k - 1], hosts, steps[k - 1]);
    }
  }

  /** At any moment of any schedule: no panic, a free place in the channel for whoever is about to send, and no
      index delivered twice; and as many workers as the concurrency allows, or as there are hosts if that is less. */
  lemma NeverBlocksOrPanics(hosts: seq<string>, concurrency: nat, run: seq<State>, steps: seq<Step>, k: nat)
    requires concurrency >= 1 && IsRun(hosts, run, steps) && run[0] == Start(hosts, concurrency) && k < |run|
    ensures !run[k].panicked && |run[k].sent| <= |hosts|
    ensures |run[k].workers| <= concurrency && |run[k].workers| <= |hosts| && (|run[k].workers| == concurrency || |run[k].workers| == |hosts|)
    ensures (exists w :: 0 <= w < |run[k].workers| && run[k].workers[w].Busy?) || (run[k].producer.Filling? && run[k].producer.i < |hosts|)
            ==> !run[k].closed && HasRoom(run[k], hosts)
    ensures forall a, b :: 0 <= a < b < |run[k].sent| ==> run[k].sent[a].index != run[k].sent[b].index
  {
    StartOk(hosts, concurrency);
    RunKeeps(hosts, run, steps, k);
    WorkersStay(hosts, run, steps, k);
    RoomToSend(run[k], hosts);
  }

  lemma RoomToSend(s: State, hosts: seq<string>)
    requires Inv(s, hosts)
    ensures |s.sent| <= |hosts|
    ensures forall w :: 0 <= w < |s.workers| && s.workers[w].Busy? ==> !s.closed && |s.sent| < |hosts|
    ensures s.producer.Filling? && s.producer.i < |hosts| ==> !s.closed && |s.sent| < |hosts|
  {
    var indices := seq(|s.sent|, k requires 0 <= k < |s.sent| => s.sent[k].index);
    forall k | 0 <= k < |s.sent| ensures indices[k] < |hosts| { assert SentRight(s, hosts, k); }
    DistinctBelow(indices, |hosts|);
    forall w | 0 <= w < |s.workers| && s.workers[w].Busy? ensures |s.sent| < |hosts| {
      DistinctBelow(indices + [s.workers[w].index], |hosts|);
    }
    if s.producer.Filling? && s.producer.i < |hosts| {
      forall k | 0 <= k < |s.sent| ensures indices[k] != s.producer.i { assert SentRight(s, hosts, k); }
      DistinctBelow(indices + [s.producer.i], |hosts|);
      var first := s.workers[0];
          assert s.closed ==> first.Exited?;
    }
  }

  // ---------- Termination ----------

  function WorkerRank(w: Worker): nat { match w case Idle => 1 case Busy(_) => 2 case Exited => 0 }

  function Ranks(ws: seq<Worker>): nat { if ws == [] then 0 else WorkerRank(ws[0]) + Ranks(ws[1..]) }

  function ProducerRank(p: Producer, n: nat): int {
    match p
    case Checking(i) => 3 * (n - i) + 1
    case Offering(i) => 3 * (n - i)
    case Filling(i) => n - i + 1
    case Closed => 0
  }

  function Measure(s: State, hosts: seq<string>): int {
    ProducerRank(s.producer, |hosts|) + Ranks(s.workers) + (if s.closed then 0 else 1) + if s.cancelled then 0 else 1
  }

  lemma {:induction false} RankUpdate(ws: seq<Worker>, w: nat, to: Worker)
    requires w < |ws|
    ensures Ranks(ws[w := to]) == Ranks(ws) - WorkerRank(ws[w]) + WorkerRank(to)
    decreases |ws|
  {
    if w > 0 {
      assert ws[w := to][1..] == ws[1..][w - 1 := to];
      RankUpdate(ws[1..], w - 1, to);
    }
  }

  /** Every step, whoever takes it, uses up the measure. */
  lemma StepDecreases(s: State, hosts: seq<string>, step: Step)
    requires Inv(s, hosts) && Enabled(s, hosts, step)
    ensures 0 <= Measure(Next(s, hosts, step), hosts) < Measure(s, hosts)
  {
    StepKeeps(s, hosts, step);
    match step {
      case Hand(w) => RankUpdate(s.workers, w, Busy(s.producer.i));
      case Finish(w, _) => RankUpdate(s.workers, w, Idle);
      case Exit(w) => RankUpdate(s.workers, w, Exited);
      case _ =>
    }
  }

  /** Until the results are closed somebody can always move. */
  lemma NoDeadlock(s: State, hosts: seq<string>)
    requires Inv(s, hosts) && !s.closed
    ensures exists step: Step :: !step.Cancel? && Enabled(s, hosts, step)
  {
    RoomToSend(s, hosts);
    if s.producer.Checking? {
      assert Enabled(s, hosts, CheckContext);
    } else if s.producer.Filling? {
      assert Enabled(s, hosts, Fill);
    } else if w :| 0 <= w < |s.workers| && s.workers[w].Busy? {
      assert Enabled(s, hosts, Finish(w, ""));
    } else if w :| 0 <= w < |s.workers| && s.workers[w].Idle? {
      assert Enabled(s, hosts, if s.producer.Closed? then Exit(w) else Hand(w));
    } else {
      assert Enabled(s, hosts, CloseResults) by {
        forall w | 0 <= w < |s.workers| ensures s.workers[w].Exited? {}
      }
    }
  }

  lemma {:induction false} RunsEnd(hosts: seq<string>, run: seq<State>, steps: seq<Step>, k: nat)
    requires IsRun(hosts, run, steps) && k < |run| && Inv(run[0], hosts)
    ensures Inv(run[k], hosts) && 0 <= Measure(run[k], hosts) <= Measure(run[0], hosts) - k
    decreases k
  {
    if k > 0 {
      RunsEnd(hosts, run, steps, k - 1);
      StepKeeps(run[k - 1], hosts, steps[k - 1]);
      StepDecreases(run[k - 1], hosts, steps[k - 1]);
      assert run[k - 1 + 1] == Next(run[k - 1], hosts, steps[k - 1]);
    }
  }

  lemma {:induction false} AllIdle(ws: seq<Worker>)
    requires forall w :: 0 <= w < |ws| ==> ws[w].Idle?
    ensures Ranks(ws) == |ws|
  {
    if ws != [] { AllIdle(ws[1..]); }
  }

  /** The pool stops: no schedule has more than four steps a host and three more, and one that cannot be
      continued has closed the results. */
  lemma PoolTerminates(hosts: seq<string>, concurrency: nat, run: seq<State>, steps: seq<Step>)
    requires concurrency >= 1 && IsRun(hosts, run, steps) && run[0] == Start(hosts, concurrency)
    ensures |steps| <= 4 * |hosts| + 3
    ensures (forall step: Step :: Enabled(run[|steps|], hosts, step) ==> step.Cancel?) ==> run[|steps|].closed
  {
    StartOk(hosts, concurrency);
    RunsEnd(hosts, run, steps, |steps|);
    AllIdle(run[0].workers);
    if !run[|steps|].closed { NoDeadlock(run[|steps|], hosts); }
  }

  // ---------- Collection ----------

  /** When the channel is closed every host has been delivered exactly once, under its own ID. */
  ghost predicate Complete(sent: seq<Result>, hosts: seq<string>) {
    && (forall k :: 0 <= k < |sent| ==> sent[k].index < |hosts| && sent[k].snapshot.Snapshot? && sent[k].snapshot.hostId == hosts[sent[k].index])
    && (forall a, b :: 0 <= a < b < |sent| ==> sent[a].index != sent[b].index)
    && forall j: nat :: j < |hosts| ==> Indexed(sent, j)
  }

  predicate Indexed(sent: seq<Result>, j: nat) { exists k :: 0 <= k < |sent| && sent[k].index == j }

  lemma ClosedIsComplete(hosts: seq<string>, concurrency: nat, run: seq<State>, steps: seq<Step>, k: nat)
    requires concurrency >= 1 && IsRun(hosts, run, steps) && run[0] == Start(hosts, concurrency) && k < |run| && run[k].closed
    ensures Complete(run[k].sent, hosts)
  {
    StartOk(hosts, concurrency);
    RunKeeps(hosts, run, steps, k);
    var s := run[k];
    forall j | 0 <= j < |s.sent| ensures s.sent[j].index < |hosts| && s.sent[j].snapshot.Snapshot? && s.sent[j].snapshot.hostId == hosts[s.sent[j].index] {
      assert SentRight(s, hosts, j);
    }
    if |hosts| > 0 { assert s.workers[0].Exited?; }
    forall j: nat | j < |hosts| ensures Indexed(s.sent, j) {
      assert Delivered(s, j) || InHand(s, j);
      var i :| 0 <= i < |s.sent| && s.sent[i].index == j;
    }
  }

  /** The step that sent a result: a worker's own, with the health that its refresh came to, or the producer's, which
      makes a host unavailable, and only after a cancellation. */
  predicate Reports(s: State, step: Step, r: Result) {
    if step.Finish? then step.worker < |s.workers| && s.workers[step.worker] == Busy(r.index) && r.snapshot.Snapshot? && r.snapshot.health == step.health
    else step.Fill? && s.cancelled && r.snapshot.Snapshot? && r.snapshot.health == "unavailable"
  }

  lemma {:induction false} FillingIsCancelled(hosts: seq<string>, run: seq<State>, steps: seq<Step>, n: nat)
    requires IsRun(hosts, run, steps) && n < |run| && !run[0].producer.Filling?
    ensures run[n].producer.Filling? ==> run[n].cancelled
    decreases n
  {
    if n > 0 {
      FillingIsCancelled(hosts, run, steps, n - 1);
      assert run[n - 1 + 1] == Next(run[n - 1], hosts, steps[n - 1]);
    }
  }

  /** Every result comes from such a step; so without a cancellation no host is reported but by its own refresh. */
  lemma {:induction false} ResultsAreReported(hosts: seq<string>, concurrency: nat, run: seq<State>, steps: seq<Step>, n: nat, j: nat)
    requires concurrency >= 1 && IsRun(hosts, run, steps) && run[0] == Start(hosts, concurrency) && n < |run| && j < |run[n].sent|
    ensures exists k :: 0 <= k < n && Reports(run[k], steps[k], run[n].sent[j])
    decreases n
  {
    if n > 0 {
      StartOk(hosts, concurrency);
      RunKeeps(hosts, run, steps, n - 1);
      FillingIsCancelled(hosts, run, steps, n - 1);
      var s, step := run[n - 1], steps[n - 1];
      assert run[n - 1 + 1] == Next(s, hosts, step);
      RoomToSend(s, hosts);
      if j < |s.sent| {
        ResultsAreReported(hosts, concurrency, run, steps, n - 1, j);
        assert run[n].sent[j] == s.sent[j];
      } else {
        assert Reports(s, step, run[n].sent[j]);
      }
    }
  }

  method CollectOrdered(hosts: seq<string>, sent: seq<Result>) returns (ordered: array<Snapshot>)
    requires Complete(sent, hosts)
    ensures fresh(ordered) && ordered.Length == |hosts|
    ensures forall i :: 0 <= i < |hosts| ==> ordered[i].Snapshot? && ordered[i].hostId == hosts[i]
    ensures forall k :: 0 <= k < |sent| ==> ordered[sent[k].index] == sent[k].snapshot
  {
    ordered := new Snapshot[|hosts|](_ => NoSnapshot);
    for n := 0 to |sent|
      invariant forall k :: 0 <= k < n ==> ordered[sent[k].index] == sent[k].snapshot
    {
      ordered[sent[n].index] := sent[n].snapshot;
    }
    forall i | 0 <= i < |hosts| ensures ordered[i].Snapshot? && ordered[i].hostId == hosts[i] {
      assert Indexed(sent, i);
      var k :| 0 <= k < |sent| && sent[k].index == i;
    }
  }

  /** With no worker at all the pool closes its results at once and a cancellation then panics: the caller's
      raising of a concurrency below one to one is needed, unless there is no host. */
  lemma NoWorkerPanics(hosts: seq<string>)
    requires |hosts| > 0
    ensures exists run: seq<State>, steps: seq<Step> :: IsRun(hosts, run, steps) && run[0] == Start(hosts, 0) && run[|steps|].panicked
  {
    var s0 := Start(hosts, 0);
    var steps := [CloseResults, Cancel, CheckContext, Fill];
    var s1 := Next(s0, hosts, CloseResults);
    var s2 := Next(s1, hosts, Cancel);
    var s3 := Next(s2, hosts, CheckContext);
    var s4 := Next(s3, hosts, Fill);
    var run := [s0, s1, s2, s3, s4];
    assert IsRun(hosts, run, steps);
  }
}
