/**
 The Gate-3 observer's hand-off (gate3/runner.py): the Gate-2 loop passes quote batches to
 `observe` and finally calls `finish`; a worker thread evaluates them through a bounded queue.

 One step is one action of the calling thread or of the worker, in any interleaving. An
 evaluation may fail (an exception the code records) or kill the worker thread (one it does
 not catch); joining the worker may time out; recording the end of the session may fail.
 */
module ShadowObserver {
  import opened Common

  const QUEUE_SIZE := 4096

  datatype Quote = Quote(symbol: string, lastPrice: real)

  type Batch = seq<Quote>

  datatype Caller =
    | Ready
    | Putting(batch: Batch)
    | Counting(put: Batch)
    | Joining
    | TimedOut
    | Replaying
    | Closing
    | Snapshotting
    | Ending

  datatype Worker =
    | Waiting
    | Got(got: Batch)
    | Evaluating(current: Batch)
    | Evaluated(done: Batch)
    | Exited
    | Died(lost: seq<Batch>)

  /** The counters of the SESSION_ENDED event. */
  datatype EndRecord = EndRecord(runtimeErrors: nat, enqueued: nat, processed: nat)

  /**
   `offered` lists the non-empty batches passed to `observe` before the session ended, and
   `evaluated` those whose evaluation came to its end; both are histories the code does not keep.
   */
  datatype Observer = Observer(
    queue: seq<Batch>, stop: bool, failed: bool, errors: seq<string>, enqueued: nat, processed: nat,
    finished: bool, caller: Caller, worker: Worker, ended: Option<EndRecord>,
    offered: seq<Batch>, evaluated: seq<Batch>)

  /** The calling thread: `observe` and `finish`, with what the environment answers. */
  datatype CallerOp =
    | Observe(batch: Batch)
    | Put(full: string)
    | Count
    | Finish
    | Join(incomplete: string)
    | JoinTimesOut(timeout: string)
    | GiveUp
    | Replay(replayError: Option<string>)
    | Close(closeError: Option<string>)
    | Snapshot(ledgerError: Option<string>)
    | End
    | EndFails

  /** The worker thread: `_run_observer`. */
  datatype WorkerOp =
    | Get
    | Check
    | Evaluate(evaluationError: Option<string>)
    | Die
    | Tally
    | Heartbeat(beatError: Option<string>)
    | BeatDies
    | Exit

  predicate Stopped(w: Worker) { w.Exited? || w.Died? }

  predicate CallerEnabled(s: Observer, op: CallerOp) {
    match op
    case Observe(_) => s.caller.Ready?
    case Put(_) => s.caller.Putting?
    case Count => s.caller.Counting?
    case Finish => s.caller.Ready? && !s.finished
    case Join(_) => s.caller.Joining? && Stopped(s.worker)
    case JoinTimesOut(_) => s.caller.Joining? && !Stopped(s.worker)
    case GiveUp => s.caller.TimedOut?
    case Replay(_) => s.caller.Replaying?
    case Close(_) => s.caller.Closing?
    case Snapshot(_) => s.caller.Snapshotting?
    case End => s.caller.Ending?
    case EndFails => s.caller.Ending? || s.caller.Snapshotting?
  }

  predicate WorkerEnabled(s: Observer, op: WorkerOp) {
    match op
    case Get => s.worker.Waiting? && s.queue != []
    case Check => s.worker.Got?
    case Evaluate(_) => s.worker.Evaluating?
    case Die => s.worker.Evaluating?
    case Tally => s.worker.Evaluated?
    case Heartbeat(_) => s.worker.Waiting? && s.queue == [] && !s.stop && !s.failed
    case BeatDies => s.worker.Waiting? && s.queue == [] && !s.stop && !s.failed
    case Exit => s.worker.Waiting? && s.queue == [] && s.stop
  }

  /**
   Who can step. The caller: `observe` and `finish` between calls, the join as soon as the worker has
   stopped or the time is up, and the end of the session or its failure after the close. The worker:
   an item where there is one, a heartbeat on an empty queue while nothing failed, and the exit on an
   empty queue once it is told to stop.
   */
  lemma WhoCanStep(s: Observer)
    ensures forall b :: CallerEnabled(s, Observe(b)) <==> s.caller == Ready
    ensures CallerEnabled(s, Finish) <==> s.caller == Ready && !s.finished
    ensures forall e :: CallerEnabled(s, Join(e)) <==> s.caller == Joining && (s.worker.Exited? || s.worker.Died?)
    ensures forall e :: CallerEnabled(s, JoinTimesOut(e)) <==>
      s.caller == Joining && s.worker != Exited && !s.worker.Died?
    ensures (exists e :: CallerEnabled(s, Snapshot(e))) || CallerEnabled(s, End) ==> CallerEnabled(s, EndFails)
    ensures s.caller == Snapshotting || s.caller == Ending <==> CallerEnabled(s, EndFails)
    ensures s.caller == Ending <==> CallerEnabled(s, End)
    ensures WorkerEnabled(s, Get) <==> s.worker == Waiting && |s.queue| > 0
    ensures WorkerEnabled(s, Exit) <==> s.worker == Waiting && |s.queue| == 0 && s.stop
    ensures WorkerEnabled(s, BeatDies) <==> s.worker == Waiting && |s.queue| == 0 && !(s.stop || s.failed)
    ensures forall e :: WorkerEnabled(s, Heartbeat(e)) <==> WorkerEnabled(s, BeatDies)
    ensures WorkerEnabled(s, Die) <==> s.worker.Evaluating?
  {
  }

  /** `_record_observer_failure`: fingerprints are kept once. */
  function Failed(s: Observer, fingerprint: string): Observer {
    s.(failed := true, errors := if fingerprint in s.errors then s.errors else s.errors + [fingerprint])
  }

  function Noted(s: Observer, error: Option<string>): Observer {
    if error.Some? then s.(errors := s.errors + [error.value]) else s
  }

  function CallerStep(s: Observer, op: CallerOp): Observer
    requires CallerEnabled(s, op)
  {
    match op
    case Observe(batch) =>
      if batch == [] || s.finished then s
      else if s.failed then s.(offered := s.offered + [batch])
      else s.(caller := Putting(batch), offered := s.offered + [batch])
    case Put(full) =>
      if |s.queue| >= QUEUE_SIZE then Failed(s, full).(caller := Ready)
      else s.(queue := s.queue + [s.caller.batch], caller := Counting(s.caller.batch))
    case Count => s.(enqueued := s.enqueued + |s.caller.put|, caller := Ready)
    case Finish => s.(stop := true, caller := Joining)
    case Join(incomplete) =>
      (if s.enqueued != s.processed then Failed(s, incomplete) else s).(caller := Replaying)
    case JoinTimesOut(timeout) => Failed(s, timeout).(caller := TimedOut)
    case GiveUp => s.(caller := if Stopped(s.worker) then Replaying else Ready)
    case Replay(error) => (if s.failed then s else Noted(s, error)).(caller := Closing)
    case Close(error) => Noted(s, error).(caller := Snapshotting)
    case Snapshot(error) => Noted(s, error).(caller := Ending)
    case End =>
      s.(ended := Some(EndRecord(|s.errors|, s.enqueued, s.processed)), finished := true, caller := Ready)
    case EndFails => s.(caller := Ready)
  }

  function WorkerStep(s: Observer, op: WorkerOp): Observer
    requires WorkerEnabled(s, op)
  {
    match op
    case Get => s.(queue := s.queue[1..], worker := Got(s.queue[0]))
    case Check => s.(worker := if s.failed then Waiting else Evaluating(s.worker.got))
    case Evaluate(error) =>
      if error.Some? then Failed(s, error.value).(worker := Evaluated(s.worker.current))
      else s.(worker := Evaluated(s.worker.current), evaluated := s.evaluated + [s.worker.current])
    case Die => s.(worker := Died([s.worker.current]))
    case Tally =>
      s.(worker := Waiting, processed := if s.failed then s.processed else s.processed + |s.worker.done|)
    case Heartbeat(error) => if error.Some? then Failed(s, error.value) else s
    case BeatDies => s.(worker := Died([]))
    case Exit => s.(worker := Exited)
  }

  predicate Initial(s: Observer) {
    && s.queue == [] && !s.stop && !s.failed && s.errors == [] && s.enqueued == s.processed == 0
    && !s.finished && s.caller.Ready? && s.worker.Waiting? && s.ended.None? && s.offered == [] && s.evaluated == []
  }

  ghost predicate Step(s: Observer, t: Observer) {
    || (exists op :: CallerEnabled(s, op) && t == CallerStep(s, op))
    || (exists op :: WorkerEnabled(s, op) && t == WorkerStep(s, op))
  }

  ghost predicate Run(states: seq<Observer>) {
    && states != [] && Initial(states[0])
    && forall k :: 0 <= k < |states| - 1 ==> Step(states[k], states[k + 1])
  }

  /** A batch is queued where fewer than 4096 wait, and is a failure of the observer elsewhere. */
  lemma PutDecides(s: Observer, full: string)
    requires CallerEnabled(s, Put(full))
    ensures var t := CallerStep(s, Put(full));
      if |s.queue| < 4096 then t.queue == s.queue + [s.caller.batch] && t.errors == s.errors && t.failed == s.failed
      else t.queue == s.queue && t.failed && full in t.errors
  {
  }

  // ---------------------------------------------------------------- accounting

  function Quotes(batches: seq<Batch>): nat {
    if batches == [] then 0 else Quotes(batches[..|batches| - 1]) + |batches[|batches| - 1]|
  }

  lemma {:induction false} QuotesOfConcatenation(a: seq<Batch>, b: seq<Batch>)
    ensures Quotes(a + b) == Quotes(a) + Quotes(b)
  {
    if b == [] {
      assert a + b == a;
    } else {
      QuotesOfConcatenation(a, b[..|b| - 1]);
      assert (a + b)[..|a + b| - 1] == a + b[..|b| - 1];
    }
  }

  lemma {:induction false} NoQuotesNoBatches(batches: seq<Batch>)
    requires Quotes(batches) == 0 && NoEmptyBatch(batches)
    ensures batches == []
  {
  }

  /** Batches the worker has taken and not yet evaluated. */
  function InHand(w: Worker): seq<Batch> {
    match w
    case Got(b) => [b]
    case Evaluating(b) => [b]
    case Died(lost) => lost
    case _ => []
  }

  /** Evaluated but not yet counted. */
  function Untallied(w: Worker): nat { if w.Evaluated? then |w.done| else 0 }

  /** Offered but not yet put. */
  function Unput(c: Caller): seq<Batch> { if c.Putting? then [c.batch] else [] }

  /** Put but not yet counted. */
  function Uncounted(c: Caller): nat { if c.Counting? then |c.put| else 0 }

  predicate PastJoin(c: Caller) {
    c.Replaying? || c.Closing? || c.Snapshotting? || c.Ending?
  }

  /** While nothing has failed, every offered batch is evaluated, in hand, queued or about to be put. */
  ghost predicate Accounted(s: Observer) {
    && s.offered == s.evaluated + InHand(s.worker) + s.queue + Unput(s.caller)
    && Quotes(s.offered) == s.enqueued + Uncounted(s.caller) + Quotes(Unput(s.caller))
    && Quotes(s.evaluated) == s.processed + Untallied(s.worker)
  }

  /** What `finish` has established once it stops waiting for the worker. */
  ghost predicate Settled(s: Observer) {
    Stopped(s.worker) && s.offered == s.evaluated && s.enqueued == s.processed == Quotes(s.offered)
  }

  ghost predicate NoEmptyBatch(batches: seq<Batch>) {
    forall i :: 0 <= i < |batches| ==> batches[i] != []
  }

  ghost predicate Sound(s: Observer) {
    && NoEmptyBatch(s.offered)
    && (s.failed ==> s.errors != [])
    && (s.errors == [] ==> Accounted(s))
    && (s.errors == [] && (PastJoin(s.caller) || s.finished) ==> Settled(s))
    && (s.finished <==> s.ended.Some?)
    && (s.finished ==>
          && s.caller.Ready? && Stopped(s.worker)
          && s.ended.value == EndRecord(|s.errors|, s.enqueued, s.processed))
    && (PastJoin(s.caller) ==> Stopped(s.worker))
    && (s.caller.TimedOut? ==> s.errors != [])
  }

  lemma ErrorsOnlyGrow(s: Observer, op: CallerOp)
    requires CallerEnabled(s, op)
    ensures s.errors <= CallerStep(s, op).errors
  {
  }

  lemma AccountedAfterObserve(s: Observer, batch: Batch)
    requires Accounted(s) && CallerEnabled(s, Observe(batch)) && batch != [] && !s.finished && !s.failed
    ensures Accounted(CallerStep(s, Observe(batch)))
  {
    QuotesOfConcatenation(s.offered, [batch]);
    QuotesOfOne(batch);
    NoneIsZero();
    hide Quotes, InHand;
    var before := s.evaluated + InHand(s.worker) + s.queue;
    assert before + [] == before;
  }

  lemma AccountedAfterPut(s: Observer, op: CallerOp)
    requires Accounted(s) && CallerEnabled(s, op) && (op.Put? || op.Count?)
    ensures CallerStep(s, op).errors == [] ==> Accounted(CallerStep(s, op))
  {
    NoneIsZero();
    hide Quotes, InHand;
    var before := s.evaluated + InHand(s.worker);
    if op.Put? {
      QuotesOfOne(s.caller.batch);
      assert before + (s.queue + [s.caller.batch]) + [] == before + s.queue + [s.caller.batch];
    }
  }

  lemma NoneIsZero()
    ensures Quotes([]) == 0
  {
  }

  lemma QuotesOfOne(batch: Batch)
    ensures Quotes([batch]) == |batch|
  {
    assert Quotes([batch][..0]) == 0;
  }

  lemma SoundAfterObserve(s: Observer, op: CallerOp)
    requires Sound(s) && CallerEnabled(s, op) && (op.Observe? || op.Put? || op.Count?)
    ensures Sound(CallerStep(s, op))
  {
    hide Accounted, Quotes, Settled;
    if s.errors == [] {
      if op.Observe? {
        if op.batch != [] && !s.finished && !s.failed { AccountedAfterObserve(s, op.batch); }
      } else {
        AccountedAfterPut(s, op);
      }
    }
    assert NoEmptyBatch(CallerStep(s, op).offered);
    hide NoEmptyBatch;
  }

  /** Steps that only change program counters and flags keep the accounting. */
  lemma SameAccount(s: Observer, t: Observer)
    requires t.offered == s.offered && t.evaluated == s.evaluated && t.queue == s.queue
    requires t.enqueued == s.enqueued && t.processed == s.processed
    requires InHand(t.worker) == InHand(s.worker) && Untallied(t.worker) == Untallied(s.worker)
    requires Unput(t.caller) == Unput(s.caller) && Uncounted(t.caller) == Uncounted(s.caller)
    ensures Accounted(s) ==> Accounted(t)
    ensures Settled(s) && Stopped(t.worker) ==> Settled(t)
    ensures NoEmptyBatch(s.offered) ==> NoEmptyBatch(t.offered)
  {
  }

  lemma SoundAfterJoin(s: Observer, op: CallerOp)
    requires Sound(s) && CallerEnabled(s, op) && op.Join?
    ensures Sound(CallerStep(s, op))
  {
    SameAccount(s, CallerStep(s, op));
    if s.errors == [] && s.enqueued == s.processed {
      NothingLeft(s);
    }
    hide Quotes, NoEmptyBatch, Accounted, Settled;
  }

  lemma SoundAfterFinish(s: Observer, op: CallerOp)
    requires Sound(s) && CallerEnabled(s, op) && !op.Observe? && !op.Put? && !op.Count? && !op.Join?
    ensures Sound(CallerStep(s, op))
  {
    hide Quotes, NoEmptyBatch, Accounted, Settled;
    SameAccount(s, CallerStep(s, op));
  }

  lemma NoEmptyAtTheEnd(a: seq<Batch>, b: seq<Batch>)
    requires NoEmptyBatch(a + b)
    ensures NoEmptyBatch(b)
  {
    assert forall i :: 0 <= i < |b| ==> (a + b)[|a| + i] == b[i];
  }

  /** Equal counters leave nothing in hand and nothing in the queue. */
  lemma NothingLeft(s: Observer)
    requires Sound(s) && s.errors == [] && s.caller.Joining? && Stopped(s.worker) && s.enqueued == s.processed
    ensures Settled(s)
  {
    var left := InHand(s.worker) + s.queue;
    assert s.offered == s.evaluated + left;
    QuotesOfConcatenation(s.evaluated, left);
    NoEmptyAtTheEnd(s.evaluated, left);
    NoQuotesNoBatches(left);
  }

  lemma AccountedAfterGet(s: Observer)
    requires Accounted(s) && WorkerEnabled(s, Get)
    ensures Accounted(WorkerStep(s, Get))
  {
    hide Quotes;
    assert s.queue == [s.queue[0]] + s.queue[1..];
  }

  lemma EvaluateMoves(s: Observer)
    requires WorkerEnabled(s, Evaluate(None))
    ensures var t, c := WorkerStep(s, Evaluate(None)), s.worker.current;
      && t == s.(worker := Evaluated(c), evaluated := s.evaluated + [c])
      && InHand(s.worker) == [c] && InHand(t.worker) == [] && Untallied(s.worker) == 0 && Untallied(t.worker) == |c|
  {
  }

  lemma AccountedAfterEvaluate(s: Observer)
    requires Accounted(s) && WorkerEnabled(s, Evaluate(None))
    ensures Accounted(WorkerStep(s, Evaluate(None)))
  {
    hide Quotes, Unput, Uncounted, InHand, Untallied, WorkerStep;
    EvaluateMoves(s);
    var t, c := WorkerStep(s, Evaluate(None)), s.worker.current;
    hide WorkerEnabled;
    QuotesOfConcatenation(s.evaluated, [c]);
    QuotesOfOne(c);
    assert t.evaluated + [] == t.evaluated;
  }

  lemma AccountedAfterTally(s: Observer)
    requires Accounted(s) && WorkerEnabled(s, Tally) && !s.failed
    ensures Accounted(WorkerStep(s, Tally))
  {
    hide Quotes;
  }

  lemma SoundAfterWorker(s: Observer, op: WorkerOp)
    requires Sound(s) && WorkerEnabled(s, op)
    ensures Sound(WorkerStep(s, op)) && s.errors <= WorkerStep(s, op).errors
  {
    hide Quotes, Accounted, Settled, NoEmptyBatch;
    if s.errors == [] {
      if op.Get? {
        AccountedAfterGet(s);
      } else if op == Evaluate(None) {
        AccountedAfterEvaluate(s);
      } else if op.Tally? {
        AccountedAfterTally(s);
      } else if !op.Evaluate? {
        SameAccount(s, WorkerStep(s, op));
      }
    }
  }

  lemma SoundStep(s: Observer, t: Observer)
    requires Sound(s) && Step(s, t)
    ensures Sound(t) && s.errors <= t.errors
  {
    hide Sound, CallerStep, WorkerStep, CallerEnabled, WorkerEnabled;
    if op :| WorkerEnabled(s, op) && t == WorkerStep(s, op) {
      SoundAfterWorker(s, op);
    } else {
      var op :| CallerEnabled(s, op) && t == CallerStep(s, op);
      ErrorsOnlyGrow(s, op);
      if op.Observe? || op.Put? || op.Count? {
        SoundAfterObserve(s, op);
      } else if op.Join? {
        SoundAfterJoin(s, op);
      } else {
        SoundAfterFinish(s, op);
      }
    }
  }

  lemma {:induction false} SoundThroughout(states: seq<Observer>, k: nat, later: nat)
    requires Run(states) && k <= later < |states|
    ensures Sound(states[k]) && Sound(states[later]) && states[k].errors <= states[later].errors
    decreases later
  {
    hide Sound, Step;
    if later == 0 {
      InitiallySound(states[0]);
    } else {
      SoundThroughout(states, if k < later then k else later - 1, later - 1);
      assert Step(states[later - 1], states[later - 1 + 1]);
      SoundStep(states[later - 1], states[later]);
    }
  }

  lemma InitiallySound(s: Observer)
    requires Initial(s)
    ensures Sound(s)
  {
  }

  // ---------------------------------------------------------------- the verdict

  /** The Gate-3 evidence fields fed by SESSION_ENDED (gate3/collector.py), absent counters read as zero. */
  function RuntimeErrorCount(ended: Option<EndRecord>): nat {
    if ended.Some? then ended.value.runtimeErrors else 0
  }

  /** The session ended, and without a runtime error. */
  predicate PassesSessionMetrics(ended: Option<EndRecord>) {
    ended.Some? && RuntimeErrorCount(ended) == 0
  }

  /** A session that passes lost no quote: all were evaluated, once, in the order they were offered. */
  lemma NoSilentQuoteLoss(states: seq<Observer>, k: nat)
    requires Run(states) && k < |states|
    requires PassesSessionMetrics(states[k].ended)
    ensures states[k].evaluated == states[k].offered
    ensures states[k].ended.value.enqueued == states[k].ended.value.processed == Quotes(states[k].offered)
  {
    SoundThroughout(states, k, k);
  }

  /** A batch that was dropped, lost or failed keeps the session from passing, then and later. */
  lemma LossIsRejected(states: seq<Observer>, k: nat, later: nat)
    requires Run(states) && k <= later < |states|
    requires states[k].failed || (states[k].finished && states[k].evaluated != states[k].offered)
    ensures !PassesSessionMetrics(states[later].ended)
  {
    SoundThroughout(states, k, later);
    assert states[k].errors != [];
  }

  /** The metrics are not unsatisfiable: a run that offers a batch and evaluates it passes. */
  lemma CleanRunPasses(batch: Batch) returns (run: seq<Observer>)
    requires batch != []
    ensures Run(run) && PassesSessionMetrics(run[|run| - 1].ended)
    ensures run[|run| - 1].evaluated == [batch]
  {
    var s;
    run, s := EvaluateOne(batch);
    run, s := ExtendByCaller(run, s, Finish);
    run, s := ExtendByWorker(run, s, Exit);
    run, s := ExtendByCaller(run, s, Join(""));
    run, s := ExtendByCaller(run, s, Replay(None));
    run, s := ExtendByCaller(run, s, Close(None));
    run, s := ExtendByCaller(run, s, Snapshot(None));
    run, s := ExtendByCaller(run, s, End);
  }

  lemma EvaluateOne(batch: Batch) returns (run: seq<Observer>, s: Observer)
    requires batch != []
    ensures Run(run) && run[|run| - 1] == s
    ensures s == Observer([], false, false, [], |batch|, |batch|, false, Ready, Waiting, None, [batch], [batch])
  {
    s := Observer([], false, false, [], 0, 0, false, Ready, Waiting, None, [], []);
    run := [s];
    run, s := ExtendByCaller(run, s, Observe(batch));
    run, s := ExtendByCaller(run, s, Put(""));
    run, s := ExtendByWorker(run, s, Get);
    run, s := ExtendByWorker(run, s, Check);
    run, s := ExtendByWorker(run, s, Evaluate(None));
    run, s := ExtendByCaller(run, s, Count);
    run, s := ExtendByWorker(run, s, Tally);
  }

  lemma ExtendByCaller(states: seq<Observer>, s: Observer, op: CallerOp) returns (longer: seq<Observer>, t: Observer)
    requires Run(states) && states[|states| - 1] == s && CallerEnabled(s, op)
    ensures Run(longer) && longer[|longer| - 1] == t == CallerStep(s, op)
  {
    t := CallerStep(s, op);
    longer := Extend(states, t);
  }

  lemma ExtendByWorker(states: seq<Observer>, s: Observer, op: WorkerOp) returns (longer: seq<Observer>, t: Observer)
    requires Run(states) && states[|states| - 1] == s && WorkerEnabled(s, op)
    ensures Run(longer) && longer[|longer| - 1] == t == WorkerStep(s, op)
  {
    t := WorkerStep(s, op);
    longer := Extend(states, t);
  }

  lemma Extend(states: seq<Observer>, t: Observer) returns (longer: seq<Observer>)
    requires Run(states) && Step(states[|states| - 1], t)
    ensures Run(longer) && longer[|longer| - 1] == t
  {
    hide Step;
    longer := states + [t];
    forall k | 0 <= k < |longer| - 1 ensures Step(longer[k], longer[k + 1]) {
      assert longer[k] == states[k];
      if k < |states| - 1 { assert longer[k + 1] == states[k + 1]; }
    }
  }
}
