/**
 Starting and stopping the WebSocket client (src/api/kis_websocket.py). `stop` sets an event, waits
 five seconds for the thread and then lets go of it, whether or not its loop has ended; `start` asks
 only the thread it still holds, and clears the event. So a loop that sleeps in its back-off can
 outlive its `stop`, and go on beside the loop of the next `start`.

 One step is one call of the thread that starts and stops the client, or what one loop does up to
 its next wait.
 */
module WebSocketLoops {
  import opened Common
  import opened WebSocketSession

  datatype Pc =
    | Checking
    | Opening
    | Replaying(wanted: seq<Subscription>, sent: nat)
    | Streaming
    | Sleeping
    | Ended

  /** A run of the loop: its failed attempts and the turns it has finished. */
  datatype Loop = Loop(pc: Pc, attempts: nat, turns: seq<Iteration>)

  /** `thread` is the loop whose thread the client holds; `givenUp` are those a `stop` let go of while they lived. */
  datatype Client = Client(
    stopSet: bool, thread: Option<nat>, joining: bool, givenUp: set<nat>,
    loops: seq<Loop>, generation: nat, log: seq<Event>)

  datatype Op =
    | Start
    | Stop
    | JoinEnds
    | JoinGivesUp
    | Other(action: Action, key: Key)
    | Run(i: nat, step: LoopStep)

  datatype LoopStep =
    | Check
    | Refuse(failure: Failure, random: real)
    | Connect(wanted: seq<Subscription>)
    | Send
    | BreakReplay(failure: Failure, random: real)
    | Announce
    | EndStream
    | BreakStream(failure: Failure, random: real)
    | Wake

  predicate Alive(s: Client, i: nat) { i < |s.loops| && !s.loops[i].pc.Ended? }

  /** `self._thread is not None and self._thread.is_alive()`. */
  predicate HoldsLiveThread(s: Client) { s.thread.Some? && Alive(s, s.thread.value) }

  predicate StepEnabled(pc: Pc, step: LoopStep) {
    match step
    case Check => pc.Checking?
    case Refuse(_, random) => pc.Opening? && 0.0 <= random < 1.0
    case Connect(_) => pc.Opening?
    case Send => pc.Replaying? && pc.sent < |pc.wanted|
    case BreakReplay(_, random) => pc.Replaying? && 0.0 <= random < 1.0
    case Announce => pc.Replaying? && pc.sent == |pc.wanted|
    case EndStream => pc.Streaming?
    case BreakStream(_, random) => pc.Streaming? && 0.0 <= random < 1.0
    case Wake => pc.Sleeping?
  }

  predicate Enabled(s: Client, op: Op) {
    match op
    case Start => !s.joining
    case Stop => !s.joining
    case JoinEnds => s.joining && !HoldsLiveThread(s)
    case JoinGivesUp => s.joining && HoldsLiveThread(s)
    case Other(_, _) => true
    case Run(i, step) => i < |s.loops| && StepEnabled(s.loops[i].pc, step)
  }

  /** Where a loop can fail: opening, replaying and streaming, at any time and with any random number. */
  lemma LoopCanFail(pc: Pc, failure: Failure, random: real)
    requires 0.0 <= random < 1.0
    ensures StepEnabled(pc, Refuse(failure, random)) <==> pc == Opening
    ensures StepEnabled(pc, BreakReplay(failure, random)) <==> pc.Replaying?
    ensures StepEnabled(pc, BreakStream(failure, random)) <==> pc == Streaming
    ensures StepEnabled(pc, EndStream) <==> pc == Streaming
    ensures StepEnabled(pc, Send) || StepEnabled(pc, Announce) <==> pc.Replaying? && pc.sent <= |pc.wanted|
  {
  }

  /** A `stop` that waits for its thread ends in exactly one of two ways, and nothing else waits. */
  lemma JoinDecides(s: Client)
    ensures Enabled(s, JoinEnds) || Enabled(s, JoinGivesUp) <==> s.joining
    ensures !(Enabled(s, JoinEnds) && Enabled(s, JoinGivesUp))
    ensures Enabled(s, JoinGivesUp) ==> s.thread.Some? && s.thread.value < |s.loops|
                                        && s.loops[s.thread.value].pc != Ended
    ensures Enabled(s, Start) <==> !s.joining
    ensures Enabled(s, Stop) <==> !s.joining
  {
  }

  // ---------------------------------------------------------------- what a loop does

  datatype Outcome = Outcome(loop: Loop, generation: nat, events: seq<Event>)

  function NoMessages(i: nat): seq<(Action, Key)> { [] }

  function Delay(b: Backoff, attempts: nat, random: real): real { Base(b, attempts) + random * b.jitter }

  /** The outer handlers of a turn. */
  function Handled(
      b: Backoff, stopSet: bool, g: nat, l: Loop, turn: Iteration, failure: Failure, random: real): Outcome
  {
    var turns := l.turns + [turn];
    if failure.AuthError? then Outcome(Loop(Ended, l.attempts, turns), g, [Disconnected(g)])
    else if stopSet then Outcome(Loop(Ended, l.attempts, turns), g, [])
    else Outcome(Loop(Sleeping, l.attempts + 1, turns), g, [Disconnected(g), Slept(Delay(b, l.attempts, random))])
  }

  function Stepped(b: Backoff, stopSet: bool, g: nat, l: Loop, step: LoopStep): Outcome
    requires StepEnabled(l.pc, step)
  {
    match step
    case Check => Outcome(l.(pc := if stopSet then Ended else Opening), g, [])
    case Refuse(failure, random) =>
      Handled(b, stopSet, g, l, Refused(failure, stopSet, random), failure, random)
    case Connect(wanted) =>
      Outcome(l.(pc := Replaying(wanted, 0), attempts := 0), g + 1, [ReplayTaken(g + 1, wanted)])
    case Send =>
      var (wanted, n) := (l.pc.wanted, l.pc.sent);
      Outcome(l.(pc := Replaying(wanted, n + 1)), g, [Sent(g, SUBSCRIBE, KeyOf(wanted[n]))])
    case BreakReplay(failure, random) =>
      Handled(b, stopSet, g, l, ReplayFails([], NoMessages, l.pc.sent, failure, stopSet, random), failure, random)
    case Announce => Outcome(l.(pc := Streaming), g, [Connected(g)])
    case EndStream =>
      Outcome(Loop(Checking, l.attempts, l.turns + [StreamEnds([], NoMessages, stopSet)]), g,
              if stopSet then [] else [Disconnected(g)])
    case BreakStream(failure, random) =>
      Handled(b, stopSet, g, l, StreamFails([], NoMessages, failure, stopSet, random), failure, random)
    case Wake => Outcome(l.(pc := Checking), g, [])
  }

  function Apply(b: Backoff, s: Client, op: Op): Client
    requires Enabled(s, op)
  {
    match op
    case Start =>
      if HoldsLiveThread(s) then s
      else
        s.(stopSet := false, thread := Some(|s.loops|),
           loops := s.loops + [Loop(Checking, 0, [])], log := s.log + [Started])
    case Stop => s.(stopSet := true, joining := s.thread.Some?)
    case JoinEnds => s.(thread := None, joining := false)
    case JoinGivesUp => s.(thread := None, joining := false, givenUp := s.givenUp + {s.thread.value})
    case Other(action, key) => s.(log := s.log + [Sent(s.generation, action, key)])
    case Run(i, step) =>
      var o := Stepped(b, s.stopSet, s.generation, s.loops[i], step);
      s.(loops := s.loops[i := o.loop], generation := o.generation, log := s.log + o.events)
  }

  const INITIAL := Client(false, None, false, {}, [], 0, [])

  ghost predicate History(b: Backoff, states: seq<Client>, ops: seq<Op>) {
    && ValidBackoff(b)
    && |states| == |ops| + 1 && states[0] == INITIAL
    && forall k :: 0 <= k < |ops| ==> Enabled(states[k], ops[k]) && states[k + 1] == Apply(b, states[k], ops[k])
  }

  // ---------------------------------------------------------------- at most one live loop

  ghost predicate AtMostOneAlive(s: Client) {
    forall i: nat, j: nat :: Alive(s, i) && Alive(s, j) ==> i == j
  }

  /** A `start` while a loop lives that an earlier `stop` gave up on. */
  ghost predicate Overlaps(s: Client, op: Op) {
    op.Start? && exists i: nat :: i in s.givenUp && Alive(s, i)
  }

  /** Whoever lives is held by the client or was given up on, and not both. */
  ghost predicate Accounted(s: Client) {
    && (forall i: nat :: Alive(s, i) ==> s.thread == Some(i) || i in s.givenUp)
    && (forall i: nat :: i in s.givenUp ==> i < |s.loops|)
    && (s.thread.Some? ==> s.thread.value < |s.loops| && s.thread.value !in s.givenUp)
    && (s.joining ==> s.thread.Some?)
  }

  /** A step of a loop wakes nobody up. */
  lemma OnlyStartCreates(b: Backoff, s: Client, op: Op)
    requires Enabled(s, op)
    ensures var t := Apply(b, s, op);
      && |s.loops| <= |t.loops|
      && (!(op.Start? && !HoldsLiveThread(s)) ==>
            |t.loops| == |s.loops| && forall i: nat :: Alive(t, i) ==> Alive(s, i))
      && (op.Start? && !HoldsLiveThread(s) ==> forall i: nat :: Alive(t, i) <==> Alive(s, i) || i == |s.loops|)
  {
    hide Stepped;
  }

  lemma AccountedKept(b: Backoff, s: Client, op: Op)
    requires Accounted(s) && Enabled(s, op)
    ensures Accounted(Apply(b, s, op))
  {
    OnlyStartCreates(b, s, op);
    hide Stepped, Alive;
  }

  lemma OverlapIffTwo(b: Backoff, s: Client, op: Op)
    requires Accounted(s) && Enabled(s, op) && AtMostOneAlive(s)
    ensures AtMostOneAlive(Apply(b, s, op)) <==> !Overlaps(s, op)
  {
    OnlyStartCreates(b, s, op);
    var t := Apply(b, s, op);
    if Overlaps(s, op) {
      var i: nat :| i in s.givenUp && Alive(s, i);
      if !HoldsLiveThread(s) { assert Alive(t, i) && Alive(t, |s.loops|); }
    }
    hide Apply;
  }

  /**
   In every history at most one loop is ever alive if and only if the client is never started while
   a loop lives that an earlier stop gave up on.
   */
  lemma {:induction false} OneAliveIffNoOverlap(b: Backoff, states: seq<Client>, ops: seq<Op>, n: nat)
    requires History(b, states, ops) && n <= |ops|
    ensures Accounted(states[n])
    ensures (forall k :: 0 <= k <= n ==> AtMostOneAlive(states[k])) <==>
      forall k :: 0 <= k < n ==> !Overlaps(states[k], ops[k])
  {
    if n > 0 {
      var s, op := states[n - 1], ops[n - 1];
      OneAliveIffNoOverlap(b, states, ops, n - 1);
      assert Enabled(s, op) && states[n - 1 + 1] == Apply(b, s, op);
      hide AtMostOneAlive, Accounted, Apply, Enabled, Overlaps;
      AccountedKept(b, s, op);
      if AtMostOneAlive(s) { OverlapIffTwo(b, s, op); }
    }
  }

  // ---------------------------------------------------------------- the log of one live loop

  /** The replay has sent its first `n` subscriptions in the current generation. */
  ghost predicate SentSoFar(log: seq<Event>, g: nat, wanted: seq<Subscription>, n: nat) {
    n <= |wanted| && exists j :: 0 <= j < |log| && log[j] == ReplayTaken(g, wanted) && SentAll(log, j, g, wanted[..n])
  }

  /** What the log says while the last loop is at its program counter. */
  ghost predicate LoopLog(stopSet: bool, g: nat, l: Loop, log: seq<Event>) {
    match l.pc
    case Checking => stopSet || (Quiet(log) && l.attempts == Failures(log))
    case Opening => Quiet(log) && l.attempts == Failures(log)
    case Replaying(wanted, n) =>
      Quiet(log) && l.attempts == Failures(log) == 0 && Below(log, g) && SentSoFar(log, g, wanted, n)
    case Streaming => l.attempts == Failures(log) == 0
    case Sleeping => Quiet(log) && l.attempts == Failures(log)
    case Ended => true
  }

  ghost predicate LogOk(b: Backoff, stopSet: bool, g: nat, l: Loop, log: seq<Event>) {
    ValidBackoff(b) && LogSound(b, log) && UpTo(log, g) && LoopLog(stopSet, g, l, log)
  }

  lemma OneEvent(b: Backoff, log: seq<Event>, e: Event, g: nat)
    requires LogSound(b, log) && EventSound(b, log, e) && UpTo(log, g) && UpTo([e], g)
    ensures LogSound(b, log + [e]) && UpTo(log + [e], g)
    ensures Quiet(log + [e]) <==> e.Disconnected? || e.Started? || (!e.Connected? && Quiet(log))
    ensures Failures(log + [e]) ==
      if e.Started? || e.ReplayTaken? then 0 else Failures(log) + if e.Slept? then 1 else 0
  {
    Grow(b, log, e);
    hide LogSound, EventSound, Quiet, Failures;
    assert [e][0] == e;
  }

  lemma Calm(b: Backoff, log: seq<Event>, e: Event, g: nat)
    requires e.Sent? || e.Disconnected? || e.Started?
    ensures EventSound(b, log, e) && UpTo([e], g)
    ensures Below(log, g) ==> Below(log + [e], g)
  {
  }

  lemma {:induction false} SentSoFarStays(log: seq<Event>, e: Event, g: nat, wanted: seq<Subscription>, n: nat)
    requires SentSoFar(log, g, wanted, n)
    ensures SentSoFar(log + [e], g, wanted, n)
  {
    var more := log + [e];
    var j :| 0 <= j < |log| && log[j] == ReplayTaken(g, wanted) && SentAll(log, j, g, wanted[..n]);
    forall x | x in wanted[..n] ensures SentSince(more, j, g, KeyOf(x)) {
      var m :| 0 <= j < m < |log| && log[m] == Sent(g, SUBSCRIBE, KeyOf(x));
      assert more[m] == log[m];
    }
    assert more[j] == log[j];
  }

  lemma OneMoreSent(log: seq<Event>, g: nat, wanted: seq<Subscription>, n: nat)
    requires SentSoFar(log, g, wanted, n) && n < |wanted|
    ensures SentSoFar(log + [Sent(g, SUBSCRIBE, KeyOf(wanted[n]))], g, wanted, n + 1)
  {
    hide SentAll;
    var more := log + [Sent(g, SUBSCRIBE, KeyOf(wanted[n]))];
    var j :| 0 <= j < |log| && log[j] == ReplayTaken(g, wanted) && SentAll(log, j, g, wanted[..n]);
    SentAllGrows(log, more, j, g, wanted, n);
    assert more[j] == log[j];
  }

  lemma AllSentSoFar(log: seq<Event>, g: nat, wanted: seq<Subscription>)
    requires SentSoFar(log, g, wanted, |wanted|)
    ensures Replayed(log, g)
  {
    hide SentAll, Replayed;
    assert wanted[..|wanted|] == wanted;
    var j :| 0 <= j < |log| && log[j] == ReplayTaken(g, wanted) && SentAll(log, j, g, wanted[..|wanted|]);
    AllSentIsReplayed(log, j, g);
  }

  lemma ConnectKeepsLog(b: Backoff, stopSet: bool, g: nat, l: Loop, log: seq<Event>, wanted: seq<Subscription>)
    requires LogOk(b, stopSet, g, l, log) && l.pc.Opening?
    ensures var o := Stepped(b, stopSet, g, l, Connect(wanted)); LogOk(b, stopSet, o.generation, o.loop, log + o.events)
  {
    var e := ReplayTaken(g + 1, wanted);
    TakenSound(b, log, g + 1, wanted);
    assert UpTo(log, g + 1) && Below(log, g + 1);
    hide EventSound, LogSound, Quiet, Failures, UpTo, Below;
    OneEvent(b, log, e, g + 1);
    var more := log + [e];
    assert more[|log|] == e;
    NothingToSend(more, |log|, g + 1, wanted[..0]);
  }

  lemma SendKeepsLog(b: Backoff, stopSet: bool, g: nat, l: Loop, log: seq<Event>)
    requires LogOk(b, stopSet, g, l, log) && StepEnabled(l.pc, Send)
    ensures var o := Stepped(b, stopSet, g, l, Send); LogOk(b, stopSet, o.generation, o.loop, log + o.events)
  {
    hide EventSound, LogSound, Quiet, Failures, UpTo, Below, SentSoFar;
    var e := Sent(g, SUBSCRIBE, KeyOf(l.pc.wanted[l.pc.sent]));
    Calm(b, log, e, g);
    OneEvent(b, log, e, g);
    OneMoreSent(log, g, l.pc.wanted, l.pc.sent);
  }

  lemma AnnounceKeepsLog(b: Backoff, stopSet: bool, g: nat, l: Loop, log: seq<Event>)
    requires LogOk(b, stopSet, g, l, log) && StepEnabled(l.pc, Announce)
    ensures var o := Stepped(b, stopSet, g, l, Announce); LogOk(b, stopSet, o.generation, o.loop, log + o.events)
  {
    AllSentSoFar(log, g, l.pc.wanted);
    hide LogSound, Quiet, Failures, Below, Replayed, SentSoFar;
    assert UpTo([Connected(g)], g);
    hide UpTo;
    OneEvent(b, log, Connected(g), g);
  }

  lemma HandledKeepsLog(
      b: Backoff, stopSet: bool, g: nat, l: Loop, log: seq<Event>, turn: Iteration, failure: Failure, random: real)
    requires ValidBackoff(b) && LogSound(b, log) && UpTo(log, g)
    requires l.attempts == Failures(log) && 0.0 <= random < 1.0
    ensures var o := Handled(b, stopSet, g, l, turn, failure, random);
      LogOk(b, stopSet, o.generation, o.loop, log + o.events)
  {
    hide EventSound, LogSound, Quiet, Failures, Base;
    var e := Disconnected(g);
    Calm(b, log, e, g);
    OneEvent(b, log, e, g);
    assert log + [] == log;
    if failure.OtherError? && !stopSet {
      var delay := Delay(b, l.attempts, random);
      SleptSound(b, log + [e], random, delay);
      hide Delay;
      OneEvent(b, log + [e], Slept(delay), g);
      assert log + [e] + [Slept(delay)] == log + [e, Slept(delay)];
    }
  }

  lemma StepKeepsLog(b: Backoff, stopSet: bool, g: nat, l: Loop, log: seq<Event>, step: LoopStep)
    requires LogOk(b, stopSet, g, l, log) && StepEnabled(l.pc, step)
    ensures var o := Stepped(b, stopSet, g, l, step); LogOk(b, stopSet, o.generation, o.loop, log + o.events)
  {
    hide EventSound, LogSound, Quiet, Failures, UpTo, Below, SentSoFar, Handled;
    assert log + [] == log;
    match step
    case Connect(wanted) => ConnectKeepsLog(b, stopSet, g, l, log, wanted);
    case Send => SendKeepsLog(b, stopSet, g, l, log);
    case Announce => AnnounceKeepsLog(b, stopSet, g, l, log);
    case Refuse(failure, random) =>
      HandledKeepsLog(b, stopSet, g, l, log, Refused(failure, stopSet, random), failure, random);
    case BreakReplay(failure, random) =>
      var turn := ReplayFails([], NoMessages, l.pc.sent, failure, stopSet, random);
      HandledKeepsLog(b, stopSet, g, l, log, turn, failure, random);
    case BreakStream(failure, random) =>
      HandledKeepsLog(b, stopSet, g, l, log, StreamFails([], NoMessages, failure, stopSet, random), failure, random);
    case EndStream =>
      Calm(b, log, Disconnected(g), g);
      OneEvent(b, log, Disconnected(g), g);
    case Check =>
    case Wake =>
  }

  // ---------------------------------------------------------------- the announcements of one live loop

  function TurnsOf(loops: seq<Loop>): seq<seq<Iteration>> {
    seq(|loops|, i requires 0 <= i < |loops| => loops[i].turns)
  }

  /** The turns of all loops, the one under way included once it has announced its connection. */
  function TurnsSoFar(loops: seq<Loop>): seq<seq<Iteration>> {
    seq(|loops|, i requires 0 <= i < |loops| =>
      loops[i].turns + if loops[i].pc.Streaming? then [StreamEnds([], NoMessages, false)] else [])
  }

  /** What has been announced, given what the loops before this one had. */
  function Expected(before: Announcements, l: Loop): Announcements {
    var a := AfterRun(before, l.turns);
    if l.pc.Streaming? then Announcements(true, a.separated && !a.open) else a
  }

  ghost predicate AllGoOn(turns: seq<Iteration>) { forall k :: 0 <= k < |turns| ==> GoesOn(turns[k]) }

  ghost predicate SumOk(stopSet: bool, before: Announcements, l: Loop, log: seq<Event>) {
    && Announced(log) == Expected(before, l)
    && (l.pc.Ended? || (l.pc.Checking? && stopSet) || AllGoOn(l.turns))
  }

  lemma {:induction false} AfterOneMoreTurn(a: Announcements, turns: seq<Iteration>, it: Iteration)
    requires AllGoOn(turns)
    ensures AfterRun(a, turns + [it]) == AfterTurn(AfterRun(a, turns), it)
    ensures GoesOn(it) ==> AllGoOn(turns + [it])
    decreases |turns|
  {
    if turns == [] {
      assert turns + [it] == [it] && [it][1..] == [];
    } else {
      var rest := turns[1..];
      assert (turns + [it])[1..] == rest + [it];
      assert GoesOn(turns[0]) && AllGoOn(rest);
      hide AfterTurn, GoesOn;
      AfterOneMoreTurn(AfterTurn(a, turns[0]), rest, it);
    }
  }

  lemma AnnouncedOne(log: seq<Event>, e: Event)
    ensures Announced(log + [e]) == AfterEvent(Announced(log), e)
  {
    assert (log + [e])[..|log|] == log;
  }

  lemma HandledAnnounces(
      b: Backoff, stopSet: bool, g: nat, l: Loop, log: seq<Event>, turn: Iteration, failure: Failure, random: real)
    ensures var o := Handled(b, stopSet, g, l, turn, failure, random);
      && Announced(log + o.events) == (if failure.OtherError? && stopSet then Announced(log)
                                       else Announcements(false, Announced(log).separated))
      && o.loop.turns == l.turns + [turn] && !o.loop.pc.Streaming?
      && (o.loop.pc.Ended? || (failure.OtherError? && !stopSet))
  {
    var e, delay := Disconnected(g), Delay(b, l.attempts, random);
    AnnouncedOne(log, e);
    AnnouncedOne(log + [e], Slept(delay));
    hide Announced, Delay;
    assert log + [e] + [Slept(delay)] == log + [e, Slept(delay)];
    assert log + [] == log;
  }

  lemma HandledKeepsSum(
      b: Backoff, stopSet: bool, g: nat, before: Announcements, l: Loop, log: seq<Event>, turn: Iteration,
      failure: Failure, random: real)
    requires SumOk(stopSet, before, l, log) && AllGoOn(l.turns)
    requires !turn.StreamEnds? && turn.failure == failure && turn.stopped == stopSet
    requires turn.StreamFails? <==> l.pc.Streaming?
    ensures var o := Handled(b, stopSet, g, l, turn, failure, random);
      SumOk(stopSet, before, o.loop, log + o.events)
  {
    AfterOneMoreTurn(before, l.turns, turn);
    HandledAnnounces(b, stopSet, g, l, log, turn, failure, random);
    hide Announced, AfterRun, AllGoOn, Handled;
  }

  lemma StepKeepsSum(
      b: Backoff, stopSet: bool, g: nat, before: Announcements, l: Loop, log: seq<Event>, step: LoopStep)
    requires SumOk(stopSet, before, l, log) && StepEnabled(l.pc, step)
    ensures var o := Stepped(b, stopSet, g, l, step); SumOk(stopSet, before, o.loop, log + o.events)
  {
    hide Announced, AfterRun, AllGoOn, Handled;
    assert log + [] == log;
    match step
    case Connect(wanted) => AnnouncedOne(log, ReplayTaken(g + 1, wanted));
    case Send => AnnouncedOne(log, Sent(g, SUBSCRIBE, KeyOf(l.pc.wanted[l.pc.sent])));
    case Announce => AnnouncedOne(log, Connected(g));
    case Refuse(failure, random) =>
      HandledKeepsSum(b, stopSet, g, before, l, log, Refused(failure, stopSet, random), failure, random);
    case BreakReplay(failure, random) =>
      var turn := ReplayFails([], NoMessages, l.pc.sent, failure, stopSet, random);
      HandledKeepsSum(b, stopSet, g, before, l, log, turn, failure, random);
    case BreakStream(failure, random) =>
      var turn := StreamFails([], NoMessages, failure, stopSet, random);
      HandledKeepsSum(b, stopSet, g, before, l, log, turn, failure, random);
    case EndStream =>
      AfterOneMoreTurn(before, l.turns, StreamEnds([], NoMessages, stopSet));
      AnnouncedOne(log, Disconnected(g));
    case Check =>
    case Wake =>
  }

  // ---------------------------------------------------------------- histories without overlap

  /** All loops but the last have ended, and the log is what the last one and its predecessors make of it. */
  ghost predicate InOrder(b: Backoff, s: Client) {
    if s.loops == [] then
      ValidBackoff(b) && LogSound(b, s.log) && UpTo(s.log, s.generation) && Announced(s.log) == NONE_ANNOUNCED
    else
      var n := |s.loops| - 1;
      && (forall i: nat :: Alive(s, i) ==> i == n)
      && LogOk(b, s.stopSet, s.generation, s.loops[n], s.log)
      && SumOk(s.stopSet, AfterRuns(TurnsOf(s.loops[..n])), s.loops[n], s.log)
  }

  lemma InitiallyInOrder(b: Backoff)
    requires ValidBackoff(b)
    ensures InOrder(b, INITIAL)
  {
  }

  lemma AfterRunsSplit(loops: seq<Loop>)
    requires loops != []
    ensures AfterRuns(TurnsOf(loops))
         == AfterRun(AfterRuns(TurnsOf(loops[..|loops| - 1])), loops[|loops| - 1].turns)
  {
    assert TurnsOf(loops)[..|loops| - 1] == TurnsOf(loops[..|loops| - 1]);
  }

  /** Once every loop has ended, what is announced is what all of them made of it. */
  lemma AllEnded(b: Backoff, s: Client)
    requires InOrder(b, s) && forall i: nat :: !Alive(s, i)
    ensures ValidBackoff(b) && LogSound(b, s.log) && UpTo(s.log, s.generation)
    ensures Announced(s.log) == AfterRuns(TurnsOf(s.loops))
  {
    if s.loops == [] {
      NothingRun(s.loops);
    } else {
      AfterRunsSplit(s.loops);
      assert !Alive(s, |s.loops| - 1);
    }
    hide LogSound, UpTo, Announced, AfterRuns, TurnsOf;
  }

  lemma StartedLoop(b: Backoff, g: nat, before: Announcements, log: seq<Event>)
    requires ValidBackoff(b) && LogSound(b, log) && UpTo(log, g) && Announced(log) == before
    ensures LogOk(b, false, g, Loop(Checking, 0, []), log + [Started])
    ensures SumOk(false, before, Loop(Checking, 0, []), log + [Started])
  {
    hide LogSound, UpTo, Quiet, Failures, Announced, EventSound;
    Calm(b, log, Started, g);
    OneEvent(b, log, Started, g);
    AnnouncedOne(log, Started);
  }

  lemma StartKeepsOrder(b: Backoff, s: Client)
    requires InOrder(b, s) && Enabled(s, Start) && !HoldsLiveThread(s) && forall i: nat :: !Alive(s, i)
    ensures InOrder(b, Apply(b, s, Start))
  {
    AllEnded(b, s);
    hide LogOk, SumOk, LogSound, UpTo, Announced, AfterRuns, TurnsOf;
    StartedLoop(b, s.generation, AfterRuns(TurnsOf(s.loops)), s.log);
    OnlyStartCreates(b, s, Start);
    var t, n := Apply(b, s, Start), |s.loops|;
    assert t.loops[..n] == s.loops && t.loops[n] == Loop(Checking, 0, []);
    assert t.stopSet == false && t.generation == s.generation && t.log == s.log + [Started];
    hide Alive, HoldsLiveThread;
  }

  lemma NothingRun(loops: seq<Loop>)
    requires loops == []
    ensures AfterRuns(TurnsOf(loops)) == NONE_ANNOUNCED
  {
  }

  lemma OtherKeepsLog(b: Backoff, stopSet: bool, g: nat, l: Loop, log: seq<Event>, action: Action, key: Key)
    requires LogOk(b, stopSet, g, l, log)
    ensures LogOk(b, stopSet, g, l, log + [Sent(g, action, key)])
  {
    hide LogSound, UpTo, Quiet, Failures, EventSound, Below, SentSoFar;
    var e := Sent(g, action, key);
    Calm(b, log, e, g);
    OneEvent(b, log, e, g);
    if l.pc.Replaying? { SentSoFarStays(log, e, g, l.pc.wanted, l.pc.sent); }
  }

  lemma OtherKeepsOrder(b: Backoff, s: Client, action: Action, key: Key)
    requires InOrder(b, s)
    ensures InOrder(b, Apply(b, s, Other(action, key)))
  {
    hide LogSound, UpTo, Announced, AfterRuns, EventSound, Expected, LoopLog;
    var e := Sent(s.generation, action, key);
    Calm(b, s.log, e, s.generation);
    AnnouncedOne(s.log, e);
    if s.loops == [] {
      OneEvent(b, s.log, e, s.generation);
    } else {
      OtherKeepsLog(b, s.stopSet, s.generation, s.loops[|s.loops| - 1], s.log, action, key);
      hide LogOk;
      assert forall i: nat :: Alive(Apply(b, s, Other(action, key)), i) <==> Alive(s, i);
    }
  }

  lemma RunKeepsOrder(b: Backoff, s: Client, i: nat, step: LoopStep)
    requires InOrder(b, s) && Enabled(s, Run(i, step))
    ensures InOrder(b, Apply(b, s, Run(i, step)))
  {
    var n := |s.loops| - 1;
    assert Alive(s, i);
    var before := AfterRuns(TurnsOf(s.loops[..n]));
    StepKeepsLog(b, s.stopSet, s.generation, s.loops[n], s.log, step);
    StepKeepsSum(b, s.stopSet, s.generation, before, s.loops[n], s.log, step);
    OnlyStartCreates(b, s, Run(i, step));
    hide LogOk, SumOk, Stepped, Alive;
    var t := Apply(b, s, Run(i, step));
    assert t.loops[..n] == s.loops[..n];
  }

  lemma StopKeepsOrder(b: Backoff, s: Client)
    requires InOrder(b, s) && Enabled(s, Stop)
    ensures InOrder(b, Apply(b, s, Stop))
  {
    hide LogSound, UpTo, Quiet, Failures, Announced, AfterRuns, AllGoOn, SentSoFar;
    assert forall i: nat :: Alive(Apply(b, s, Stop), i) <==> Alive(s, i);
  }

  lemma NobodyAlive(s: Client)
    requires Accounted(s) && !HoldsLiveThread(s) && forall i: nat :: i in s.givenUp ==> !Alive(s, i)
    ensures forall i: nat :: !Alive(s, i)
  {
    hide Alive;
  }

  lemma OrderKept(b: Backoff, s: Client, op: Op)
    requires InOrder(b, s) && Accounted(s) && Enabled(s, op) && !Overlaps(s, op)
    ensures InOrder(b, Apply(b, s, op))
  {
    match op
    case Start =>
      if !HoldsLiveThread(s) {
        NobodyAlive(s);
        StartKeepsOrder(b, s);
      }
    case Stop => StopKeepsOrder(b, s);
    case Other(action, key) => OtherKeepsOrder(b, s, action, key);
    case Run(i, step) => RunKeepsOrder(b, s, i, step);
    case _ =>
      hide LogOk, SumOk;
      assert forall i: nat :: Alive(Apply(b, s, op), i) <==> Alive(s, i);
  }

  lemma {:induction false} OrderThroughout(b: Backoff, states: seq<Client>, ops: seq<Op>, n: nat)
    requires History(b, states, ops) && n <= |ops|
    requires forall k :: 0 <= k < n ==> !Overlaps(states[k], ops[k])
    ensures InOrder(b, states[n])
  {
    if n == 0 {
      InitiallyInOrder(b);
    } else {
      var s, op := states[n - 1], ops[n - 1];
      assert Enabled(s, op) && states[n - 1 + 1] == Apply(b, s, op);
      hide InOrder, Apply, Enabled, Overlaps, Accounted, AtMostOneAlive;
      OrderThroughout(b, states, ops, n - 1);
      OneAliveIffNoOverlap(b, states, ops, n - 1);
      assert !Overlaps(states[n - 1], ops[n - 1]);
      OrderKept(b, s, op);
    }
  }

  lemma SoFarSeparated(stopSet: bool, loops: seq<Loop>, log: seq<Event>)
    requires loops != [] && forall i :: 0 <= i < |loops| - 1 ==> loops[i].pc.Ended?
    requires SumOk(stopSet, AfterRuns(TurnsOf(loops[..|loops| - 1])), loops[|loops| - 1], log)
    ensures Announced(log).separated == AfterRuns(TurnsSoFar(loops)).separated
  {
    var n := |loops| - 1;
    var l, soFar := loops[n], TurnsSoFar(loops);
    assert soFar[..n] == TurnsOf(loops[..n]) by {
      forall i | 0 <= i < n ensures soFar[i] == loops[i].turns { assert loops[i].turns + [] == loops[i].turns; }
    }
    var before := AfterRuns(TurnsOf(loops[..n]));
    assert AfterRuns(soFar) == AfterRun(before, soFar[n]);
    hide AfterRuns, Announced, AfterRun, AllGoOn, TurnsSoFar, TurnsOf;
    if l.pc.Streaming? {
      AfterOneMoreTurn(before, l.turns, StreamEnds([], NoMessages, false));
    } else {
      assert l.turns + [] == l.turns;
    }
  }

  /**
   In every history without an overlapping start the log is sound: generations grow, and each
   announced connection has sent all its replay wanted. Any two connects then have a disconnect
   between them if and only if no loop connects first after one that was stopped while connected,
   with only silent loops between.
   */
  lemma SeparatedIffNoLoudRestart(b: Backoff, states: seq<Client>, ops: seq<Op>, n: nat)
    requires History(b, states, ops) && n <= |ops|
    requires forall k :: 0 <= k < n ==> !Overlaps(states[k], ops[k])
    ensures LogSound(b, states[n].log)
    ensures DisconnectsBetweenConnects(states[n].log) <==>
      forall j :: !ConnectsOverLoud(TurnsSoFar(states[n].loops), j)
  {
    OrderThroughout(b, states, ops, n);
    var s := states[n];
    AnnouncedMeans(s.log);
    SeparatedIff(TurnsSoFar(s.loops));
    hide LogSound, Announced, AfterRuns, TurnsSoFar, DisconnectsBetweenConnects, ConnectsOverLoud, History, Overlaps;
    if s.loops == [] {
      NothingSoFar(s.loops);
    } else {
      forall i | 0 <= i < |s.loops| - 1 ensures s.loops[i].pc.Ended? { assert !Alive(s, i); }
      SoFarSeparated(s.stopSet, s.loops, s.log);
    }
  }

  lemma NothingSoFar(loops: seq<Loop>)
    requires loops == []
    ensures AfterRuns(TurnsSoFar(loops)) == NONE_ANNOUNCED
  {
  }

  // ---------------------------------------------------------------- what an overlapping start does

  lemma Then(b: Backoff, states: seq<Client>, ops: seq<Op>, op: Op)
    returns (later: seq<Client>, more: seq<Op>, t: Client)
    requires History(b, states, ops) && Enabled(states[|ops|], op)
    ensures History(b, later, more) && t == later[|more|] == Apply(b, states[|ops|], op)
    ensures more == ops + [op] && later == states + [t]
  {
    t := Apply(b, states[|ops|], op);
    later, more := states + [t], ops + [op];
    hide Apply, Enabled;
    forall k | 0 <= k < |more| ensures Enabled(later[k], more[k]) && later[k + 1] == Apply(b, later[k], more[k]) {
      if k < |ops| { assert later[k] == states[k] && later[k + 1] == states[k + 1] && more[k] == ops[k]; }
    }
  }

  const REFUSED := Refused(OtherError, false, 0.0)

  /** The log of a loop whose first turn is refused. */
  function RefusedLog(b: Backoff): seq<Event> { [Started, Disconnected(0), Slept(Delay(b, 0, 0.0))] }

  lemma RefusedOnce(b: Backoff)
    ensures Stepped(b, false, 0, Loop(Opening, 0, []), Refuse(OtherError, 0.0))
         == Outcome(Loop(Sleeping, 1, [REFUSED]), 0, [Disconnected(0), Slept(Delay(b, 0, 0.0))])
  {
    hide Delay;
    assert [] + [REFUSED] == [REFUSED];
  }

  /** Refused once, asleep, and given up by `stop`. */
  lemma GivenUpAsleep(b: Backoff) returns (states: seq<Client>, ops: seq<Op>, s: Client)
    requires ValidBackoff(b)
    ensures History(b, states, ops) && s == states[|ops|]
    ensures s == Client(true, None, false, {0}, [Loop(Sleeping, 1, [REFUSED])], 0, RefusedLog(b))
  {
    hide Delay;
    states, ops, s := [INITIAL], [], INITIAL;
    states, ops, s := Then(b, states, ops, Start);
    states, ops, s := Then(b, states, ops, Run(0, Check));
    assert s == Client(false, Some(0), false, {}, [Loop(Opening, 0, [])], 0, [Started]);
    RefusedOnce(b);
    states, ops, s := Then(b, states, ops, Run(0, Refuse(OtherError, 0.0)));
    assert s.loops == [Loop(Sleeping, 1, [REFUSED])] && s.log == RefusedLog(b);
    states, ops, s := Then(b, states, ops, Stop);
    states, ops, s := Then(b, states, ops, JoinGivesUp);
  }

  /**
   The next `start` overlaps: the old loop wakes up, finds the event clear, and opens a session
   beside the new one.
   */
  lemma BothOpening(b: Backoff) returns (states: seq<Client>, ops: seq<Op>, s: Client)
    requires ValidBackoff(b)
    ensures History(b, states, ops) && s == states[|ops|]
    ensures exists k :: 0 <= k < |ops| && Overlaps(states[k], ops[k])
    ensures s == Client(false, Some(1), false, {0}, [Loop(Opening, 1, [REFUSED]), Loop(Opening, 0, [])], 0,
                        RefusedLog(b) + [Started])
  {
    states, ops, s := GivenUpAsleep(b);
    hide RefusedLog;
    ghost var k := |ops|;
    assert Alive(s, 0) && Overlaps(s, Start);
    states, ops, s := Then(b, states, ops, Start);
    assert Overlaps(states[k], ops[k]);
    states, ops, s := Then(b, states, ops, Run(1, Check));
    states, ops, s := Then(b, states, ops, Run(0, Wake));
    states, ops, s := Then(b, states, ops, Run(0, Check));
    assert s.loops == [Loop(Opening, 1, [REFUSED]), Loop(Opening, 0, [])];
    assert states[k].thread == None;
  }

  /**
   Two connects without a disconnect between them, although no loop was stopped while connected:
   the condition on the turns alone is not enough where loops overlap.
   */
  lemma OverlapConnectsTwice(b: Backoff) returns (states: seq<Client>, ops: seq<Op>)
    requires ValidBackoff(b)
    ensures History(b, states, ops)
    ensures !DisconnectsBetweenConnects(states[|ops|].log)
    ensures forall j :: !ConnectsOverLoud(TurnsSoFar(states[|ops|].loops), j)
  {
    var s;
    states, ops, s := BothOpening(b);
    hide RefusedLog;
    var log := s.log;
    states, ops, s := Then(b, states, ops, Run(1, Connect([])));
    states, ops, s := Then(b, states, ops, Run(1, Announce));
    states, ops, s := Then(b, states, ops, Run(0, Connect([])));
    states, ops, s := Then(b, states, ops, Run(0, Announce));
    assert s.log == log + [ReplayTaken(1, []), Connected(1), ReplayTaken(2, []), Connected(2)];
    assert s.loops == [Loop(Streaming, 0, [REFUSED]), Loop(Streaming, 0, [])];
    NoDisconnect(s.log, |log| + 1);
    NoLoudTurns(s.loops);
  }

  lemma NoDisconnect(log: seq<Event>, j: nat)
    requires j + 2 < |log| && log[j].Connected? && !log[j + 1].Disconnected? && log[j + 2].Connected?
    ensures !DisconnectsBetweenConnects(log)
  {
    assert !DisconnectBetween(log, j, j + 2);
  }

  lemma NoLoudTurns(loops: seq<Loop>)
    requires loops == [Loop(Streaming, 0, [REFUSED]), Loop(Streaming, 0, [])]
    ensures forall j :: !ConnectsOverLoud(TurnsSoFar(loops), j)
  {
    var turns, it := TurnsSoFar(loops), StreamEnds([], NoMessages, false);
    assert turns[0] == [REFUSED, it] && turns[1] == [it];
    assert [REFUSED, it][1..] == [it] && [it][1..] == [];
    assert !LoudEnd([it]) && !LoudEnd([REFUSED, it]);
    forall j, i | 0 <= j < |turns| && 0 <= i < j ensures !LoudEnd(turns[..j][i]) {}
  }

  /** Both sessions can even be announced under the generation of the later one. */
  lemma OverlapSharesGeneration(b: Backoff) returns (states: seq<Client>, ops: seq<Op>)
    requires ValidBackoff(b)
    ensures History(b, states, ops) && !LogSound(b, states[|ops|].log)
    ensures var log := states[|ops|].log;
      exists i, j :: 0 <= i < j < |log| && log[i] == log[j] == Connected(2)
  {
    var s;
    states, ops, s := BothOpening(b);
    hide RefusedLog;
    var log := s.log;
    states, ops, s := Then(b, states, ops, Run(1, Connect([])));
    states, ops, s := Then(b, states, ops, Run(0, Connect([])));
    states, ops, s := Then(b, states, ops, Run(1, Announce));
    states, ops, s := Then(b, states, ops, Run(0, Announce));
    assert s.log == log + [ReplayTaken(1, []), ReplayTaken(2, []), Connected(2), Connected(2)];
    assert s.log[|log| + 2] == s.log[|log| + 3] == Connected(2);
    if LogSound(b, s.log) { SoundLogMeans(b, s.log); }
  }
}
