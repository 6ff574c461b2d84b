/**
 The KIS WebSocket client (src/api/kis_websocket.py): desired subscriptions, the replay after
 every connect, connection announcements and the reconnect back-off.

 The socket, the approval service, other threads and the stop event are the environment: one
 `Iteration` says what they do during one turn of the reconnect loop.
 */
module WebSocketSession {
  import opened Common
  import opened Ordering

  datatype Subscription = Subscription(trId: string, trKey: string, symbol: string, channel: string)

  type Key = (string, string)

  function KeyOf(s: Subscription): Key { (s.trId, s.trKey) }

  datatype Action = SUBSCRIBE | UNSUBSCRIBE

  /** What the callbacks, the socket and the clock see of the client, in order. */
  datatype Event =
    | Started
    | ReplayTaken(generation: nat, wanted: seq<Subscription>)
    | Sent(sentGeneration: nat, action: Action, key: Key)
    | Connected(announced: nat)
    | Disconnected(closed: nat)
    | Slept(delay: real)

  datatype Call =
    | Subscribe(wanted: seq<Subscription>)
    | Unsubscribe(dropped: seq<Subscription>)
    | Forget(nacked: seq<Subscription>)

  datatype Failure = AuthError | OtherError

  /** Messages other tasks send while the loop waits: `concurrent(i)` before the i-th replay message. */
  datatype Iteration =
    | Refused(failure: Failure, stopped: bool, random: real)
    | ReplayFails(calls: seq<Call>, concurrent: nat -> seq<(Action, Key)>, sent: nat,
                  failure: Failure, stopped: bool, random: real)
    | StreamEnds(calls: seq<Call>, concurrent: nat -> seq<(Action, Key)>, stopped: bool)
    | StreamFails(calls: seq<Call>, concurrent: nat -> seq<(Action, Key)>,
                  failure: Failure, stopped: bool, random: real)

  // ---------------------------------------------------------------- what a log may contain

  datatype Backoff = Backoff(initial: real, most: real, jitter: real)

  predicate ValidBackoff(b: Backoff) { 0.0 <= b.initial <= b.most && 0.0 <= b.jitter }

  function Doubled(x: real, n: nat): real {
    if n == 0 then x else 2.0 * Doubled(x, n - 1)
  }

  /** `min(max_backoff, initial_backoff * 2 ** n)`. */
  function Base(b: Backoff, n: nat): real {
    if Doubled(b.initial, n) < b.most then Doubled(b.initial, n) else b.most
  }

  /** Nothing has been announced as connected since the last disconnect or start. */
  predicate Quiet(log: seq<Event>) {
    log == [] || (var e := log[|log| - 1];
                  if e.Disconnected? || e.Started? then true
                  else if e.Connected? then false
                  else Quiet(log[..|log| - 1]))
  }

  /** Back-offs taken since the last connect or start. */
  function Failures(log: seq<Event>): nat {
    if log == [] then 0
    else
      var e := log[|log| - 1];
      if e.Started? || e.ReplayTaken? then 0
      else Failures(log[..|log| - 1]) + if e.Slept? then 1 else 0
  }

  ghost predicate SentSince(log: seq<Event>, j: int, g: nat, key: Key) {
    exists m :: 0 <= j < m < |log| && log[m] == Sent(g, SUBSCRIBE, key)
  }

  /** The replay of generation g is complete: each key it wanted was sent in that generation. */
  ghost predicate Replayed(log: seq<Event>, g: nat) {
    exists j :: 0 <= j < |log| && log[j].ReplayTaken? && log[j].generation == g
      && forall s :: s in log[j].wanted ==> SentSince(log, j, g, KeyOf(s))
  }

  ghost predicate EventSound(b: Backoff, before: seq<Event>, e: Event) {
    match e
    case Connected(g) =>
      && Replayed(before, g)
      && Quiet(before)
      && Below(before, g)
    case ReplayTaken(g, _) =>
      forall k :: 0 <= k < |before| && before[k].ReplayTaken? ==> before[k].generation < g
    case Slept(d) =>
      && before != [] && before[|before| - 1].Disconnected?
      && Base(b, Failures(before)) <= d <= Base(b, Failures(before)) + b.jitter
    case _ => true
  }

  ghost predicate LogSound(b: Backoff, log: seq<Event>) {
    log == [] || (LogSound(b, log[..|log| - 1]) && EventSound(b, log[..|log| - 1], log[|log| - 1]))
  }

  /** No connection of generation g has been announced, or of a later one. */
  ghost predicate Below(log: seq<Event>, g: nat) {
    forall k :: 0 <= k < |log| && log[k].Connected? ==> log[k].announced < g
  }

  /** No event so far mentions a generation above g. */
  ghost predicate UpTo(log: seq<Event>, g: nat) {
    forall k :: 0 <= k < |log| ==>
      && (log[k].ReplayTaken? ==> log[k].generation <= g)
      && (log[k].Connected? ==> log[k].announced <= g)
  }

  // ---------------------------------------------------------------- what a sound log says

  lemma {:induction false} SoundAt(b: Backoff, log: seq<Event>, k: nat)
    requires LogSound(b, log) && k < |log|
    ensures EventSound(b, log[..k], log[k])
    decreases |log|
  {
    var init := log[..|log| - 1];
    if k < |init| {
      SoundAt(b, init, k);
      assert init[..k] == log[..k];
    }
  }

  lemma {:induction false} QuietMeans(log: seq<Event>, j: nat)
    requires Quiet(log) && j < |log| && log[j].Connected?
    ensures exists m :: j < m < |log| && (log[m].Disconnected? || log[m].Started?)
  {
    var last := log[|log| - 1];
    if !last.Disconnected? && !last.Started? {
      var init := log[..|log| - 1];
      QuietMeans(init, j);
      var m :| j < m < |init| && (init[m].Disconnected? || init[m].Started?);
      assert log[m] == init[m];
    }
  }

  /**
   Every connected announcement follows the SUBSCRIBE of everything its replay wanted; two of
   them have a disconnect, or a restart of the loop, between them and carry increasing
   generations; every delay is the doubled back-off, capped, plus at most the jitter.
   */
  lemma SoundLogMeans(b: Backoff, log: seq<Event>)
    requires LogSound(b, log) && ValidBackoff(b)
    ensures forall k :: 0 <= k < |log| && log[k].Connected? ==> Replayed(log[..k], log[k].announced)
    ensures forall j, k :: 0 <= j < k < |log| && log[j].Connected? && log[k].Connected? ==>
      && log[j].announced < log[k].announced
      && exists m :: j < m < k && (log[m].Disconnected? || log[m].Started?)
    ensures forall j, k :: 0 <= j < k < |log| && log[j].ReplayTaken? && log[k].ReplayTaken? ==>
      log[j].generation < log[k].generation
    ensures forall k :: 0 <= k < |log| && log[k].Slept? ==>
      && b.initial <= log[k].delay <= b.most + b.jitter
      && k > 0 && log[k - 1].Disconnected?
      && 0.0 <= log[k].delay - Base(b, |CountingSet(log[..k])|) <= b.jitter
  {
    forall k | 0 <= k < |log| && log[k].Connected? ensures Replayed(log[..k], log[k].announced) {
      SoundAt(b, log, k);
    }
    forall j, k | 0 <= j < k < |log| && log[j].Connected? && log[k].Connected?
      ensures log[j].announced < log[k].announced
      ensures exists m :: j < m < k && (log[m].Disconnected? || log[m].Started?)
    {
      SoundAt(b, log, k);
      assert log[..k][j] == log[j];
      QuietMeans(log[..k], j);
      var m :| j < m < |log[..k]| && (log[..k][m].Disconnected? || log[..k][m].Started?);
      assert log[..k][m] == log[m];
    }
    forall j, k | 0 <= j < k < |log| && log[j].ReplayTaken? && log[k].ReplayTaken?
      ensures log[j].generation < log[k].generation
    {
      SoundAt(b, log, k);
      assert log[..k][j] == log[j];
    }
    forall k | 0 <= k < |log| && log[k].Slept?
      ensures b.initial <= log[k].delay <= b.most + b.jitter && k > 0 && log[k - 1].Disconnected?
      ensures 0.0 <= log[k].delay - Base(b, |CountingSet(log[..k])|) <= b.jitter
    {
      SoundAt(b, log, k);
      FailuresMeans(log[..k]);
      BaseInRange(b, Failures(log[..k]));
      assert log[..k][k - 1] == log[k - 1];
    }
  }

  lemma {:induction false} DoublingGrows(x: real, n: nat)
    requires 0.0 <= x
    ensures x <= Doubled(x, n)
  {
    if n > 0 { DoublingGrows(x, n - 1); }
  }

  lemma BaseInRange(b: Backoff, n: nat)
    requires ValidBackoff(b)
    ensures b.initial <= Base(b, n) <= b.most
  {
    DoublingGrows(b.initial, n);
  }

  /** The base delay starts at the initial one and doubles up to the maximum. */
  lemma BaseDoubles(b: Backoff, n: nat)
    requires ValidBackoff(b)
    ensures Base(b, 0) == b.initial
    ensures Base(b, n + 1) == if 2.0 * Base(b, n) < b.most then 2.0 * Base(b, n) else b.most
  {
    DoublingGrows(b.initial, n);
  }

  /** Position i is a back-off that no start of a loop and no replay follows. */
  ghost predicate Counting(log: seq<Event>, i: int) {
    0 <= i < |log| && log[i].Slept? && forall m :: i < m < |log| ==> !log[m].Started? && !log[m].ReplayTaken?
  }

  ghost function CountingSet(log: seq<Event>): set<int> { set i | 0 <= i < |log| && Counting(log, i) }

  lemma CountingStep(init: seq<Event>, e: Event)
    ensures CountingSet(init + [e]) ==
      if e.Started? || e.ReplayTaken? then {} else CountingSet(init) + if e.Slept? then {|init|} else {}
  {
    var log := init + [e];
    assert log[|init|] == e && forall i :: 0 <= i < |init| ==> init[i] == log[i];
    forall i ensures Counting(log, i) <==>
      !e.Started? && !e.ReplayTaken? && (Counting(init, i) || (i == |init| && e.Slept?)) {}
  }

  /** The doubling counts the back-offs since the last start or replay. */
  lemma {:induction false} FailuresMeans(log: seq<Event>)
    ensures Failures(log) == |CountingSet(log)|
  {
    if log == [] {
      assert CountingSet(log) == {};
    } else {
      var init, e := log[..|log| - 1], log[|log| - 1];
      FailuresMeans(init);
      CountingStep(init, e);
      assert log == init + [e];
      assert |init| !in CountingSet(init);
      hide Counting;
    }
  }

  // ---------------------------------------------------------------- connected, disconnected, connected

  /** Is a connection announced and not taken back; has no connection been announced over another? */
  datatype Announcements = Announcements(open: bool, separated: bool)

  const NONE_ANNOUNCED := Announcements(false, true)

  function AfterEvent(a: Announcements, e: Event): Announcements {
    match e
    case Connected(_) => Announcements(true, a.separated && !a.open)
    case Disconnected(_) => Announcements(false, a.separated)
    case _ => a
  }

  function Announced(log: seq<Event>): Announcements {
    if log == [] then NONE_ANNOUNCED else AfterEvent(Announced(log[..|log| - 1]), log[|log| - 1])
  }

  ghost predicate LeftOpen(log: seq<Event>, j: int) {
    0 <= j < |log| && log[j].Connected? && forall m :: j < m < |log| ==> !log[m].Disconnected?
  }

  ghost predicate DisconnectBetween(log: seq<Event>, j: int, k: int) {
    exists m :: 0 <= j < m < k <= |log| && log[m].Disconnected?
  }

  ghost predicate DisconnectsBetweenConnects(log: seq<Event>) {
    forall j, k :: 0 <= j < k < |log| && log[j].Connected? && log[k].Connected? ==> DisconnectBetween(log, j, k)
  }

  lemma LeftOpenStep(log: seq<Event>, e: Event)
    ensures forall j :: LeftOpen(log + [e], j) <==>
      (j == |log| && e.Connected?) || (LeftOpen(log, j) && !e.Disconnected?)
  {
    var all := log + [e];
    assert all[|log|] == e && forall m :: 0 <= m < |log| ==> all[m] == log[m];
  }

  lemma BetweenStep(log: seq<Event>, e: Event)
    ensures DisconnectsBetweenConnects(log + [e]) <==>
      DisconnectsBetweenConnects(log) && (e.Connected? ==> forall j :: !LeftOpen(log, j))
  {
    var all := log + [e];
    assert all[|log|] == e && forall m :: 0 <= m < |log| ==> all[m] == log[m];
    forall j, k | 0 <= j < k <= |log| ensures DisconnectBetween(all, j, k) <==> DisconnectBetween(log, j, k) {
      if DisconnectBetween(all, j, k) {
        var m :| 0 <= j < m < k && all[m].Disconnected?;
        assert log[m].Disconnected?;
      }
      if DisconnectBetween(log, j, k) {
        var m :| 0 <= j < m < k && log[m].Disconnected?;
        assert all[m].Disconnected?;
      }
    }
    forall j | 0 <= j < |log| && log[j].Connected? ensures LeftOpen(log, j) <==> !DisconnectBetween(log, j, |log|) {}
    if j :| LeftOpen(log, j) { assert e.Connected? ==> !DisconnectBetween(all, j, |log|); }
    hide LeftOpen, DisconnectBetween;
    if DisconnectsBetweenConnects(log) && (e.Connected? ==> forall j :: !LeftOpen(log, j)) {
      forall j, k | 0 <= j < k < |all| && all[j].Connected? && all[k].Connected? ensures DisconnectBetween(all, j, k) {
        if k == |log| { assert !LeftOpen(log, j); } else { assert DisconnectBetween(log, j, k); }
      }
    }
  }

  /** `separated`: any two connects have a disconnect between them. `open`: the last connect has none after it. */
  lemma {:induction false} AnnouncedMeans(log: seq<Event>)
    ensures Announced(log).open <==> exists j :: LeftOpen(log, j)
    ensures Announced(log).separated <==> DisconnectsBetweenConnects(log)
  {
    if log != [] {
      var init, e := log[..|log| - 1], log[|log| - 1];
      AnnouncedMeans(init);
      LeftOpenStep(init, e);
      BetweenStep(init, e);
      assert log == init + [e];
      hide LeftOpen, DisconnectsBetweenConnects;
      if e.Connected? { assert LeftOpen(log, |init|); }
      if j :| LeftOpen(init, j) { assert !e.Disconnected? ==> LeftOpen(log, j); }
    }
  }

  // ---------------------------------------------------------------- the announcements of runs

  /** The turn announces a connection and ends, by the stop event, without taking it back. */
  predicate LoudTurn(it: Iteration) {
    it.stopped && (it.StreamEnds? || (it.StreamFails? && it.failure.OtherError?))
  }

  predicate Connecting(it: Iteration) { it.StreamEnds? || it.StreamFails? }

  /** The turn ends the loop by the stop event before it has announced anything. */
  predicate SilentTurn(it: Iteration) { !Connecting(it) && it.failure.OtherError? && it.stopped }

  function AfterTurn(a: Announcements, it: Iteration): Announcements {
    if SilentTurn(it) then a
    else if !Connecting(it) then Announcements(false, a.separated)
    else Announcements(LoudTurn(it), a.separated && !a.open)
  }

  function AfterRun(a: Announcements, script: seq<Iteration>): Announcements
    decreases |script|
  {
    if script == [] then a
    else if GoesOn(script[0]) then AfterRun(AfterTurn(a, script[0]), script[1..])
    else AfterTurn(a, script[0])
  }

  /** The last turn of the run is loud. */
  predicate LoudEnd(script: seq<Iteration>) {
    script != [] && if GoesOn(script[0]) then LoudEnd(script[1..]) else LoudTurn(script[0])
  }

  /** The run announces nothing. */
  predicate Silent(script: seq<Iteration>) { script == [] || SilentTurn(script[0]) }

  /** The first thing the run announces is a connection. */
  predicate ConnectsFirst(script: seq<Iteration>) { script != [] && Connecting(script[0]) }

  lemma {:induction false} AfterRunFromClosed(separated: bool, script: seq<Iteration>)
    ensures AfterRun(Announcements(false, separated), script) == Announcements(LoudEnd(script), separated)
  {
    if script != [] && GoesOn(script[0]) { AfterRunFromClosed(separated, script[1..]); }
  }

  /**
   A run leaves a connection announced exactly where its last turn is loud, or it was so before
   and the run is silent; it announces one over another exactly where it connects first on one.
   */
  lemma AfterRunMeans(a: Announcements, script: seq<Iteration>)
    ensures AfterRun(a, script).open <==> LoudEnd(script) || (a.open && Silent(script))
    ensures AfterRun(a, script).separated <==> a.separated && !(a.open && ConnectsFirst(script))
  {
    if script != [] && GoesOn(script[0]) {
      AfterRunFromClosed(AfterTurn(a, script[0]).separated, script[1..]);
    }
  }

  /** Runs of the loop one after another: `start`, `stop`, `start` again. */
  function AfterRuns(scripts: seq<seq<Iteration>>): Announcements {
    if scripts == [] then NONE_ANNOUNCED else AfterRun(AfterRuns(scripts[..|scripts| - 1]), scripts[|scripts| - 1])
  }

  /** Run i ends loud and every later run is silent. */
  ghost predicate StillLoud(scripts: seq<seq<Iteration>>, i: int) {
    0 <= i < |scripts| && LoudEnd(scripts[i]) && forall k :: i < k < |scripts| ==> Silent(scripts[k])
  }

  /** Run j connects first after a loud run, with nothing but silent runs between. */
  ghost predicate ConnectsOverLoud(scripts: seq<seq<Iteration>>, j: int) {
    0 <= j < |scripts| && ConnectsFirst(scripts[j]) && exists i :: StillLoud(scripts[..j], i)
  }

  lemma StillLoudStep(init: seq<seq<Iteration>>, last: seq<Iteration>)
    ensures (exists i :: StillLoud(init + [last], i)) <==>
      LoudEnd(last) || (Silent(last) && exists i :: StillLoud(init, i))
  {
    hide LoudEnd, Silent;
    var all := init + [last];
    assert all[|init|] == last && forall k :: 0 <= k < |init| ==> all[k] == init[k];
    if LoudEnd(last) { assert StillLoud(all, |init|); }
    if i :| StillLoud(all, i) {
      if i < |init| { assert StillLoud(init, i); }
    }
    if i :| StillLoud(init, i) {
      if Silent(last) { assert StillLoud(all, i); }
    }
  }

  lemma ConnectsOverStep(init: seq<seq<Iteration>>, last: seq<Iteration>)
    ensures (exists j :: ConnectsOverLoud(init + [last], j)) <==>
      (exists j :: ConnectsOverLoud(init, j)) || (ConnectsFirst(last) && exists i :: StillLoud(init, i))
  {
    hide StillLoud, ConnectsFirst;
    var all := init + [last];
    assert all[..|init|] == init && all[|init|] == last;
    assert forall j :: 0 <= j < |init| ==> all[j] == init[j] && all[..j] == init[..j];
    assert ConnectsOverLoud(all, |init|) <==> ConnectsFirst(last) && exists i :: StillLoud(init, i);
    assert forall j :: 0 <= j < |init| ==> (ConnectsOverLoud(all, j) <==> ConnectsOverLoud(init, j));
  }

  /**
   For every sequence of runs: each two connected announcements have a disconnected one between
   them if and only if no run connects first after a run that was stopped while connected.
   */
  lemma {:induction false} SeparatedIff(scripts: seq<seq<Iteration>>)
    ensures AfterRuns(scripts).open <==> exists i :: StillLoud(scripts, i)
    ensures AfterRuns(scripts).separated <==> forall j :: !ConnectsOverLoud(scripts, j)
  {
    if scripts != [] {
      var init, last := scripts[..|scripts| - 1], scripts[|scripts| - 1];
      SeparatedIff(init);
      AfterRunMeans(AfterRuns(init), last);
      StillLoudStep(init, last);
      ConnectsOverStep(init, last);
      assert scripts == init + [last];
    }
  }

  /** A run that connects, with nothing to replay, on a log that has seen lower generations only. */
  lemma ConnectingRun(b: Backoff, log: seq<Event>, g: nat)
    requires LogSound(b, log) && UpTo(log, g) && Below(log, g)
    requires forall k :: 0 <= k < |log| && log[k].ReplayTaken? ==> log[k].generation < g
    ensures LogSound(b, log + [Started] + [ReplayTaken(g, [])] + [Connected(g)])
  {
    var e := ReplayTaken(g, []);
    Grow(b, log, Started);
    BelowGrows(log, Started, g);
    Grow(b, log + [Started], e);
    BelowGrows(log + [Started], e, g);
    hide LogSound, Quiet, Below, Failures;
    var before := log + [Started] + [e];
    assert before[|log| + 1] == e;
    assert Replayed(before, g);
    Grow(b, before, Connected(g));
  }

  /** A sound log without a disconnect between its connects: a stop while connected, and a restart. */
  lemma RestartWithoutDisconnect(b: Backoff) returns (log: seq<Event>)
    ensures LogSound(b, log) && !DisconnectsBetweenConnects(log)
    ensures log == [Started, ReplayTaken(1, []), Connected(1), Started, ReplayTaken(2, []), Connected(2)]
  {
    var once := [Started, ReplayTaken(1, []), Connected(1)];
    ConnectingRun(b, [], 1);
    assert [] + [Started] + [ReplayTaken(1, [])] + [Connected(1)] == once;
    hide LogSound;
    ConnectingRun(b, once, 2);
    log := once + [Started] + [ReplayTaken(2, [])] + [Connected(2)];
    assert !DisconnectBetween(log, 2, 5);
    assert log[2].Connected? && log[5].Connected?;
  }

  // ---------------------------------------------------------------- growing a log

  lemma Grow(b: Backoff, log: seq<Event>, e: Event)
    requires LogSound(b, log) && EventSound(b, log, e)
    ensures LogSound(b, log + [e])
    ensures Quiet(log + [e]) <==> e.Disconnected? || e.Started? || (!e.Connected? && Quiet(log))
    ensures Failures(log + [e]) ==
      if e.Started? || e.ReplayTaken? then 0 else Failures(log) + if e.Slept? then 1 else 0
    ensures Announced(log + [e]) == AfterEvent(Announced(log), e)
  {
    assert (log + [e])[..|log + [e]| - 1] == log;
  }

  lemma BelowGrows(log: seq<Event>, e: Event, g: nat)
    requires Below(log, g) && !e.Connected?
    ensures Below(log + [e], g)
  {
  }

  lemma TakenSound(b: Backoff, log: seq<Event>, g: nat, wanted: seq<Subscription>)
    requires forall k :: 0 <= k < |log| && log[k].ReplayTaken? ==> log[k].generation < g
    ensures EventSound(b, log, ReplayTaken(g, wanted)) && UpTo([ReplayTaken(g, wanted)], g)
    ensures Below(log, g) ==> Below(log + [ReplayTaken(g, wanted)], g)
  {
  }

  lemma SleptSound(b: Backoff, log: seq<Event>, random: real, delay: real)
    requires delay == Base(b, Failures(log)) + random * b.jitter
    requires ValidBackoff(b) && 0.0 <= random < 1.0 && log != [] && log[|log| - 1].Disconnected?
    ensures EventSound(b, log, Slept(delay))
  {
    assert 0.0 <= random * b.jitter <= b.jitter;
    hide Base, Failures;
  }

  class KisWebSocketClient {
    const backoff: Backoff
    var desired: map<Key, Subscription>
    var connected: bool
    var generation: nat
    var reconnectCount: nat
    /** Messages handed to the event loop by other threads. */
    var scheduled: seq<(Action, Subscription)>
    var log: seq<Event>

    ghost predicate Valid()
      reads this
    {
      && ValidBackoff(backoff)
      && LogSound(backoff, log)
      && UpTo(log, generation)
      && reconnectCount == (if generation == 0 then 0 else generation - 1)
      && forall k :: k in desired ==> KeyOf(desired[k]) == k
    }

    /** The configured delays are clamped. */
    constructor (initial: real, most: real, jitter: real)
      ensures Valid() && log == [] && desired == map[] && generation == 0 && !connected
      ensures backoff.initial == Max(0.0, initial) && backoff.most == Max(Max(0.0, initial), most)
      ensures backoff.jitter == Max(0.0, jitter)
    {
      backoff := Backoff(Max(0.0, initial), Max(Max(0.0, initial), most), Max(0.0, jitter));
      desired, connected, generation, reconnectCount, scheduled, log := map[], false, 0, 0, [], [];
    }

    // -------------------------------------------------------------- desired subscriptions

    /** New keys are scheduled to be sent, each once; known keys only take the new details. */
    method DoSubscribe(subscriptions: seq<Subscription>)
      requires Valid()
      modifies `desired, `scheduled
      ensures Valid()
      ensures desired == Merged(old(desired), subscriptions)
      ensures scheduled == old(scheduled)
        + if connected then Messages(SUBSCRIBE, Additions(old(desired), subscriptions)) else []
    {
      var additions: seq<Subscription> := [];
      for n := 0 to |subscriptions|
        invariant desired == Merged(old(desired), subscriptions[..n])
        invariant additions == Additions(old(desired), subscriptions[..n])
        invariant forall k :: k in desired ==> KeyOf(desired[k]) == k
        invariant scheduled == old(scheduled)
      {
        var key := KeyOf(subscriptions[n]);
        assert subscriptions[..n + 1][..n] == subscriptions[..n];
        if key !in desired { additions := additions + [subscriptions[n]]; }
        desired := desired[key := subscriptions[n]];
      }
      assert subscriptions[..|subscriptions|] == subscriptions;
      if connected { scheduled := scheduled + Messages(SUBSCRIBE, additions); }
    }

    /** Known keys are dropped, and their removal scheduled, each once. */
    method DoUnsubscribe(subscriptions: seq<Subscription>)
      requires Valid()
      modifies `desired, `scheduled
      ensures Valid()
      ensures desired == old(desired) - KeysOf(subscriptions)
      ensures scheduled == old(scheduled)
        + if connected then Messages(UNSUBSCRIBE, Removals(old(desired), subscriptions)) else []
    {
      var removals: seq<Subscription> := [];
      for n := 0 to |subscriptions|
        invariant desired == old(desired) - KeysOf(subscriptions[..n])
        invariant removals == Removals(old(desired), subscriptions[..n])
        invariant scheduled == old(scheduled)
      {
        var key := KeyOf(subscriptions[n]);
        RemovalStep(old(desired), subscriptions, n);
        hide KeysOf, Removals;
        if key in desired { removals := removals + [desired[key]]; }
        desired := desired - {key};
      }
      assert subscriptions[..|subscriptions|] == subscriptions;
      if connected { scheduled := scheduled + Messages(UNSUBSCRIBE, removals); }
    }

    /** Rejected subscriptions are dropped without a message. */
    method DoForget(subscriptions: seq<Subscription>)
      requires Valid()
      modifies `desired
      ensures Valid() && desired == old(desired) - KeysOf(subscriptions)
    {
      for n := 0 to |subscriptions|
        invariant desired == old(desired) - KeysOf(subscriptions[..n])
      {
        assert subscriptions[..n + 1] == subscriptions[..n] + [subscriptions[n]];
        KeysOfAppended(subscriptions[..n], subscriptions[n]);
        DropOneMore(old(desired), KeysOf(subscriptions[..n]), KeyOf(subscriptions[n]));
        hide KeysOf;
        desired := desired - {KeyOf(subscriptions[n])};
      }
      assert subscriptions[..|subscriptions|] == subscriptions;
    }

    method Perform(calls: seq<Call>)
      requires Valid()
      modifies `desired, `scheduled
      ensures Valid()
    {
      for n := 0 to |calls|
        invariant Valid()
      {
        match calls[n]
        case Subscribe(s) => DoSubscribe(s);
        case Unsubscribe(s) => DoUnsubscribe(s);
        case Forget(s) => DoForget(s);
      }
    }

    /** A snapshot of the desired subscriptions, each once, in the order of their keys. */
    method DesiredSubscriptions() returns (r: seq<Subscription>)
      requires Valid()
      ensures KeysOf(r) == desired.Keys && DistinctKeys(r)
      ensures forall s :: s in r ==> KeyOf(s) in desired && desired[KeyOf(s)] == s
      ensures forall i, j :: 0 <= i < j < |r| ==> PairLeq(KeyOf(r[i]), KeyOf(r[j]))
    {
      var keys: seq<Key> := [];
      var left := desired.Keys;
      while left != {}
        invariant left <= desired.Keys && forall k :: k in keys <==> k in desired.Keys - left
        invariant Distinct(keys) && SortedBy(PairLeq, keys)
        decreases left
      {
        var k :| k in left;
        InsertedKey(keys, k);
        hide Distinct, SortedBy, InsertBy, PairLeq;
        keys := InsertBy(PairLeq, k, keys);
        left := left - {k};
      }
      var wanted := desired;
      forall i | 0 <= i < |keys| ensures keys[i] in wanted { assert keys[i] in keys; }
      r := seq(|keys|, i requires 0 <= i < |keys| && keys[i] in wanted => wanted[keys[i]]);
      assert forall i :: 0 <= i < |keys| ==> r[i] == wanted[keys[i]] && KeyOf(r[i]) == keys[i];
      forall k ensures k in KeysOf(r) <==> k in wanted.Keys {
        if k in wanted { assert k in keys; var i :| 0 <= i < |keys| && keys[i] == k; assert r[i] in r; }
      }
    }

    // -------------------------------------------------------------- the log

    method Note(e: Event)
      requires Valid() && EventSound(backoff, log, e) && UpTo([e], generation)
      modifies `log
      ensures Valid() && log == old(log) + [e]
      ensures Quiet(log) <==> e.Disconnected? || e.Started? || (!e.Connected? && Quiet(old(log)))
      ensures Failures(log) ==
        if e.Started? || e.ReplayTaken? then 0 else Failures(old(log)) + if e.Slept? then 1 else 0
      ensures Announced(log) == AfterEvent(Announced(old(log)), e)
    {
      Grow(backoff, log, e);
      hide EventSound, Replayed, LogSound;
      assert [e][0] == e;
      log := log + [e];
    }

    method NoteSent(action: Action, key: Key)
      requires Valid() && Below(log, generation)
      modifies `log
      ensures Valid() && Below(log, generation) && log == old(log) + [Sent(generation, action, key)]
      ensures Quiet(log) == Quiet(old(log)) && Failures(log) == Failures(old(log))
      ensures Announced(log) == Announced(old(log))
    {
      BelowGrows(log, Sent(generation, action, key), generation);
      hide LogSound, Quiet, Failures, Below, Announced;
      Note(Sent(generation, action, key));
    }

    method NoteDisconnected()
      requires Valid()
      modifies `log
      ensures Valid() && log == old(log) + [Disconnected(generation)]
      ensures Quiet(log) && Failures(log) == Failures(old(log))
      ensures Announced(log) == Announcements(false, Announced(old(log)).separated)
    {
      hide LogSound, Quiet, Failures, Announced;
      Note(Disconnected(generation));
    }

    /** Messages other tasks send meanwhile: they carry the current generation. */
    method NoteConcurrent(messages: seq<(Action, Key)>)
      requires Valid() && Below(log, generation)
      modifies `log
      ensures Valid() && Below(log, generation) && old(log) <= log
      ensures Quiet(log) == Quiet(old(log)) && Failures(log) == Failures(old(log))
      ensures Announced(log) == Announced(old(log))
    {
      hide LogSound, UpTo, Quiet, Failures, Below, Announced;
      for n := 0 to |messages|
        invariant Valid() && Below(log, generation) && old(log) <= log
        invariant Quiet(log) == Quiet(old(log)) && Failures(log) == Failures(old(log))
        invariant Announced(log) == Announced(old(log))
      {
        NoteSent(messages[n].0, messages[n].1);
      }
    }

    // -------------------------------------------------------------- one session

    /** `_send_subscriptions` of the replay; it fails after `breaksAt` messages, or after fewer, or never. */
    method SendAll(
        ghost start: nat, wanted: seq<Subscription>, concurrent: nat -> seq<(Action, Key)>, breaksAt: Option<nat>)
      returns (complete: bool)
      requires Valid() && Quiet(log) && Failures(log) == 0 && Below(log, generation) && start < |log|
      modifies `log
      ensures Valid() && Quiet(log) && Failures(log) == 0 && Below(log, generation) && old(log) <= log
      ensures Announced(log) == Announced(old(log))
      ensures complete ==> SentAll(log, start, generation, wanted)
      ensures complete <==> breaksAt == None
    {
      hide LogSound, UpTo, Quiet, Failures, EventSound, SentAll, SentSince, Below, Announced;
      NothingToSend(log, start, generation, wanted[..0]);
      var n := 0;
      while n < |wanted| && breaksAt != Some(n)
        invariant 0 <= n <= |wanted|
        invariant Valid() && Quiet(log) && Failures(log) == 0 && Below(log, generation) && old(log) <= log
        invariant SentAll(log, start, generation, wanted[..n]) && Announced(log) == Announced(old(log))
        decreases |wanted| - n
      {
        ghost var before := log;
        NoteConcurrent(concurrent(n));
        NoteSent(SUBSCRIBE, KeyOf(wanted[n]));
        SentAllGrows(before, log, start, generation, wanted, n);
        n := n + 1;
      }
      assert wanted[..|wanted|] == wanted;
      complete := breaksAt == None;
    }

    /** The replay of everything desired at this moment. */
    method Replay(concurrent: nat -> seq<(Action, Key)>, breaksAt: Option<nat>) returns (complete: bool)
      requires Valid() && Quiet(log) && Below(log, generation)
      requires forall k :: 0 <= k < |log| && log[k].ReplayTaken? ==> log[k].generation < generation
      modifies `log
      ensures Valid() && old(log) < log && Quiet(log) && Failures(log) == 0 && Below(log, generation)
      ensures complete ==> Replayed(log, generation)
      ensures complete <==> breaksAt == None
      ensures Announced(log) == Announced(old(log))
      ensures log[|old(log)|].ReplayTaken? && log[|old(log)|].generation == generation
      ensures KeysOf(log[|old(log)|].wanted) == desired.Keys
    {
      hide LogSound, Quiet, Failures, SentAll, Replayed, DistinctKeys, KeysOf, Below, Announced, EventSound, UpTo,
           PairLeq;
      var wanted := DesiredSubscriptions();
      ghost var start := |log|;
      TakenSound(backoff, log, generation, wanted);
      Note(ReplayTaken(generation, wanted));
      ghost var taken := log;
      complete := SendAll(start, wanted, concurrent, breaksAt);
      assert log[start] == taken[start] == ReplayTaken(generation, wanted);
      if complete { AllSentIsReplayed(log, start, generation); }
    }

    /** The outer handlers: returns whether the loop goes on, with its number of failed attempts. */
    method Fail(failure: Failure, stopped: bool, random: real, attempts: nat) returns (goOn: bool, failed: nat)
      requires Valid() && 0.0 <= random < 1.0 && attempts == Failures(log)
      modifies `log
      ensures Valid() && old(log) <= log
      ensures goOn <==> failure.OtherError? && !stopped
      ensures goOn ==> failed == Failures(log)
      ensures Quiet(log) <==> Quiet(old(log)) || failure.AuthError? || !stopped
      ensures Announced(log) == if failure.OtherError? && stopped then Announced(old(log))
        else Announcements(false, Announced(old(log)).separated)
      ensures log == old(log) +
        if failure.AuthError? then [Disconnected(generation)]
        else if stopped then []
        else [Disconnected(generation), Slept(Base(backoff, attempts) + random * backoff.jitter)]
    {
      hide LogSound, Quiet, Failures, EventSound, Base, Announced;
      if failure.AuthError? {
        NoteDisconnected();
        return false, attempts;
      }
      if stopped { return false, attempts; }
      failed := attempts + 1;
      NoteDisconnected();
      var delay := Base(backoff, failed - 1) + random * backoff.jitter;
      SleptSound(backoff, log, random, delay);
      Note(Slept(delay));
      goOn := true;
    }

    /** The session of one connection, up to the announcement; false where the replay broke. */
    method Open(calls: seq<Call>, concurrent: nat -> seq<(Action, Key)>, breaksAt: Option<nat>)
      returns (announced: bool)
      requires Valid() && Quiet(log)
      modifies this
      ensures Valid() && old(log) < log && Failures(log) == 0
      ensures generation == old(generation) + 1 && connected
      ensures announced ==> log[|log| - 1] == Connected(generation) && Replayed(log, generation)
      ensures announced <==> breaksAt == None
      ensures Quiet(log) <==> !announced
      ensures Announced(log) ==
        var before := Announced(old(log));
        if announced then Announcements(true, before.separated && !before.open) else before
    {
      hide Announced;
      connected := true;
      generation := generation + 1;
      if generation > 1 { reconnectCount := reconnectCount + 1; }
      Perform(calls);
      announced := Replay(concurrent, breaksAt);
      if announced {
        hide LogSound;
        ghost var before := log;
        Note(Connected(generation));
        StillReplayed(before, log, generation);
      }
    }

    /** One turn of the reconnect loop. */
    method Turn(it: Iteration, attempts: nat) returns (goOn: bool, failed: nat)
      requires Valid() && Quiet(log) && attempts == Failures(log)
      requires it.StreamEnds? || 0.0 <= it.random < 1.0
      modifies this
      ensures Valid() && old(log) <= log && !connected
      ensures generation == old(generation) + if it.Refused? then 0 else 1
      ensures goOn <==> GoesOn(it)
      ensures goOn ==> failed == Failures(log)
      ensures Quiet(log) <==> !LoudTurn(it)
      ensures Announced(log) == AfterTurn(Announced(old(log)), it)
      ensures it.StreamEnds? || it.StreamFails? ==> AnnouncedIn(log, |old(log)|, generation)
      ensures !it.stopped ==> log != [] && (log[|log| - 1].Slept? || log[|log| - 1] == Disconnected(generation))
    {
      hide LogSound, Quiet, Failures, Replayed, Announced;
      match it {
        case Refused(failure, stopped, random) =>
          goOn, failed := Fail(failure, stopped, random, attempts);
        case ReplayFails(calls, concurrent, sent, failure, stopped, random) =>
          var announced := Open(calls, concurrent, Some(sent));
          goOn, failed := Fail(failure, stopped, random, 0);
        case StreamEnds(calls, concurrent, stopped) =>
          var announced := Open(calls, concurrent, None);
          ghost var connectedAt := |log| - 1;
          if !stopped { NoteDisconnected(); }
          assert log[connectedAt] == Connected(generation) && connectedAt >= |old(log)|;
          goOn, failed := !stopped, 0;
        case StreamFails(calls, concurrent, failure, stopped, random) =>
          var announced := Open(calls, concurrent, None);
          ghost var connectedAt := |log| - 1;
          goOn, failed := Fail(failure, stopped, random, 0);
          assert log[connectedAt] == Connected(generation) && connectedAt >= |old(log)|;
      }
      connected := false;
    }

    /** `run_forever`, until the stop event, an authorization failure or the end of the script. */
    method RunForever(script: seq<Iteration>)
      requires Valid()
      requires forall n :: 0 <= n < |script| ==> script[n].StreamEnds? || 0.0 <= script[n].random < 1.0
      modifies this
      ensures Valid() && old(log) < log && log[|old(log)|] == Started
      ensures generation == old(generation) + Connects(script) && (script != [] ==> !connected)
      ensures Quiet(log) <==> !LoudEnd(script)
      ensures Announced(log) == AfterRun(Announced(old(log)), script)
    {
      hide LogSound, Replayed, Quiet, Failures, Announced;
      Note(Started);
      var attempts, n, goOn := 0, 0, true;
      assert script[0..] == script;
      while goOn && n < |script|
        invariant Valid() && old(log) + [Started] <= log
        invariant 0 <= n <= |script| && (n > 0 ==> !connected)
        invariant (goOn ==> Quiet(log) && attempts == Failures(log)) && (!goOn ==> n > 0)
        invariant LoudEnd(script) <==> if goOn then LoudEnd(script[n..]) else !Quiet(log)
        invariant AfterRun(Announced(old(log)), script) ==
          if goOn then AfterRun(Announced(log), script[n..]) else Announced(log)
        invariant old(generation) + Connects(script) == generation + if goOn then Connects(script[n..]) else 0
        decreases |script| - n
      {
        assert script[n..][0] == script[n] && script[n..][1..] == script[n + 1..];
        goOn, attempts := Turn(script[n], attempts);
        n := n + 1;
      }
    }

    /** A client that is started again each time its loop has ended. */
    method RunAgainAndAgain(scripts: seq<seq<Iteration>>)
      requires Valid() && log == []
      requires forall i, n :: 0 <= i < |scripts| && 0 <= n < |scripts[i]| ==>
        scripts[i][n].StreamEnds? || 0.0 <= scripts[i][n].random < 1.0
      modifies this
      ensures Valid()
      ensures DisconnectsBetweenConnects(log) <==> forall j :: !ConnectsOverLoud(scripts, j)
      ensures (exists j :: LeftOpen(log, j)) <==> exists i :: StillLoud(scripts, i)
    {
      for i := 0 to |scripts|
        invariant Valid() && Announced(log) == AfterRuns(scripts[..i])
      {
        RunForever(scripts[i]);
        assert scripts[..i + 1][..i] == scripts[..i];
      }
      assert scripts[..|scripts|] == scripts;
      AnnouncedMeans(log);
      SeparatedIff(scripts);
    }
  }

  ghost predicate AnnouncedIn(log: seq<Event>, from: nat, g: nat) {
    exists k :: from <= k < |log| && log[k] == Connected(g)
  }

  /** Does the loop take another turn after this one? */
  predicate GoesOn(it: Iteration) {
    !it.stopped && (it.StreamEnds? || it.failure.OtherError?)
  }

  /** Connections made until the loop ends or the script does. */
  function Connects(script: seq<Iteration>): nat {
    if script == [] then 0
    else (if script[0].Refused? then 0 else 1) + if GoesOn(script[0]) then Connects(script[1..]) else 0
  }

  ghost predicate SentAll(log: seq<Event>, j: int, g: nat, wanted: seq<Subscription>) {
    forall s :: s in wanted ==> SentSince(log, j, g, KeyOf(s))
  }

  lemma NothingToSend(log: seq<Event>, j: nat, g: nat, wanted: seq<Subscription>)
    requires wanted == []
    ensures SentAll(log, j, g, wanted)
  {
  }

  lemma AllSentIsReplayed(log: seq<Event>, j: nat, g: nat)
    requires j < |log| && log[j].ReplayTaken? && log[j].generation == g && SentAll(log, j, g, log[j].wanted)
    ensures Replayed(log, g)
  {
  }

  lemma SentAllGrows(before: seq<Event>, log: seq<Event>, j: nat, g: nat, wanted: seq<Subscription>, n: nat)
    requires n < |wanted| && SentAll(before, j, g, wanted[..n])
    requires before <= log && j < |log| - 1 && log[|log| - 1] == Sent(g, SUBSCRIBE, KeyOf(wanted[n]))
    ensures SentAll(log, j, g, wanted[..n + 1])
  {
    forall s | s in wanted[..n + 1] ensures SentSince(log, j, g, KeyOf(s)) {
      if s in wanted[..n] {
        var m :| 0 <= j < m < |before| && before[m] == Sent(g, SUBSCRIBE, KeyOf(s));
        assert log[m] == before[m];
      }
    }
  }

  lemma StillReplayed(before: seq<Event>, log: seq<Event>, g: nat)
    requires Replayed(before, g) && before <= log
    ensures Replayed(log, g)
  {
    var j :| 0 <= j < |before| && before[j].ReplayTaken? && before[j].generation == g
      && forall s :: s in before[j].wanted ==> SentSince(before, j, g, KeyOf(s));
    forall s | s in before[j].wanted ensures SentSince(log, j, g, KeyOf(s)) {
      var m :| 0 <= j < m < |before| && before[m] == Sent(g, SUBSCRIBE, KeyOf(s));
      assert log[m] == before[m];
    }
    assert log[j] == before[j];
  }

  function Max(a: real, b: real): real { if a < b then b else a }

  ghost function KeysOf(s: seq<Subscription>): set<Key> { set x | x in s :: KeyOf(x) }

  ghost predicate DistinctKeys(s: seq<Subscription>) {
    forall i, j :: 0 <= i < j < |s| ==> KeyOf(s[i]) != KeyOf(s[j])
  }

  predicate IsLast(s: seq<Subscription>, i: int) {
    0 <= i < |s| && forall j :: i < j < |s| ==> KeyOf(s[j]) != KeyOf(s[i])
  }

  function Messages(action: Action, s: seq<Subscription>): seq<(Action, Subscription)> {
    seq(|s|, i requires 0 <= i < |s| => (action, s[i]))
  }

  lemma KeysOfAppended(s: seq<Subscription>, x: Subscription)
    ensures KeysOf(s + [x]) == KeysOf(s) + {KeyOf(x)}
  {
    assert forall y :: y in s + [x] <==> y in s || y == x;
  }

  /** The order of keys: first `tr_id`, then `tr_key`. */
  predicate PairLeq(a: Key, b: Key) {
    if a.0 == b.0 then LexLeq(a.1, b.1) else LexLeq(a.0, b.0)
  }

  lemma PairTotalOrder()
    ensures TotalOrder(PairLeq)
  {
    hide LexLeq;
    forall a: Key, b: Key
      ensures PairLeq(a, a) && (PairLeq(a, b) || PairLeq(b, a))
      ensures PairLeq(a, b) && PairLeq(b, a) ==> a == b
    {
      LexTotal(a.0, b.0);
      LexTotal(a.1, b.1);
      LexTotal(a.1, a.1);
      if LexLeq(a.0, b.0) && LexLeq(b.0, a.0) { LexAntisymmetric(a.0, b.0); }
      if LexLeq(a.1, b.1) && LexLeq(b.1, a.1) { LexAntisymmetric(a.1, b.1); }
    }
    forall a: Key, b: Key, c: Key | PairLeq(a, b) && PairLeq(b, c) ensures PairLeq(a, c) {
      if LexLeq(a.0, b.0) && LexLeq(b.0, c.0) { LexTransitive(a.0, b.0, c.0); }
      if LexLeq(a.1, b.1) && LexLeq(b.1, c.1) { LexTransitive(a.1, b.1, c.1); }
      if a.0 == c.0 && a.0 != b.0 { LexAntisymmetric(a.0, b.0); }
    }
  }

  lemma InsertedKey(keys: seq<Key>, k: Key)
    requires Distinct(keys) && SortedBy(PairLeq, keys) && k !in keys
    ensures var more := InsertBy(PairLeq, k, keys);
      Distinct(more) && SortedBy(PairLeq, more) && forall x :: x in more <==> x == k || x in keys
  {
    PairTotalOrder();
    InsertByKeepsOrder(PairLeq, k, keys);
    InsertByKeepsElements(PairLeq, k, keys);
    DistinctFromMultiset(InsertBy(PairLeq, k, keys), k, keys);
  }

  lemma RemovalStep(d: map<Key, Subscription>, s: seq<Subscription>, n: nat)
    requires n < |s|
    ensures
      var left, key := d - KeysOf(s[..n]), KeyOf(s[n]);
      && d - KeysOf(s[..n + 1]) == left - {key}
      && Removals(d, s[..n + 1]) == Removals(d, s[..n]) + if key in left then [left[key]] else []
  {
    assert s[..n + 1] == s[..n] + [s[n]];
    assert s[..n + 1][..n] == s[..n];
    KeysOfAppended(s[..n], s[n]);
    DropOneMore(d, KeysOf(s[..n]), KeyOf(s[n]));
    hide KeysOf;
  }

  lemma DropOneMore(d: map<Key, Subscription>, keys: set<Key>, key: Key)
    ensures d - keys - {key} == d - (keys + {key})
  {
  }

  /** The desired map after a subscribe. */
  function Merged(d: map<Key, Subscription>, s: seq<Subscription>): map<Key, Subscription> {
    if s == [] then d else Merged(d, s[..|s| - 1])[KeyOf(s[|s| - 1]) := s[|s| - 1]]
  }

  function Additions(d: map<Key, Subscription>, s: seq<Subscription>): seq<Subscription> {
    if s == [] then []
    else
      var (init, last) := (s[..|s| - 1], s[|s| - 1]);
      Additions(d, init) + if KeyOf(last) in Merged(d, init) then [] else [last]
  }

  ghost function Removals(d: map<Key, Subscription>, s: seq<Subscription>): seq<Subscription> {
    if s == [] then []
    else
      var (init, last) := (s[..|s| - 1], s[|s| - 1]);
      Removals(d, init) + if KeyOf(last) in d && KeyOf(last) !in KeysOf(init) then [d[KeyOf(last)]] else []
  }

  lemma {:induction false} MergedKeys(d: map<Key, Subscription>, s: seq<Subscription>)
    ensures Merged(d, s).Keys == d.Keys + KeysOf(s)
  {
    if s != [] {
      var init, last := s[..|s| - 1], s[|s| - 1];
      MergedKeys(d, init);
      assert s == init + [last];
      KeysOfAppended(init, last);
    }
  }

  lemma {:induction false} MergedOthers(d: map<Key, Subscription>, s: seq<Subscription>, k: Key)
    requires k in d && k !in KeysOf(s)
    ensures k in Merged(d, s) && Merged(d, s)[k] == d[k]
  {
    if s != [] {
      assert s == s[..|s| - 1] + [s[|s| - 1]];
      MergedOthers(d, s[..|s| - 1], k);
    }
  }

  lemma {:induction false} MergedLast(d: map<Key, Subscription>, s: seq<Subscription>, i: int)
    requires IsLast(s, i)
    ensures KeyOf(s[i]) in Merged(d, s) && Merged(d, s)[KeyOf(s[i])] == s[i]
  {
    if i < |s| - 1 { MergedLast(d, s[..|s| - 1], i); }
  }

  /** A subscribe adds exactly its keys, the last details given for a key win, the rest stays. */
  lemma MergedMeans(d: map<Key, Subscription>, s: seq<Subscription>)
    ensures Merged(d, s).Keys == d.Keys + KeysOf(s)
    ensures forall k :: k in d && k !in KeysOf(s) ==> Merged(d, s)[k] == d[k]
    ensures forall i :: 0 <= i < |s| && (forall j :: i < j < |s| ==> KeyOf(s[j]) != KeyOf(s[i])) ==>
      Merged(d, s)[KeyOf(s[i])] == s[i]
  {
    hide Merged, KeysOf;
    MergedKeys(d, s);
    assert forall i :: 0 <= i < |s| && (forall j :: i < j < |s| ==> KeyOf(s[j]) != KeyOf(s[i])) ==> IsLast(s, i);
    forall k | k in d && k !in KeysOf(s) ensures Merged(d, s)[k] == d[k] { MergedOthers(d, s, k); }
    forall i | IsLast(s, i) ensures KeyOf(s[i]) in Merged(d, s) && Merged(d, s)[KeyOf(s[i])] == s[i] {
      MergedLast(d, s, i);
    }
  }

  lemma DistinctAppended(s: seq<Subscription>, x: Subscription)
    requires DistinctKeys(s) && KeyOf(x) !in KeysOf(s)
    ensures DistinctKeys(s + [x]) && KeysOf(s + [x]) == KeysOf(s) + {KeyOf(x)}
  {
    KeysOfAppended(s, x);
    forall i | 0 <= i < |s| ensures KeyOf(s[i]) in KeysOf(s) {}
  }

  /** One message for each new key. */
  lemma {:induction false} AdditionsMean(d: map<Key, Subscription>, s: seq<Subscription>)
    ensures DistinctKeys(Additions(d, s)) && KeysOf(Additions(d, s)) == KeysOf(s) - d.Keys
  {
    if s != [] {
      var init, last := s[..|s| - 1], s[|s| - 1];
      AdditionsMean(d, init);
      MergedKeys(d, init);
      KeysOfAppended(init, last);
      assert s == init + [last];
      assert Additions(d, init) + [] == Additions(d, init);
      hide KeysOf, DistinctKeys, Merged;
      if KeyOf(last) !in Merged(d, init) { DistinctAppended(Additions(d, init), last); }
    }
  }

  /** One message for each key dropped. */
  lemma {:induction false} RemovalsMean(d: map<Key, Subscription>, s: seq<Subscription>)
    requires forall k :: k in d ==> KeyOf(d[k]) == k
    ensures DistinctKeys(Removals(d, s)) && KeysOf(Removals(d, s)) == KeysOf(s) * d.Keys
    ensures forall x :: x in Removals(d, s) ==> x in d.Values
  {
    if s != [] {
      var init, last := s[..|s| - 1], s[|s| - 1];
      RemovalsMean(d, init);
      KeysOfAppended(init, last);
      assert s == init + [last];
      assert Removals(d, init) + [] == Removals(d, init);
      hide KeysOf, DistinctKeys;
      if KeyOf(last) in d && KeyOf(last) !in KeysOf(init) { DistinctAppended(Removals(d, init), d[KeyOf(last)]); }
    }
  }
}
