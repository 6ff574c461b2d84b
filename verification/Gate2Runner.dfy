/**
 The Gate-2 qualification monitor (gate2/reporting.py): the ledger of expected and unexpected
 disconnects, the silent-stale probe, the continuity counters and the metrics read from them.
 Times are seconds.
 */
module Gate2Runner {
  import opened Common
  import Ops = Gate2Operations

  datatype Classification = INJECTED | UNEXPECTED

  datatype Disconnect = Disconnect(
    classification: Classification, at: real, generation: nat,
    reconnectedAt: Option<real>, reackedAt: Option<real>, recovery: Option<real>)

  datatype Phase = NotStarted | Suppressed | Recovering | Complete

  datatype Probe = Probe(
    symbol: string, lastReceivedAt: real, lastEventAt: real, connectedDuring: bool,
    detected: bool, detectionSeconds: Option<real>, readyWhileStale: Option<bool>, recovered: bool)

  /** What the market-data service answers at one sample. */
  datatype Reading = Reading(
    acked: set<string>, stale: set<string>, connected: bool, feedAvailable: bool, entryReady: bool,
    registrations: Registrations, acknowledged: set<Ops.Identity>)

  /** The service's subscription capacity snapshot. */
  datatype Registrations = Registrations(
    occupied: int, total: int, mostOccupied: int,
    pendingSubscribe: int, active: int, pendingUnsubscribe: int, replays: int)

  /** Every registration is accounted for, within the capacity, and exactly the requested ones are acknowledged. */
  predicate Consistent(requested: set<string>, r: Reading) {
    var c := r.registrations;
    && c.occupied <= c.total && r.acked <= requested
    && c.pendingSubscribe + c.active + c.pendingUnsubscribe == c.occupied
    && c.replays <= c.total && c.active == |r.acked|
  }

  /** What the service knows of the probed symbol when a probe is asked for. */
  datatype SymbolState = SymbolState(
    connected: bool, lastReceivedAt: Option<real>, lastEventAt: Option<real>, entryReady: bool)

  // ---------------------------------------------------------------- the disconnect ledger

  function Injected(ds: seq<Disconnect>): nat {
    if ds == [] then 0 else Injected(ds[..|ds| - 1]) + if ds[|ds| - 1].classification.INJECTED? then 1 else 0
  }

  /** The recovery times of the entries that were acknowledged again. */
  ghost function Recovered(ds: seq<Disconnect>): multiset<real> {
    if ds == [] then multiset{} else Recovered(ds[..|ds| - 1]) + Recovery(ds[|ds| - 1])
  }

  ghost function Recovery(d: Disconnect): multiset<real> {
    if d.recovery.Some? then multiset{d.recovery.value} else multiset{}
  }

  function NonNegative(x: real): (r: real)
    ensures 0.0 <= r && x <= r && (r == x || r == 0.0)
  {
    if x < 0.0 then 0.0 else x
  }

  /** Acknowledged again only after the reconnect, with the time this took. */
  predicate EntrySound(d: Disconnect) {
    && (d.reackedAt.Some? ==> d.reconnectedAt.Some? && d.recovery == Some(NonNegative(d.reackedAt.value - d.at)))
    && (d.reackedAt.None? ==> d.recovery.None?)
  }

  predicate Open(d: Disconnect) { d.reackedAt.None? }

  /** Every expected disconnect is outstanding or entered as injected; samples match entries. */
  ghost predicate Ledger(expected: nat, requests: nat, ds: seq<Disconnect>, recoveries: seq<real>) {
    && expected + Injected(ds) == requests
    && multiset(recoveries) == Recovered(ds)
    && forall i :: 0 <= i < |ds| ==> EntrySound(ds[i])
  }

  lemma LedgerAfterConnect(expected: nat, requests: nat, ds: seq<Disconnect>, recoveries: seq<real>, i: nat, at: real)
    requires Ledger(expected, requests, ds, recoveries) && i < |ds| && ds[i].reconnectedAt.None?
    ensures Ledger(expected, requests, ds[i := ds[i].(reconnectedAt := Some(at))], recoveries)
  {
    hide Recovered, Injected;
    var d := ds[i].(reconnectedAt := Some(at));
    assert EntrySound(ds[i]) && EntrySound(d);
    assert Recovery(d) == Recovery(ds[i]) == multiset{};
    hide Recovery, EntrySound;
    InjectedAfterUpdate(ds, i, d);
    RecoveredAfterUpdate(ds, i, d);
  }

  lemma LedgerAfterDisconnect(
      expected: nat, requests: nat, ds: seq<Disconnect>, recoveries: seq<real>, d: Disconnect)
    requires Ledger(expected, requests, ds, recoveries)
    requires d.reackedAt.None? && d.recovery.None? && (d.classification.INJECTED? <==> expected > 0)
    ensures Ledger(if expected > 0 then expected - 1 else 0, requests, ds + [d], recoveries)
  {
    assert (ds + [d])[..|ds + [d]| - 1] == ds;
  }

  lemma LedgerAfterReack(expected: nat, requests: nat, ds: seq<Disconnect>, recoveries: seq<real>, i: nat, now: real)
    requires Ledger(expected, requests, ds, recoveries)
    requires i < |ds| && ds[i].reconnectedAt.Some? && ds[i].reackedAt.None?
    ensures Ledger(expected, requests, ds[i := Reacked(ds[i], now, true)], recoveries + [NonNegative(now - ds[i].at)])
  {
    hide NonNegative, Recovered, Injected;
    var d := Reacked(ds[i], now, true);
    assert EntrySound(ds[i]) && EntrySound(d);
    InjectedAfterUpdate(ds, i, d);
    RecoveredAfterUpdate(ds, i, d);
    assert Recovery(d) == multiset{NonNegative(now - ds[i].at)};
    hide Recovery, EntrySound, Reacked;
  }

  lemma SplitLast<T>(s: seq<T>, i: nat, x: T) returns (init: seq<T>, last: T)
    requires i < |s|
    ensures s == init + [last] && |init| == |s| - 1
    ensures i < |init| ==> s[i := x] == init[i := x] + [last] && init[i] == s[i]
    ensures i == |init| ==> s[i := x] == init + [x] && last == s[i]
  {
    init, last := s[..|s| - 1], s[|s| - 1];
  }

  lemma {:induction false} InjectedAfterUpdate(ds: seq<Disconnect>, i: nat, d: Disconnect)
    requires i < |ds| && d.classification == ds[i].classification
    ensures Injected(ds[i := d]) == Injected(ds)
    decreases |ds|
  {
    hide Recovered, Injected, Recovery;
    var init, last := SplitLast(ds, i, d);
    RecoveredStep(init, last);
    if i < |init| {
      InjectedAfterUpdate(init, i, d);
      RecoveredStep(init[i := d], last);
    } else {
      RecoveredStep(init, d);
    }
  }

  lemma RecoveredStep(init: seq<Disconnect>, last: Disconnect)
    ensures Recovered(init + [last]) == Recovered(init) + Recovery(last)
    ensures |Recovered(init + [last])| == |Recovered(init)| + if last.recovery.Some? then 1 else 0
    ensures Injected(init + [last]) == Injected(init) + if last.classification.INJECTED? then 1 else 0
  {
    assert (init + [last])[..|init|] == init;
  }

  lemma {:induction false} RecoveredAfterUpdate(ds: seq<Disconnect>, i: nat, d: Disconnect)
    requires i < |ds| && ds[i].recovery.None?
    ensures Recovered(ds[i := d]) == Recovered(ds) + Recovery(d)
    decreases |ds|
  {
    var init, last := SplitLast(ds, i, d);
    RecoveredStep(init, last);
    hide Recovered, Injected;
    if i < |init| {
      RecoveredAfterUpdate(init, i, d);
      RecoveredStep(init[i := d], last);
    } else {
      RecoveredStep(init, d);
      assert Recovery(last) == multiset{};
    }
    hide Recovery;
  }

  lemma {:induction false} RecoveredCount(ds: seq<Disconnect>)
    ensures |Recovered(ds)| <= |ds| && Injected(ds) <= |ds|
    ensures |Recovered(ds)| == |ds| <==> forall i :: 0 <= i < |ds| ==> ds[i].recovery.Some?
    ensures Injected(ds) == |ds| <==> forall i :: 0 <= i < |ds| ==> ds[i].classification.INJECTED?
  {
    NoneRecovered();
    hide Recovered, Injected, Recovery;
    if ds != [] {
      var init, last := ds[..|ds| - 1], ds[|ds| - 1];
      assert ds == init + [last];
      RecoveredStep(init, last);
      RecoveredCount(init);
    }
  }

  lemma NoneRecovered()
    ensures Recovered([]) == multiset{} && Injected([]) == 0
  {
  }

  lemma {:induction false} RecoveredMembers(ds: seq<Disconnect>)
    ensures forall i :: 0 <= i < |ds| && ds[i].recovery.Some? ==> ds[i].recovery.value in Recovered(ds)
    ensures forall x :: x in Recovered(ds) ==> exists i :: 0 <= i < |ds| && ds[i].recovery == Some(x)
  {
    if ds != [] {
      var init, last := ds[..|ds| - 1], ds[|ds| - 1];
      RecoveredMembers(init);
      assert forall i :: 0 <= i < |init| ==> init[i] == ds[i];
      forall x | x in Recovered(ds) ensures exists i :: 0 <= i < |ds| && ds[i].recovery == Some(x) {
        if x in Recovered(init) {
          var i :| 0 <= i < |init| && init[i].recovery == Some(x);
          assert ds[i].recovery == Some(x);
        } else {
          assert ds[|ds| - 1].recovery == Some(x);
        }
      }
    }
  }

  // ---------------------------------------------------------------- the runner

  function Rank(p: Phase): nat {
    match p case NotStarted => 0 case Suppressed => 1 case Recovering => 2 case Complete => 3
  }

  /** The phase is exactly what the switch, the detection and the recovery say. */
  ghost predicate ProbeState(phase: Phase, probe: Option<Probe>, suppressed: bool, detections: seq<real>) {
    && (phase.NotStarted? <==> probe.None?)
    && (suppressed <==> phase.Suppressed?)
    && (probe.Some? ==>
          && (probe.value.detected <==> phase.Recovering? || phase.Complete?)
          && (probe.value.detectionSeconds.Some? <==> probe.value.detected)
          && (probe.value.readyWhileStale.Some? <==> probe.value.detected)
          && (probe.value.recovered <==> phase.Complete?))
    && detections == (if phase.Recovering? || phase.Complete? then [probe.value.detectionSeconds.value] else [])
  }

  /** Phases only advance, and a probe keeps its symbol, its starting times and its detection. */
  ghost predicate ProbeAdvances(phase: Phase, probe: Option<Probe>, laterPhase: Phase, later: Option<Probe>) {
    && Rank(phase) <= Rank(laterPhase)
    && (probe.Some? ==>
          && later.Some? && later.value.symbol == probe.value.symbol
          && later.value.lastReceivedAt == probe.value.lastReceivedAt
          && later.value.lastEventAt == probe.value.lastEventAt
          && (probe.value.detected ==>
                later.value.detected && later.value.detectionSeconds == probe.value.detectionSeconds))
  }

  /** The states are those of the signals so far, and every operation that did not fit was counted. */
  ghost predicate OperationsCounted(states: Ops.Ledger, signals: seq<Ops.Signal>, anomalies: nat) {
    states == Ops.StatesOf(signals) && |Ops.Misfits(signals)| <= anomalies
  }

  lemma SignalCounted(states: Ops.Ledger, signals: seq<Ops.Signal>, anomalies: nat, s: Ops.Signal)
    requires OperationsCounted(states, signals, anomalies)
    ensures var more := if s.Sent? && !Ops.Fits(states, s.operation) then 1 else 0;
      OperationsCounted(Ops.After(states, s), signals + [s], anomalies + more)
  {
    Ops.MisfitsStep(signals, s);
    hide Ops.Misfits, Ops.Fits;
    assert (signals + [s])[..|signals|] == signals;
  }

  /** A monitor without anomalies has seen the operations of each registration alternate. */
  lemma NoAnomalyMeans(states: Ops.Ledger, signals: seq<Ops.Signal>, anomalies: nat)
    requires OperationsCounted(states, signals, anomalies) && anomalies == 0
    ensures Ops.Alternates(signals)
  {
    Ops.NoMisfitIffAlternates(signals);
  }

  class LiveGate2Runner {
    const requested: set<string>
    const sessionOpen: real
    const sessionClose: real
    var expected: nat
    var injectedRequests: nat
    var disconnects: seq<Disconnect>
    var recoveries: seq<real>
    var phase: Phase
    var probe: Option<Probe>
    /** The service's qualification switch for the probed channel. */
    var suppressed: bool
    var staleDetections: seq<real>
    var continuityStartedAt: Option<real>
    var samples: nat
    var unexpectedSamples: nat
    var transportReady: bool
    var feedReady: bool
    var anomalies: nat
    var mostRegistrations: int
    /** Where each registration of each generation stands, and the operations with their verdicts. */
    var operations: Ops.Ledger
    var protocolOperations: seq<(Ops.Operation, bool)>
    ghost var signals: seq<Ops.Signal>
    var unhandled: int

    ghost predicate Valid()
      reads this
    {
      && Ledger(expected, injectedRequests, disconnects, recoveries)
      && ProbeState(phase, probe, suppressed, staleDetections)
      && unexpectedSamples <= samples
      && OperationsCounted(operations, signals, anomalies)
    }

    constructor (requested: set<string>, sessionOpen: real, sessionClose: real)
      ensures Valid() && this.requested == requested
      ensures this.sessionOpen == sessionOpen && this.sessionClose == sessionClose
      ensures disconnects == [] && injectedRequests == 0 && samples == 0 && anomalies == 0
    {
      this.requested, this.sessionOpen, this.sessionClose := requested, sessionOpen, sessionClose;
      expected, injectedRequests, disconnects, recoveries := 0, 0, [], [];
      phase, probe, suppressed, staleDetections := NotStarted, None, false, [];
      continuityStartedAt, samples, unexpectedSamples, transportReady, unhandled := None, 0, 0, false, 0;
      feedReady, anomalies, mostRegistrations := false, 0, 0;
      operations, protocolOperations, signals := map[], [], [];
      new;
      assert Ops.Misfits([]) == {};
    }

    /** A connect resolves the latest disconnect still unresolved; a disconnect uses up one expectation. */
    method OnSession(connected: bool, generation: nat, at: real)
      requires Valid()
      modifies `disconnects, `expected
      ensures Valid()
      ensures connected ==> expected == old(expected) && Resolved(old(disconnects), disconnects, at)
      ensures !connected ==>
        && expected == (if old(expected) > 0 then old(expected) - 1 else 0)
        && disconnects == old(disconnects)
             + [Disconnect(if old(expected) > 0 then INJECTED else UNEXPECTED, at, generation, None, None, None)]
    {
      hide Ledger, ProbeState, OperationsCounted;
      if connected {
        var i := |disconnects|;
        while i > 0
          invariant 0 <= i <= |disconnects|
          invariant disconnects == old(disconnects)
          invariant forall j :: i <= j < |disconnects| ==> disconnects[j].reconnectedAt.Some?
        {
          i := i - 1;
          if disconnects[i].reconnectedAt.None? {
            LedgerAfterConnect(expected, injectedRequests, disconnects, recoveries, i, at);
            disconnects := disconnects[i := disconnects[i].(reconnectedAt := Some(at))];
            return;
          }
        }
      } else {
        var classification := if expected > 0 then INJECTED else UNEXPECTED;
        var d := Disconnect(classification, at, generation, None, None, None);
        LedgerAfterDisconnect(expected, injectedRequests, disconnects, recoveries, d);
        if expected > 0 { expected := expected - 1; }
        disconnects := disconnects + [d];
      }
    }

    /** The request is entered before the service is told to reconnect. */
    method InjectDisconnect()
      requires Valid()
      modifies `expected, `injectedRequests
      ensures Valid()
      ensures expected == old(expected) + 1 && injectedRequests == old(injectedRequests) + 1
    {
      hide ProbeState, OperationsCounted;
      expected := expected + 1;
      injectedRequests := injectedRequests + 1;
    }

    /** At most one probe is ever started, and only on a connected, received and ready symbol. */
    method StartSilentStaleProbe(symbol: string, s: SymbolState)
      requires Valid()
      modifies `phase, `probe, `suppressed
      ensures Valid() && ProbeAdvances(old(phase), old(probe), phase, probe)
      ensures old(probe).Some? ==> probe == old(probe) && phase == old(phase)
      ensures old(probe).None? ==>
        (phase.Suppressed? <==> s.connected && s.lastReceivedAt.Some? && s.lastEventAt.Some? && s.entryReady)
      ensures old(probe).None? && probe.Some? ==>
        probe.value == Probe(symbol, s.lastReceivedAt.value, s.lastEventAt.value, true, false, None, None, false)
    {
      hide Ledger, OperationsCounted;
      if probe.Some? { return; }
      if !s.connected || s.lastReceivedAt.None? || s.lastEventAt.None? { return; }
      if !s.entryReady { return; }
      suppressed := true;
      phase := Suppressed;
      probe := Some(Probe(symbol, s.lastReceivedAt.value, s.lastEventAt.value, s.connected, false, None, None, false));
    }

    /** SUPPRESSED ends with the detection, RECOVERING with the symbol no longer stale. */
    method AdvanceSilentProbe(now: real, r: Reading)
      requires Valid()
      modifies `phase, `probe, `suppressed, `staleDetections
      ensures Valid() && ProbeAdvances(old(phase), old(probe), phase, probe)
      ensures old(phase) in {NotStarted, Complete} ==> phase == old(phase)
      ensures old(phase).Suppressed? ==> phase == if old(probe).value.symbol in r.stale then Recovering else Suppressed
      ensures old(phase).Recovering? ==> phase == if old(probe).value.symbol in r.stale then Recovering else Complete
      ensures old(phase).Suppressed? && phase.Recovering? ==>
        && probe.value.detectionSeconds == Some(
             NonNegative(now - Earlier(old(probe).value.lastReceivedAt, old(probe).value.lastEventAt)))
        && probe.value.readyWhileStale == Some(r.entryReady)
      ensures old(phase).Suppressed? || old(phase).Recovering? ==>
        (probe.value.connectedDuring <==> old(probe).value.connectedDuring && r.connected)
      ensures old(phase) in {NotStarted, Complete} ==> probe == old(probe)
    {
      hide Ledger, OperationsCounted;
      if probe.None? || phase.NotStarted? || phase.Complete? { return; }
      var p := probe.value.(connectedDuring := probe.value.connectedDuring && r.connected);
      if phase.Suppressed? && p.symbol in r.stale {
        var detectedAfter := NonNegative(now - Earlier(p.lastReceivedAt, p.lastEventAt));
        p := p.(detected := true, detectionSeconds := Some(detectedAfter), readyWhileStale := Some(r.entryReady));
        staleDetections := staleDetections + [detectedAfter];
        suppressed := false;
        phase := Recovering;
      } else if phase.Recovering? && p.symbol !in r.stale {
        p := p.(recovered := true);
        phase := Complete;
      }
      probe := Some(p);
    }

    /** Reconnected entries are acknowledged again once every requested subscription is. */
    method Reack(now: real, criticalReady: bool)
      requires Valid()
      modifies `disconnects, `recoveries
      ensures Valid() && |disconnects| == |old(disconnects)|
      ensures forall i :: 0 <= i < |disconnects| ==> disconnects[i] == Reacked(old(disconnects)[i], now, criticalReady)
      ensures forall i :: 0 <= i < |disconnects| ==>
        var (was, d) := (old(disconnects)[i], disconnects[i]);
        if was.reconnectedAt.Some? && was.reackedAt.None? && criticalReady
        then && d.reackedAt == Some(now) && d.recovery.Some? && d.recovery.value >= 0.0
             && d.recovery.value >= now - was.at && (d.recovery.value == now - was.at || d.recovery.value == 0.0)
             && d.at == was.at && d.classification == was.classification && d.generation == was.generation
             && d.reconnectedAt == was.reconnectedAt
        else d == was
    {
      hide Ledger, ProbeState, OperationsCounted;
      for n := 0 to |disconnects|
        invariant Valid() && |disconnects| == |old(disconnects)|
        invariant forall i :: 0 <= i < n ==> disconnects[i] == Reacked(old(disconnects)[i], now, criticalReady)
        invariant forall i :: n <= i < |disconnects| ==> disconnects[i] == old(disconnects)[i]
      {
        var d := disconnects[n];
        if d.reconnectedAt.Some? && d.reackedAt.None? && criticalReady {
          LedgerAfterReack(expected, injectedRequests, disconnects, recoveries, n, now);
          var recovery := NonNegative(now - d.at);
          disconnects := disconnects[n := d.(reackedAt := Some(now), recovery := Some(recovery))];
          recoveries := recoveries + [recovery];
        }
      }
    }

    /** `_on_protocol_operation`: the state moves, and a move that does not fit is counted and noted. */
    method OnProtocolOperation(op: Ops.Operation)
      requires Valid()
      modifies `operations, `protocolOperations, `signals, `anomalies
      ensures Valid() && signals == old(signals) + [Ops.Sent(op)]
      ensures operations == Ops.AfterOperation(old(operations), op)
      ensures anomalies == old(anomalies) + if Ops.Fits(old(operations), op) then 0 else 1
      ensures protocolOperations == old(protocolOperations) + [(op, Ops.Fits(old(operations), op))]
    {
      SignalCounted(operations, signals, anomalies, Ops.Sent(op));
      hide Ledger, ProbeState, OperationsCounted;
      var active := op.identity in operations && !operations[op.identity].UnsubscribeSent?;
      var anomaly := true;
      if op.action == "SUBSCRIBE" {
        anomaly := active;
        operations := operations[op.identity := Ops.SubscribeSent];
      } else if op.action == "UNSUBSCRIBE" {
        anomaly := !active;
        operations := operations[op.identity := Ops.UnsubscribeSent];
      }
      if anomaly { anomalies := anomalies + 1; }
      protocolOperations := protocolOperations + [(op, !anomaly)];
      signals := signals + [Ops.Sent(op)];
    }

    /** The registrations the service has acknowledged count as subscribed from now on. */
    method NoteAcknowledged(r: Reading)
      requires Valid()
      modifies `operations, `signals
      ensures Valid() && signals == old(signals) + [Ops.Acknowledged(r.acknowledged)]
      ensures operations == Ops.AfterAcknowledged(old(operations), r.acknowledged)
    {
      SignalCounted(operations, signals, anomalies, Ops.Acknowledged(r.acknowledged));
      hide Ledger, ProbeState, OperationsCounted;
      operations := operations + map id | id in r.acknowledged :: Ops.Subscribed;
      signals := signals + [Ops.Acknowledged(r.acknowledged)];
    }

    /** The anomalies of one sample: the capacity, the acknowledged set and the balance are each counted. */
    method CountAnomalies(r: Reading)
      requires Valid()
      modifies `anomalies, `mostRegistrations
      ensures Valid()
      ensures old(anomalies) <= anomalies <= old(anomalies) + 3
      ensures anomalies == old(anomalies) <==> Consistent(requested, r)
      ensures anomalies == old(anomalies) <==>
        var c := r.registrations;
        && c.pendingSubscribe + c.active + c.pendingUnsubscribe == c.occupied <= c.total
        && c.replays <= c.total && c.active == |r.acked| && r.acked <= requested
      ensures mostRegistrations >= old(mostRegistrations) && mostRegistrations >= r.registrations.mostOccupied
      ensures mostRegistrations in {old(mostRegistrations), r.registrations.mostOccupied}
    {
      hide Ledger, ProbeState;
      var c := r.registrations;
      if mostRegistrations < c.mostOccupied { mostRegistrations := c.mostOccupied; }
      if c.occupied > c.total { anomalies := anomalies + 1; }
      if !(r.acked <= requested) { anomalies := anomalies + 1; }
      if c.pendingSubscribe + c.active + c.pendingUnsubscribe != c.occupied
        || c.replays > c.total || c.active != |r.acked|
      {
        anomalies := anomalies + 1;
      }
    }

    /** The part of a sample before the probe: registrations and acknowledgements. */
    method SampleRegistrations(now: real, r: Reading)
      requires Valid()
      modifies `disconnects, `recoveries, `anomalies, `mostRegistrations, `operations, `signals
      ensures Valid()
      ensures operations == Ops.AfterAcknowledged(old(operations), r.acknowledged)
      ensures |disconnects| == |old(disconnects)| && forall i :: 0 <= i < |disconnects| ==>
        disconnects[i] == Reacked(old(disconnects)[i], now, requested <= r.acked)
      ensures old(anomalies) <= anomalies && (anomalies == old(anomalies) <==> Consistent(requested, r))
    {
      hide Ledger, ProbeState, Reacked, Consistent, OperationsCounted, Ops.AfterAcknowledged;
      CountAnomalies(r);
      NoteAcknowledged(r);
      Reack(now, requested <= r.acked);
    }

    /** The part of a sample after the probe: what is ready, and continuity. */
    method SampleReadiness(now: real, r: Reading)
      requires Valid()
      modifies `transportReady, `feedReady, `continuityStartedAt, `samples, `unexpectedSamples
      ensures Valid()
      ensures transportReady <==> requested <= r.acked && r.feedAvailable
      ensures feedReady <==> requested <= r.acked && r.stale == {}
      ensures samples == old(samples)
        + (if sessionOpen <= now <= sessionClose && continuityStartedAt.Some? then 1 else 0)
      ensures unexpectedSamples == old(unexpectedSamples) + if Unexpected(samples > old(samples)) then 1 else 0
      ensures continuityStartedAt.Some? <==>
        old(continuityStartedAt).Some? || (sessionOpen <= now <= sessionClose && transportReady)
    {
      hide Ledger, ProbeState, Unexpected, OperationsCounted;
      feedReady := requested <= r.acked && r.stale == {};
      transportReady := requested <= r.acked && r.feedAvailable;
      CountContinuity(now);
    }

    /** One sample; a gap is expected while a disconnect is open or the probe is under way. */
    method Sample(now: real, r: Reading)
      requires Valid()
      modifies this
      ensures Valid() && ProbeAdvances(old(phase), old(probe), phase, probe)
      ensures old(phase) in {NotStarted, Complete} ==> phase == old(phase)
      ensures old(phase).Suppressed? ==> phase == if old(probe).value.symbol in r.stale then Recovering else Suppressed
      ensures old(phase).Recovering? ==> phase == if old(probe).value.symbol in r.stale then Recovering else Complete
      ensures old(phase).Suppressed? && phase.Recovering? ==>
        && probe.value.detectionSeconds == Some(
             NonNegative(now - Earlier(old(probe).value.lastReceivedAt, old(probe).value.lastEventAt)))
        && probe.value.readyWhileStale == Some(r.entryReady)
      ensures expected == old(expected) && injectedRequests == old(injectedRequests)
      ensures |disconnects| == |old(disconnects)| && forall i :: 0 <= i < |disconnects| ==>
        disconnects[i] == Reacked(old(disconnects)[i], now, requested <= r.acked)
      ensures old(anomalies) <= anomalies && (anomalies == old(anomalies) <==> Consistent(requested, r))
      ensures operations == Ops.AfterAcknowledged(old(operations), r.acknowledged)
      ensures transportReady <==> requested <= r.acked && r.feedAvailable
      ensures feedReady <==> requested <= r.acked && r.stale == {}
      ensures samples == old(samples)
        + (if sessionOpen <= now <= sessionClose && continuityStartedAt.Some? then 1 else 0)
      ensures unexpectedSamples == old(unexpectedSamples) + if Unexpected(samples > old(samples)) then 1 else 0
      ensures continuityStartedAt.Some? <==>
        old(continuityStartedAt).Some? || (sessionOpen <= now <= sessionClose && transportReady)
    {
      hide Ledger, ProbeAdvances, Reacked, Unexpected, Consistent, OperationsCounted,
           Ops.AfterAcknowledged;
      SampleRegistrations(now, r);
      AdvanceSilentProbe(now, r);
      SampleReadiness(now, r);
    }

    /** Continuity is counted inside the session, from the first ready sample on. */
    method CountContinuity(now: real)
      requires Valid()
      modifies `continuityStartedAt, `samples, `unexpectedSamples
      ensures Valid()
      ensures continuityStartedAt.Some? <==>
        old(continuityStartedAt).Some? || (sessionOpen <= now <= sessionClose && transportReady)
      ensures samples == old(samples)
        + (if sessionOpen <= now <= sessionClose && continuityStartedAt.Some? then 1 else 0)
      ensures unexpectedSamples == old(unexpectedSamples) + if Unexpected(samples > old(samples)) then 1 else 0
    {
      hide Ledger, ProbeState, OperationsCounted;
      if sessionOpen <= now <= sessionClose {
        if continuityStartedAt.None? && transportReady { continuityStartedAt := Some(now); }
        if continuityStartedAt.Some? {
          samples := samples + 1;
          var expectedGap := (exists i :: 0 <= i < |disconnects| && Open(disconnects[i]))
            || phase.Suppressed? || phase.Recovering?;
          if !transportReady && !expectedGap { unexpectedSamples := unexpectedSamples + 1; }
        }
      }
    }

    /** A counted sample is unexpected only outside every open disconnect and outside the probe. */
    ghost predicate Unexpected(counted: bool)
      reads `transportReady, `disconnects, `phase
    {
      && counted && !transportReady
      && (forall i :: 0 <= i < |disconnects| ==> !Open(disconnects[i]))
      && !phase.Suppressed? && !phase.Recovering?
    }

    /** The unhandled disconnects, plus the injected ones that never happened. */
    method Finalize()
      requires Valid()
      modifies `unhandled
      ensures Valid() && unhandled == Unhandled(disconnects) + expected
    {
      hide Ledger, ProbeState, OperationsCounted;
      unhandled := 0;
      for n := 0 to |disconnects|
        invariant unhandled == Unhandled(disconnects[..n])
        invariant Valid()
      {
        assert disconnects[..n + 1][..n] == disconnects[..n];
        if disconnects[n].classification.UNEXPECTED? || Open(disconnects[n]) { unhandled := unhandled + 1; }
      }
      assert disconnects[..|disconnects|] == disconnects;
      if expected > 0 { unhandled := unhandled + expected; }
    }

    /** `max(recoveries) < 10.0`, on a list that is not empty. */
    method SlowestBelowTen() returns (ok: bool)
      ensures ok <==> recoveries != [] && forall i :: 0 <= i < |recoveries| ==> recoveries[i] < 10.0
    {
      if recoveries == [] { return false; }
      var slowest := recoveries[0];
      for n := 1 to |recoveries|
        invariant slowest in recoveries && forall i :: 0 <= i < n ==> recoveries[i] <= slowest
      {
        if slowest < recoveries[n] { slowest := recoveries[n]; }
      }
      ok := slowest < 10.0;
    }

    /** The two disconnect metrics of the report. */
    method DisconnectMetrics() returns (handled: bool, recovered: bool)
      ensures handled <==> UnhandledDisconnectsPass(disconnects, unhandled)
      ensures recovered <==> RecoveryPasses(disconnects, recoveries, injectedRequests)
    {
      var injected, clean := 0, true;
      for n := 0 to |disconnects|
        invariant injected == Injected(disconnects[..n])
        invariant clean <==> forall i :: 0 <= i < n ==> disconnects[i].classification.INJECTED? && !Open(disconnects[i])
      {
        assert disconnects[..n + 1][..n] == disconnects[..n];
        if disconnects[n].classification.INJECTED? { injected := injected + 1; }
        clean := clean && disconnects[n].classification.INJECTED? && !Open(disconnects[n]);
      }
      assert disconnects[..|disconnects|] == disconnects;
      handled := disconnects != [] && clean && unhandled == 0;
      var fast := SlowestBelowTen();
      recovered := fast && |recoveries| == injectedRequests == injected;
    }

    /** `finalize` and the verdict on disconnects. */
    method CertifyDisconnects() returns (passed: bool)
      requires Valid()
      modifies `unhandled
      ensures Valid()
      ensures passed <==>
        && injectedRequests > 0 && expected == 0
        && forall i :: 0 <= i < |disconnects| ==>
          && disconnects[i].classification == INJECTED && disconnects[i].reconnectedAt.Some?
          && disconnects[i].reackedAt.Some? && disconnects[i].reackedAt.value - disconnects[i].at < 10.0
    {
      hide Ledger, ProbeState, Injected, UnhandledDisconnectsPass, RecoveryPasses, Unhandled;
      Finalize();
      DisconnectMetricsMean(expected, injectedRequests, disconnects, recoveries, unhandled);
      var handled, recovered := DisconnectMetrics();
      passed := handled && recovered;
    }
  }

  function Unhandled(ds: seq<Disconnect>): nat {
    if ds == [] then 0
    else
      var last := ds[|ds| - 1];
      Unhandled(ds[..|ds| - 1]) + if last.classification.UNEXPECTED? || Open(last) then 1 else 0
  }

  function Earlier(a: real, b: real): (r: real)
    ensures r <= a && r <= b && (r == a || r == b)
  {
    if a <= b then a else b
  }

  function Reacked(d: Disconnect, now: real, criticalReady: bool): Disconnect {
    if d.reconnectedAt.Some? && d.reackedAt.None? && criticalReady
    then d.(reackedAt := Some(now), recovery := Some(NonNegative(now - d.at)))
    else d
  }

  /** The latest unresolved entry is marked as reconnected, and nothing else. */
  ghost predicate Resolved(before: seq<Disconnect>, after: seq<Disconnect>, at: real) {
    if forall i :: 0 <= i < |before| ==> before[i].reconnectedAt.Some? then after == before
    else exists i ::
      && 0 <= i < |before| && before[i].reconnectedAt.None?
      && (forall j :: i < j < |before| ==> before[j].reconnectedAt.Some?)
      && after == before[i := before[i].(reconnectedAt := Some(at))]
  }

  // ---------------------------------------------------------------- the metrics

  ghost predicate UnhandledDisconnectsPass(ds: seq<Disconnect>, unhandled: int) {
    && ds != []
    && (forall i :: 0 <= i < |ds| ==> ds[i].classification.INJECTED? && !Open(ds[i]))
    && unhandled == 0
  }

  ghost predicate RecoveryPasses(ds: seq<Disconnect>, recoveries: seq<real>, requests: nat) {
    && recoveries != []
    && |recoveries| == requests == Injected(ds)
    && forall i :: 0 <= i < |recoveries| ==> recoveries[i] < 10.0
  }

  ghost predicate Handled(d: Disconnect) {
    && d.classification.INJECTED? && d.reconnectedAt.Some? && d.reackedAt.Some?
    && NonNegative(d.reackedAt.value - d.at) < 10.0
  }

  lemma {:induction false} NoneUnhandled(ds: seq<Disconnect>)
    ensures Unhandled(ds) == 0 <==> forall i :: 0 <= i < |ds| ==> ds[i].classification.INJECTED? && !Open(ds[i])
  {
    if ds != [] {
      NoneUnhandled(ds[..|ds| - 1]);
      assert forall i :: 0 <= i < |ds| - 1 ==> ds[..|ds| - 1][i] == ds[i];
    }
  }

  /**
   Both disconnect metrics pass exactly when there was an injected disconnect, none is
   outstanding, and every entry was injected, reconnected and acknowledged again within 10 s.
   */
  lemma DisconnectMetricsMean(
      expected: nat, requests: nat, ds: seq<Disconnect>, recoveries: seq<real>, unhandled: int)
    requires Ledger(expected, requests, ds, recoveries) && unhandled == Unhandled(ds) + expected
    ensures (UnhandledDisconnectsPass(ds, unhandled) && RecoveryPasses(ds, recoveries, requests))
      <==> (requests > 0 && expected == 0 && forall i :: 0 <= i < |ds| ==> Handled(ds[i]))
  {
    hide Recovered, Injected, Unhandled, NonNegative, Handled, EntrySound;
    RecoveredCount(ds);
    RecoveredMembers(ds);
    NoneUnhandled(ds);
    SameElements(recoveries, Recovered(ds));
    if UnhandledDisconnectsPass(ds, unhandled) && RecoveryPasses(ds, recoveries, requests) {
      AllHandled(ds, recoveries);
    }
    if requests > 0 && expected == 0 && forall i :: 0 <= i < |ds| ==> Handled(ds[i]) { AllFast(ds, recoveries); }
  }

  lemma SameElements(recoveries: seq<real>, all: multiset<real>)
    requires multiset(recoveries) == all
    ensures |recoveries| == |all| && forall x :: x in recoveries <==> x in all
  {
  }

  lemma AllFast(ds: seq<Disconnect>, recoveries: seq<real>)
    requires forall i :: 0 <= i < |ds| ==> EntrySound(ds[i]) && Handled(ds[i])
    requires forall x :: x in recoveries ==> exists i :: 0 <= i < |ds| && ds[i].recovery == Some(x)
    ensures forall i :: 0 <= i < |ds| ==> ds[i].classification.INJECTED? && !Open(ds[i]) && ds[i].recovery.Some?
    ensures forall i :: 0 <= i < |recoveries| ==> recoveries[i] < 10.0
  {
    hide NonNegative;
    forall x | x in recoveries ensures x < 10.0 {
      var j :| 0 <= j < |ds| && ds[j].recovery == Some(x);
      assert EntrySound(ds[j]) && Handled(ds[j]);
    }
    forall i | 0 <= i < |recoveries| ensures recoveries[i] < 10.0 { assert recoveries[i] in recoveries; }
  }

  lemma AllHandled(ds: seq<Disconnect>, recoveries: seq<real>)
    requires forall i :: 0 <= i < |ds| ==> EntrySound(ds[i]) && ds[i].classification.INJECTED? && !Open(ds[i])
    requires forall i :: 0 <= i < |ds| && ds[i].recovery.Some? ==> ds[i].recovery.value in recoveries
    requires forall i :: 0 <= i < |recoveries| ==> recoveries[i] < 10.0
    ensures forall i :: 0 <= i < |ds| ==> Handled(ds[i])
  {
    hide NonNegative;
  }

  /** `_continuity_availability`, without the displayed percentage. */
  function ContinuityAvailability(sampleCount: int, unexpectedCount: int): (r: (int, bool)) {
    var samples := if sampleCount < 0 then 0 else sampleCount;
    var nonNegative := if unexpectedCount < 0 then 0 else unexpectedCount;
    var unexpected := if nonNegative < samples then nonNegative else samples;
    var ready := samples - unexpected;
    (ready, samples != 0 && ready * 10000 >= samples * 9995)
  }

  /** Negative counts are read as zero, and more unexpected samples than samples as all of them. */
  lemma ContinuityOfAnyCounts(samples: int, unexpected: int)
    ensures samples <= 0 ==> ContinuityAvailability(samples, unexpected) == (0, false)
    ensures samples > 0 && unexpected <= 0 ==> ContinuityAvailability(samples, unexpected) == (samples, true)
    ensures 0 < samples <= unexpected ==> ContinuityAvailability(samples, unexpected) == (0, false)
  {
  }

  /** 99.95 percent: at most one unexpected sample in two thousand, and never on no samples. */
  lemma ContinuityMinimum(samples: nat, unexpected: nat)
    requires unexpected <= samples
    ensures ContinuityAvailability(samples, unexpected).0 == samples - unexpected
    ensures ContinuityAvailability(samples, unexpected).1 <==> samples > 0 && 2000 * unexpected <= samples
  {
  }
}
