/**
 The evidence the Gate-4 reducer derives from a trace (gate4/collector.py), and why bad
 evidence cannot wash out of it.
 */
module Gate4Evidence {
  import opened Common
  import opened Ordering
  import opened EvidenceJournal
  import opened Gate4Events
  import opened Gate4Collector

  datatype Review = Review(author: string, reviewer: string, status: string, reviewedAt: string, reference: string)

  datatype SessionEvidence = SessionEvidence(
    sessionDates: seq<string>, sessionStartedDisarmed: bool, manualArmAfterActive: bool,
    lifecycleAgrees: bool, everyEntryHasActiveCard: bool, finalReconciliationMatches: bool)

  datatype CounterEvidence = CounterEvidence(
    retryAttempts: int, duplicateOrUnowned: int, unresolvedAmbiguous: int, lifecycleMismatches: int)

  datatype CapEvidence = CapEvidence(
    reviewedCap: real, maxNotional: real, envelopes: seq<(real, real)>, everyBuyBelowCap: bool, entryCount: int)

  datatype OutcomeEvidence = OutcomeEvidence(
    entryOutcomes: int, protectedPositions: int, cancelLifecycles: int,
    disarmProbeBlocked: bool, alertDelivered: bool, riskRechecked: bool)

  datatype RuntimeEvidence = RuntimeEvidence(
    ownerCount: int, leaseCount: int, controlledLive: bool,
    approvedSymbols: set<string>, observedSymbols: set<string>,
    capabilitySha: string, capabilitiesVerified: bool, collectorDerived: bool, pilotException: bool)

  datatype Digests = Digests(
    commitSha: string, gate3ReportSha: string, journalSha: string, configSha: string, riskLimitsSha: string)

  datatype Evidence = Evidence(
    sessions: SessionEvidence, counters: CounterEvidence, caps: CapEvidence,
    outcomes: OutcomeEvidence, runtime: RuntimeEvidence,
    digests: Digests, audit: AuditCounts<Kind>, review: Review)

  // ---------------------------------------------------------------- sets of qualifying positions

  ghost function Dispatched(t: Trace): set<int> { QualifyingOf(t, MutationDispatched) }

  /** The distinct non-blank identities of the dispatched mutations. */
  ghost function Identities(t: Trace): set<(Command, string)> {
    set i | i in Dispatched(t) && t[i].payload.clientOrderId != "" ::
      (t[i].payload.commandType, t[i].payload.clientOrderId)
  }

  predicate IsRetry(t: Trace, i: int) {
    0 <= i < |t| && t[i].kind == MutationDispatched && t[i].payload.automaticRetry == Yes
  }

  predicate IsDuplicateOrUnowned(t: Trace, i: int) {
    0 <= i < |t| && t[i].kind == MutationDispatched && (t[i].payload.duplicate == Yes || t[i].payload.owned != Yes)
  }

  predicate IsUnresolvedAmbiguous(t: Trace, i: int) {
    0 <= i < |t| && t[i].kind == MutationTerminal
    && t[i].payload.identityAmbiguous == Yes && t[i].payload.resolved != Yes
  }

  predicate IsMismatch(t: Trace, i: int) {
    0 <= i < |t| && t[i].kind == LifecycleComparison && t[i].payload.agrees != Yes
  }

  ghost function Retries(t: Trace): set<int> { set i | 0 <= i < |t| && Qualifies(t, i) && IsRetry(t, i) }

  ghost function DuplicatesOrUnowned(t: Trace): set<int> {
    set i | 0 <= i < |t| && Qualifies(t, i) && IsDuplicateOrUnowned(t, i)
  }

  ghost function UnresolvedAmbiguous(t: Trace): set<int> {
    set i | 0 <= i < |t| && Qualifies(t, i) && IsUnresolvedAmbiguous(t, i)
  }

  ghost function Mismatches(t: Trace): set<int> { set i | 0 <= i < |t| && Qualifies(t, i) && IsMismatch(t, i) }

  /** Mutations dispatched again, or without an identity: all of them minus the distinct identities. */
  ghost function Repeated(t: Trace): int { |Dispatched(t)| - |Identities(t)| }

  // ---------------------------------------------------------------- outcomes, in reducer order

  ghost predicate DispatchOf(t: Trace, c: Command, id: string, m: int) {
    m in Dispatched(t) && t[m].payload.commandType == c && t[m].payload.clientOrderId == id
  }

  /** A broker-confirmed end of a command that comes after every dispatch of that identity. */
  ghost predicate ConfirmedAfterDispatch(t: Trace, c: Command, i: int) {
    && i in QualifyingOf(t, MutationTerminal)
    && t[i].payload.brokerConfirmed == Yes
    && t[i].payload.clientOrderId != ""
    && (forall m :: DispatchOf(t, c, t[i].payload.clientOrderId, m) ==> Earlier(t, m, i))
  }

  ghost predicate EntryOutcome(t: Trace, i: int) {
    && ConfirmedAfterDispatch(t, Submit, i)
    && t[i].payload.strategyEntry == Yes
    && exists m :: DispatchOf(t, Submit, t[i].payload.clientOrderId, m) && t[m].payload.strategyEntry == Yes
  }

  ghost predicate CancelLifecycle(t: Trace, i: int) {
    && ConfirmedAfterDispatch(t, Cancel, i)
    && t[i].payload.commandType == Cancel
    && exists m :: DispatchOf(t, Cancel, t[i].payload.clientOrderId, m)
  }

  ghost predicate ProtectedAfterEntry(t: Trace, i: int) {
    && i in QualifyingOf(t, PositionProtected)
    && t[i].payload.safeExitOrProtected == Yes
    && t[i].payload.symbol != ""
    && exists x :: EntryOutcome(t, x) && Earlier(t, x, i) && t[x].payload.symbol == t[i].payload.symbol
  }

  ghost predicate ProbeAfterDisarm(t: Trace, i: int) {
    && i in QualifyingOf(t, DisarmProbe)
    && t[i].payload.nextMutationBlocked == Yes && t[i].payload.brokerCalled == No
    && exists x :: x in QualifyingOf(t, Disarmed) && Earlier(t, x, i) && DateAt(t, x) == DateAt(t, i)
  }

  ghost function AllEntryOutcomes(t: Trace): set<int> { set i | 0 <= i < |t| && EntryOutcome(t, i) }

  ghost function AllCancelLifecycles(t: Trace): set<int> { set i | 0 <= i < |t| && CancelLifecycle(t, i) }

  ghost function AllProtectedPositions(t: Trace): set<int> { set i | 0 <= i < |t| && ProtectedAfterEntry(t, i) }

  // ---------------------------------------------------------------- conditions over all sessions

  datatype Condition = StartDisarmed | ArmAfterActive | Lifecycle | EntriesArmed | Reconciliation

  ghost predicate Meets(t: Trace, d: string, s: int, e: int, c: Condition) {
    match c
    case StartDisarmed => 0 <= s < |t| && t[s].payload.armed == No
    case ArmAfterActive => ArmedAfterActive(t, d, s, e)
    case Lifecycle => LifecycleAgrees(t, d, s, e)
    case EntriesArmed => EntriesAfterArm(t, d, s, e)
    case Reconciliation => Reconciled(t, d, s, e)
  }

  ghost predicate AllSessions(t: Trace, c: Condition) {
    forall d, s, e :: ClosedSession(t, d, s, e) ==> Meets(t, d, s, e, c)
  }

  ghost predicate IsMin(s: seq<real>, x: real) { x in s && forall y :: y in s ==> x <= y }

  ghost predicate IsMax(s: seq<real>, x: real) { x in s && forall y :: y in s ==> y <= x }

  function Notionals(envelopes: seq<(real, real)>): seq<real> {
    seq(|envelopes|, j requires 0 <= j < |envelopes| => envelopes[j].0)
  }

  function Caps(envelopes: seq<(real, real)>): seq<real> {
    seq(|envelopes|, j requires 0 <= j < |envelopes| => envelopes[j].1)
  }

  predicate CapsComplete(envelopes: seq<(real, real)>) {
    |envelopes| > 0 && forall j :: 0 <= j < |envelopes| ==> envelopes[j].1 > 0.0
  }

  /** One (notional, own cap) pair per entry, in reducer order. */
  ghost predicate PairedWith(t: Trace, entries: seq<int>, envelopes: seq<(real, real)>) {
    && Lists(t, entries, QualifyingOf(t, EntryCandidate))
    && |envelopes| == |entries|
    && forall j :: 0 <= j < |entries| ==> EnvelopeOf(t, entries[j], envelopes[j])
  }

  predicate EnvelopeOf(t: Trace, i: int, envelope: (real, real)) {
    0 <= i < |t| && envelope == (t[i].payload.notional, t[i].payload.entryCap)
  }

  ghost predicate EnvelopesOf(t: Trace, envelopes: seq<(real, real)>) {
    exists entries: seq<int> :: PairedWith(t, entries, envelopes)
  }

  /** The smallest positive cap an active session reviewed, or zero where none did. */
  ghost predicate FallbackCap(t: Trace, x: real) {
    || (x == 0.0 && forall i :: i in QualifyingOf(t, RuntimeActive) ==> t[i].payload.reviewedCap <= 0.0)
    || (&& x > 0.0
        && (exists i :: i in QualifyingOf(t, RuntimeActive) && t[i].payload.reviewedCap == x)
        && (forall i :: i in QualifyingOf(t, RuntimeActive) && t[i].payload.reviewedCap > 0.0 ==>
              x <= t[i].payload.reviewedCap))
  }

  ghost predicate LastCapability(t: Trace, sha: string, verified: bool) {
    || (sha == "" && !verified && forall i :: 0 <= i < |t| ==> t[i].kind != CapabilityVerified)
    || (exists i ::
          && 0 <= i < |t| && t[i].kind == CapabilityVerified
          && (forall j :: i < j < |t| ==> t[j].kind != CapabilityVerified)
          && sha == t[i].payload.evidenceSha && (verified <==> t[i].payload.verified == Yes))
  }

  // ---------------------------------------------------------------- what evidence means

  /** The session-level part of the evidence. */
  ghost predicate SessionsDerived(ev: SessionEvidence, t: Trace) {
    && StrictlySorted(ev.sessionDates)
    && (forall d :: d in ev.sessionDates <==> Closed(t, d))
    && (ev.sessionStartedDisarmed <==> ev.sessionDates != [] && AllSessions(t, StartDisarmed))
    && (ev.manualArmAfterActive <==> ev.sessionDates != [] && AllSessions(t, ArmAfterActive))
    && (ev.finalReconciliationMatches <==> ev.sessionDates != [] && AllSessions(t, Reconciliation))
    && (ev.lifecycleAgrees <==>
          && QualifyingOf(t, LifecycleComparison) != {}
          && AllSessions(t, Lifecycle)
          && Mismatches(t) == {})
    && (ev.everyEntryHasActiveCard <==>
          && QualifyingOf(t, EntryCandidate) != {}
          && AllSessions(t, EntriesArmed)
          && forall i :: i in QualifyingOf(t, EntryCandidate) ==> t[i].payload.activeTradeCard == Yes)
  }

  ghost predicate CountersDerived(ev: CounterEvidence, t: Trace) {
    && ev.retryAttempts == Repeated(t) + |Retries(t)|
    && ev.duplicateOrUnowned == Repeated(t) + |DuplicatesOrUnowned(t)|
    && ev.unresolvedAmbiguous == |UnresolvedAmbiguous(t)|
    && ev.lifecycleMismatches == |Mismatches(t)|
  }

  ghost predicate CapsDerived(ev: CapEvidence, t: Trace) {
    && EnvelopesOf(t, ev.envelopes)
    && ev.entryCount == |QualifyingOf(t, EntryCandidate)|
    && (ev.envelopes == [] ==> ev.maxNotional == 0.0)
    && (ev.envelopes != [] ==> IsMax(Notionals(ev.envelopes), ev.maxNotional))
    && (CapsComplete(ev.envelopes) ==>
          && IsMin(Caps(ev.envelopes), ev.reviewedCap)
          && (ev.everyBuyBelowCap <==> forall j :: 0 <= j < |ev.envelopes| ==>
                0.0 < ev.envelopes[j].0 <= ev.envelopes[j].1))
    && (!CapsComplete(ev.envelopes) ==>
          && FallbackCap(t, ev.reviewedCap)
          && (ev.everyBuyBelowCap <==>
                && ev.envelopes != [] && ev.reviewedCap > 0.0
                && forall j :: 0 <= j < |ev.envelopes| ==> 0.0 < ev.envelopes[j].0 <= ev.reviewedCap))
  }

  ghost predicate OutcomesDerived(ev: OutcomeEvidence, t: Trace) {
    && ev.entryOutcomes == |AllEntryOutcomes(t)|
    && ev.cancelLifecycles == |AllCancelLifecycles(t)|
    && ev.protectedPositions == |AllProtectedPositions(t)|
    && (ev.disarmProbeBlocked <==> exists i :: ProbeAfterDisarm(t, i))
    && (ev.alertDelivered <==> exists i :: i in QualifyingOf(t, AlertDelivered) && t[i].payload.delivered == Yes)
    && (ev.riskRechecked <==>
          && QualifyingOf(t, EntryCandidate) != {}
          && forall i :: i in QualifyingOf(t, EntryCandidate) ==> t[i].payload.riskRechecked == Yes)
  }

  ghost predicate RuntimeDerived(ev: RuntimeEvidence, dates: seq<string>, t: Trace) {
    var active := QualifyingOf(t, RuntimeActive);
    && (ev.ownerCount == ev.leaseCount == if
          && dates != [] && |active| >= |dates|
          && forall i :: i in active ==> t[i].payload.ownerCount == 1 && t[i].payload.leaseCount == 1
        then 1 else 0)
    && (ev.controlledLive <==> active != {} && forall i :: i in active ==> t[i].payload.liveMode == ControlledLive)
    && ev.approvedSymbols == (set i, x | i in active && x in t[i].payload.approvedSymbols && x != "" :: x)
    && ev.observedSymbols
       == (set i | i in QualifyingOf(t, EntryCandidate) && t[i].payload.symbol != "" :: t[i].payload.symbol)
    && LastCapability(t, ev.capabilitySha, ev.capabilitiesVerified)
    && ev.collectorDerived && !ev.pilotException
  }

  ghost predicate DerivedFrom(ev: Evidence, t: Trace) {
    && SessionsDerived(ev.sessions, t) && CountersDerived(ev.counters, t) && CapsDerived(ev.caps, t)
    && OutcomesDerived(ev.outcomes, t) && RuntimeDerived(ev.runtime, ev.sessions.sessionDates, t)
  }

  // ---------------------------------------------------------------- nothing bad washes out

  /** Closed sessions of a reachable trace are closed, with the same window, in every extension. */
  lemma ClosedSessionStays(t: Trace, more: Trace, d: string, s: int, e: int)
    requires Reachable(t + more) && ClosedSession(t, d, s, e)
    ensures ClosedSession(t + more, d, s, e)
    ensures forall i :: Dated(t + more, d, i) <==> Dated(t, d, i)
  {
    assert e in Positions(t, d, SessionEnded);
    assert s in Positions(t, d, SessionStarted);
    ClosedDateIsImmutable(t, more, d);
    var all := t + more;
    assert forall i :: 0 <= i < |t| ==> all[i] == t[i];
    forall i ensures Dated(all, d, i) <==> Dated(t, d, i) {
      if |t| <= i < |all| { assert all[i] == more[i - |t|]; }
    }
    forall k ensures Positions(all, d, k) == Positions(t, d, k) {
      assert forall i :: i in Positions(all, d, k) <==> Dated(all, d, i) && all[i].kind == k;
    }
  }

  /**
   Whatever is appended, by whatever writer: a closed session stays closed exactly where its
   date gets no further start and no further end.
   */
  lemma ClosedSessionStaysIff(t: Trace, more: Trace, d: string, s: int, e: int)
    requires ClosedSession(t, d, s, e)
    ensures ClosedSession(t + more, d, s, e) <==>
      forall j :: 0 <= j < |more| && more[j].payload.sessionDate == Some(d) ==>
        more[j].kind != SessionStarted && more[j].kind != SessionEnded
  {
    var all := t + more;
    assert s in Positions(t, d, SessionStarted) && all[s] == t[s];
    StaysOnly(t, more, d, SessionStarted, s);
    StaysOnly(t, more, d, SessionEnded, e);
    if Positions(more, d, SessionStarted) == {} && Positions(more, d, SessionEnded) == {} {
      forall j | 0 <= j < |more| && more[j].payload.sessionDate == Some(d)
        ensures more[j].kind != SessionStarted && more[j].kind != SessionEnded
      {
        assert j !in Positions(more, d, SessionStarted) && j !in Positions(more, d, SessionEnded);
      }
    }
  }

  lemma PositionsOfBoth(t: Trace, more: Trace, d: string, k: Kind, i: int)
    ensures i in Positions(t + more, d, k) <==> i in Positions(t, d, k) || i - |t| in Positions(more, d, k)
  {
    var all := t + more;
    assert 0 <= i < |t| ==> all[i] == t[i];
    assert |t| <= i < |all| ==> all[i] == more[i - |t|];
  }

  lemma StaysOnly(t: Trace, more: Trace, d: string, k: Kind, i: int)
    requires Positions(t, d, k) == {i}
    ensures Positions(t + more, d, k) == {i} <==> Positions(more, d, k) == {}
  {
    var all := Positions(t + more, d, k);
    PositionsOfBoth(t, more, d, k, i);
    assert i in Positions(t, d, k) && i < |t|;
    if j :| j in Positions(more, d, k) {
      PositionsOfBoth(t, more, d, k, |t| + j);
      assert |t| + j in all && |t| + j != i;
    } else {
      forall x ensures x in all <==> x in {i} { PositionsOfBoth(t, more, d, k, x); }
      assert all == {i};
    }
  }

  lemma QualifyingStays(t: Trace, more: Trace, i: int)
    requires Reachable(t + more) && 0 <= i < |t| && Qualifies(t, i)
    ensures Qualifies(t + more, i) && (t + more)[i] == t[i]
  {
    var d := t[i].payload.sessionDate.value;
    var s, e :| ClosedSession(t, d, s, e) && s <= i <= e;
    ClosedSessionStays(t, more, d, s, e);
  }

  lemma SubsetCardinality<T>(a: set<T>, b: set<T>)
    requires a <= b
    ensures |a| <= |b|
  {
    assert b == a + (b - a);
  }

  /** Adding n elements adds at most n distinct images. */
  lemma {:induction false} DistinctGrowsSlower<T>(a: set<T>, b: set<T>, f: T -> Option<(Command, string)>)
    requires a <= b
    ensures |Images(b, f)| - |Images(a, f)| <= |b| - |a|
    decreases |b|
  {
    if x :| x in b && x !in a {
      DistinctGrowsSlower(a, b - {x}, f);
      assert Images(b, f) == Images(b - {x}, f) + Images({x}, f);
      if f(x).Some? {
        assert Images({x}, f) == {f(x).value};
      } else {
        assert Images({x}, f) == {};
      }
    } else {
      assert a == b;
    }
  }

  ghost function Images<T>(s: set<T>, f: T -> Option<(Command, string)>): set<(Command, string)> {
    set x | x in s && f(x).Some? :: f(x).value
  }

  ghost function IdentityAt(t: Trace, i: int): Option<(Command, string)> {
    if 0 <= i < |t| && t[i].payload.clientOrderId != ""
    then Some((t[i].payload.commandType, t[i].payload.clientOrderId)) else None
  }

  /** The distinct identities, read off any trace that agrees on the dispatched positions. */
  lemma IdentitiesAreImages(t: Trace, all: Trace, f: int -> Option<(Command, string)>)
    requires forall i :: f(i) == IdentityAt(all, i)
    requires forall i :: i in Dispatched(t) ==> 0 <= i < |all| && all[i] == t[i]
    ensures Identities(t) == Images(Dispatched(t), f)
  {
  }

  lemma RepeatedNeverDecreases(t: Trace, more: Trace)
    requires Reachable(t + more)
    ensures 0 <= Repeated(t) <= Repeated(t + more)
  {
    var all := t + more;
    var f := (i: int) => IdentityAt(all, i);
    forall i | i in Dispatched(t) ensures i in Dispatched(all) && all[i] == t[i] { QualifyingStays(t, more, i); }
    hide Qualifies, Reachable;
    IdentitiesAreImages(all, all, f);
    IdentitiesAreImages(t, all, f);
    DistinctGrowsSlower(Dispatched(t), Dispatched(all), f);
    DistinctGrowsSlower({}, Dispatched(t), f);
    assert Images({}, f) == {};
  }

  /** The four counters the verdict needs to be zero never decrease along the guarded writers. */
  lemma CountersNeverDecrease(t: Trace, more: Trace, ev: CounterEvidence, later: CounterEvidence)
    requires Reachable(t + more)
    requires CountersDerived(ev, t) && CountersDerived(later, t + more)
    ensures 0 <= ev.retryAttempts <= later.retryAttempts
    ensures 0 <= ev.duplicateOrUnowned <= later.duplicateOrUnowned
    ensures 0 <= ev.unresolvedAmbiguous <= later.unresolvedAmbiguous
    ensures 0 <= ev.lifecycleMismatches <= later.lifecycleMismatches
  {
    var all := t + more;
    RepeatedNeverDecreases(t, more);
    forall i | 0 <= i < |t| && Qualifies(t, i) ensures Qualifies(all, i) && all[i] == t[i] {
      QualifyingStays(t, more, i);
    }
    SubsetCardinality(Retries(t), Retries(all));
    SubsetCardinality(DuplicatesOrUnowned(t), DuplicatesOrUnowned(all));
    SubsetCardinality(UnresolvedAmbiguous(t), UnresolvedAmbiguous(all));
    SubsetCardinality(Mismatches(t), Mismatches(all));
  }

  lemma InWindowStays(t: Trace, more: Trace, d: string, s: int, e: int, k: Kind, i: int)
    requires Reachable(t + more) && ClosedSession(t, d, s, e)
    ensures InWindow(t + more, d, s, e, k, i) <==> InWindow(t, d, s, e, k, i)
    ensures InWindow(t, d, s, e, k, i) ==> (t + more)[i] == t[i]
  {
    ClosedSessionStays(t, more, d, s, e);
  }

  /** The verdict on a closed session is the same in every extension. */
  lemma SessionVerdictStays(t: Trace, more: Trace, d: string, s: int, e: int, c: Condition)
    requires Reachable(t + more) && ClosedSession(t, d, s, e)
    ensures ClosedSession(t + more, d, s, e)
    ensures Meets(t + more, d, s, e, c) <==> Meets(t, d, s, e, c)
  {
    var all := t + more;
    ClosedSessionStays(t, more, d, s, e);
    assert s in Positions(t, d, SessionStarted) && e in Positions(t, d, SessionEnded);
    assert all[s] == t[s] && all[e] == t[e];
    forall k, i
      ensures InWindow(all, d, s, e, k, i) <==> InWindow(t, d, s, e, k, i)
      ensures InWindow(t, d, s, e, k, i) ==> all[i] == t[i]
    {
      InWindowStays(t, more, d, s, e, k, i);
    }
  }

  /** A session condition falsified by a closed session stays false in every extension. */
  lemma SessionFlagsNeverRecover(t: Trace, more: Trace, ev: SessionEvidence, later: SessionEvidence)
    requires Reachable(t + more)
    requires SessionsDerived(ev, t) && SessionsDerived(later, t + more)
    ensures forall c :: !AllSessions(t, c) ==> !AllSessions(t + more, c)
    ensures ev.sessionDates != [] && !ev.sessionStartedDisarmed ==> !later.sessionStartedDisarmed
    ensures ev.sessionDates != [] && !ev.manualArmAfterActive ==> !later.manualArmAfterActive
    ensures ev.sessionDates != [] && !ev.finalReconciliationMatches ==> !later.finalReconciliationMatches
    ensures !AllSessions(t, Lifecycle) ==> !later.lifecycleAgrees
    ensures !AllSessions(t, EntriesArmed) ==> !later.everyEntryHasActiveCard
    ensures forall d :: d in ev.sessionDates ==> d in later.sessionDates
  {
    forall c | !AllSessions(t, c) ensures !AllSessions(t + more, c) {
      var d, s, e :| ClosedSession(t, d, s, e) && !Meets(t, d, s, e, c);
      SessionVerdictStays(t, more, d, s, e, c);
    }
    forall d | d in ev.sessionDates ensures d in later.sessionDates {
      var s, e :| ClosedSession(t, d, s, e);
      ClosedSessionStays(t, more, d, s, e);
    }
  }

  /** The collector's window of a reachable closed session is the whole date: it drops nothing. */
  lemma WindowDropsNothing(t: Trace, d: string, i: int)
    requires Reachable(t) && Dated(t, d, i) && Positions(t, d, SessionEnded) != {} && d != ""
    ensures Qualifies(t, i)
  {
    ReachableSessionShape(t, d);
    EndedOnce(t, d);
    var s :| OpenedBy(t, d, s);
    var e :| e in Positions(t, d, SessionEnded);
    OnlyElement(Positions(t, d, SessionStarted), s);
    OnlyElement(Positions(t, d, SessionEnded), e);
    assert Dated(t, d, e) && Dated(t, d, s);
    assert ClosedSession(t, d, s, e);
  }

  lemma OnlyElement<T>(s: set<T>, x: T)
    requires x in s && |s| <= 1
    ensures s == {x}
  {
    if exists y :: y in s && y != x {
      var y :| y in s && y != x;
      SubsetCardinality({x, y}, s);
    }
  }
}
