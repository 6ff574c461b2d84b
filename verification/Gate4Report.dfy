/**
 The Gate-4 verdict (gate4/reporting.py) and what a PASSED verdict says about the journal
 the evidence was derived from.
 */
module Gate4Report {
  import opened Common
  import opened Ordering
  import opened Text
  import opened EvidenceJournal
  import opened Gate4Events
  import opened Gate4Collector
  import opened Gate4Evidence
  import opened EvidenceRules
  import opened DeltaManifest
  import Requalification
  import Gate4Reducer

  /** Requalification needs a baseline report and a manifest together; one alone is refused. */
  datatype Delta =
    | FullQualification
    | OneInputMissing
    | DeltaRequalification(baseline: BaselineReport, manifest: ImpactManifest)

  datatype Report = Report(passed: bool, violations: seq<string>, requiredSessions: int)

  function RequiredSessions(delta: Delta): int {
    if delta.DeltaRequalification? then Requalification.RequiredSessions(Impact(delta.manifest)) else 3
  }

  /** Coverage may be carried from the baseline only for changes outside the controller. */
  predicate CarriesCoverage(delta: Delta) {
    && delta.DeltaRequalification?
    && (Impact(delta.manifest) == "EVIDENCE_ONLY" || Impact(delta.manifest) == "PRESENTATION_ONLY")
  }

  predicate NeedsEntryCoverage(ev: Evidence, delta: Delta) {
    !(CarriesCoverage(delta) && ev.caps.entryCount == 0)
  }

  ghost predicate BaselineAccepted(b: BaselineReport, o: Outside) {
    && SessionDatesAccepted(b.sessionDates, 3, o)
    && b.entryOutcomes >= 1 && b.protectedPositions >= 1 && b.cancelLifecycles >= 1
    && ReviewApproved(b.review, o)
  }

  ghost predicate DeltaAccepted(delta: Delta, commit: string, o: Outside) {
    match delta
    case FullQualification => true
    case OneInputMissing => false
    case DeltaRequalification(b, m) => ManifestAccepted(m, b, commit, o) && BaselineAccepted(b, o)
  }

  predicate FlagsAccepted(ev: Evidence, needEntries: bool) {
    && ev.runtime.collectorDerived && ev.runtime.capabilitiesVerified
    && ev.sessions.sessionStartedDisarmed && ev.sessions.manualArmAfterActive
    && (needEntries ==>
          ev.sessions.everyEntryHasActiveCard && ev.caps.everyBuyBelowCap && ev.outcomes.riskRechecked)
    && ev.sessions.lifecycleAgrees
    && ev.outcomes.disarmProbeBlocked && ev.outcomes.alertDelivered && ev.sessions.finalReconciliationMatches
  }

  predicate CountersAreZero(c: CounterEvidence) {
    c.retryAttempts == 0 && c.duplicateOrUnowned == 0 && c.unresolvedAmbiguous == 0 && c.lifecycleMismatches == 0
  }

  ghost predicate OwnCapsRespected(envelopes: seq<(real, real)>) {
    envelopes != [] && forall j :: 0 <= j < |envelopes| ==> 0.0 < envelopes[j].0 <= envelopes[j].1
  }

  /** The notional envelope check: per-entry caps where there are any, the summary otherwise. */
  ghost predicate EnvelopeAccepted(c: CapEvidence) {
    if c.envelopes != [] then
      && |c.envelopes| == c.entryCount
      && OwnCapsRespected(c.envelopes)
      && IsMin(Caps(c.envelopes), c.reviewedCap)
      && IsMax(Notionals(c.envelopes), c.maxNotional)
    else
      0.0 < c.maxNotional <= c.reviewedCap
  }

  predicate SymbolsAccepted(r: RuntimeEvidence) {
    r.approvedSymbols != {} && r.observedSymbols != {} && r.observedSymbols <= r.approvedSymbols
  }

  ghost predicate Accepts(ev: Evidence, up: Upstream, delta: Delta, o: Outside) {
    && UpstreamAccepted(up, "GATE_3_SHADOW_EXECUTION", ev.digests.gate3ReportSha, Lower(Strip(ev.digests.commitSha)))
    && DeltaAccepted(delta, Lower(Strip(ev.digests.commitSha)), o)
    && FlagsAccepted(ev, NeedsEntryCoverage(ev, delta))
    && ev.runtime.controlledLive && ev.runtime.ownerCount == 1 && ev.runtime.leaseCount == 1
    && CountersAreZero(ev.counters)
    && SessionDatesAccepted(ev.sessions.sessionDates, RequiredSessions(delta), o)
    && ValidSha256(ev.digests.configSha) && ValidSha256(ev.digests.riskLimitsSha)
    && ValidSha256(ev.digests.journalSha) && ValidSha256(ev.runtime.capabilitySha)
    && ev.audit.Passed()
    && (NeedsEntryCoverage(ev, delta) ==> EnvelopeAccepted(ev.caps) && SymbolsAccepted(ev.runtime))
    && (!CarriesCoverage(delta) ==>
          ev.outcomes.entryOutcomes >= 1 && ev.outcomes.protectedPositions >= 1 && ev.outcomes.cancelLifecycles >= 1)
    && !ev.runtime.pilotException
    && ReviewApproved(ev.review, o)
  }

  // ---------------------------------------------------------------- the validator

  /** The baseline and its manifest; sessions, and whether coverage is carried, follow from the impact computed. */
  method ValidateDelta(delta: Delta, commit: string, o: Outside)
    returns (violations: seq<string>, sessions: int, carry: bool)
    ensures violations == [] <==> DeltaAccepted(delta, commit, o)
    ensures sessions == RequiredSessions(delta) && carry == CarriesCoverage(delta)
  {
    hide ManifestAccepted, DatesAccepted, ReviewApproved, Impact;
    violations, sessions, carry := [], 3, false;
    match delta
    case FullQualification =>
    case OneInputMissing => violations := ["gate4_requalification_inputs"];
    case DeltaRequalification(b, m) =>
      var impact, w;
      violations, sessions, impact := ValidateImpactManifest(m, b, commit, o);
      hide Requalification.RequiredSessions;
      w := ValidateSessionDates(b.sessionDates, DateRule(3, false, false), o);
      violations := violations + w;
      violations := Require(violations,
        b.entryOutcomes >= 1 && b.protectedPositions >= 1 && b.cancelLifecycles >= 1, "gate4_requalification_baseline");
      w := ValidateIndependentReview(b.review, o);
      violations := violations + w;
      carry := impact == "EVIDENCE_ONLY" || impact == "PRESENTATION_ONLY";
  }

  method CheckEnvelope(c: CapEvidence) returns (ok: bool)
    ensures ok <==> EnvelopeAccepted(c)
  {
    var rows := c.envelopes;
    if rows == [] {
      return 0.0 < c.maxNotional <= c.reviewedCap;
    }
    if |rows| != c.entryCount { return false; }
    var minCap, maxNotional := rows[0].1, rows[0].0;
    var within := true;
    assert Caps(rows)[0] == minCap && Notionals(rows)[0] == maxNotional;
    for n := 0 to |rows|
      invariant within <==> forall j :: 0 <= j < n ==> 0.0 < rows[j].0 <= rows[j].1
      invariant minCap in Caps(rows) && forall j :: 0 <= j < n ==> minCap <= rows[j].1
      invariant maxNotional in Notionals(rows) && forall j :: 0 <= j < n ==> rows[j].0 <= maxNotional
    {
      assert Caps(rows)[n] == rows[n].1 && Notionals(rows)[n] == rows[n].0;
      within := within && 0.0 < rows[n].0 <= rows[n].1;
      if rows[n].1 < minCap { minCap := rows[n].1; }
      if maxNotional < rows[n].0 { maxNotional := rows[n].0; }
    }
    assert IsMin(Caps(rows), minCap) && IsMax(Notionals(rows), maxNotional);
    ok := within && c.reviewedCap == minCap && c.maxNotional == maxNotional;
  }

  /** The entry envelope and the coverage counts, unless they are carried from the baseline. */
  method RequireCoverage(violations: seq<string>, ev: Evidence, needEntries: bool, carry: bool) returns (v: seq<string>)
    ensures v == [] <==>
      && violations == []
      && (needEntries ==> EnvelopeAccepted(ev.caps) && SymbolsAccepted(ev.runtime))
      && (!carry ==>
            ev.outcomes.entryOutcomes >= 1 && ev.outcomes.protectedPositions >= 1 && ev.outcomes.cancelLifecycles >= 1)
  {
    hide EnvelopeAccepted, SymbolsAccepted;
    var envelope := CheckEnvelope(ev.caps);
    v := Require(violations, needEntries ==> envelope, "reviewed_entry_notional_envelope");
    v := Require(v, needEntries ==> SymbolsAccepted(ev.runtime), "reviewed_symbol_envelope");
    v := Require(v, carry || ev.outcomes.entryOutcomes >= 1, "strategy_entry_outcome");
    v := Require(v, carry || ev.outcomes.protectedPositions >= 1, "position_protection");
    v := Require(v, carry || ev.outcomes.cancelLifecycles >= 1, "controlled_cancel_lifecycle");
  }

  method BuildReport(ev: Evidence, up: Upstream, delta: Delta, o: Outside) returns (r: Report)
    ensures r.passed <==> r.violations == []
    ensures r.passed <==> Accepts(ev, up, delta, o)
    ensures r.requiredSessions == RequiredSessions(delta)
  {
    hide UpstreamAccepted, DeltaAccepted, FlagsAccepted, CountersAreZero, DatesAccepted, ValidSha256,
         EnvelopeAccepted, SymbolsAccepted, ReviewApproved, RequiredSessions, CarriesCoverage;
    var commit := Lower(Strip(ev.digests.commitSha));
    var v := ValidateUpstream(up, "GATE_3_SHADOW_EXECUTION", ev.digests.gate3ReportSha, commit);
    var w, sessions, carry := ValidateDelta(delta, commit, o);
    v := v + w;
    var needEntries := !(carry && ev.caps.entryCount == 0);
    v := Require(v, FlagsAccepted(ev, needEntries), "required_true");
    v := Require(v, ev.runtime.controlledLive, "controlled_live_mode");
    v := Require(v, ev.runtime.ownerCount == 1, "single_execution_owner");
    v := Require(v, ev.runtime.leaseCount == 1, "single_execution_lease");
    v := Require(v, CountersAreZero(ev.counters), "counters_must_be_zero");
    w := ValidateSessionDates(ev.sessions.sessionDates, DateRule(sessions, false, false), o);
    v := v + w;
    v := Require(v, ValidSha256(ev.digests.configSha), "controlled_live_config_sha256");
    v := Require(v, ValidSha256(ev.digests.riskLimitsSha), "risk_limits_sha256");
    v := Require(v, ValidSha256(ev.digests.journalSha), "evidence_journal_sha256");
    v := Require(v, ValidSha256(ev.runtime.capabilitySha), "capability_evidence_sha256");
    v := Require(v, ev.audit.Passed(), "evidence_journal_errors");
    v := RequireCoverage(v, ev, needEntries, carry);
    v := Require(v, !ev.runtime.pilotException, "pilot_evidence_excluded");
    w := ValidateIndependentReview(ev.review, o);
    v := v + w;
    r := Report(v == [], v, sessions);
  }

  // ---------------------------------------------------------------- the cap property

  /** For collector evidence, the envelope check holds exactly when every entry kept its own cap. */
  lemma EnvelopeCheckIffOwnCaps(c: CapEvidence, t: Trace)
    requires CapsDerived(c, t)
    ensures EnvelopeAccepted(c) <==> OwnCapsRespected(c.envelopes)
  {
    hide Qualifies, Earlier;
    var entries: seq<int> :| PairedWith(t, entries, c.envelopes);
    ListedCardinality(t, entries, QualifyingOf(t, EntryCandidate));
    if OwnCapsRespected(c.envelopes) {
      assert CapsComplete(c.envelopes);
    }
  }

  lemma ListedCardinality(t: Trace, q: seq<int>, s: set<int>)
    requires Lists(t, q, s)
    ensures |q| == |s|
  {
    forall a, b | 0 <= a < b < |q| ensures q[a] != q[b] { assert Earlier(t, q[a], q[b]); }
    var p := (i: int) => true;
    PickCounts(q, p);
    PickAll(q, p);
    forall i ensures i in Picked(q, p) <==> i in s {}
    assert Picked(q, p) == s;
  }

  lemma {:induction false} PickAll<T>(s: seq<T>, p: T -> bool)
    requires forall x :: p(x)
    ensures Pick(s, p) == s
  {
    if s != [] { PickAll(s[..|s| - 1], p); }
  }

  /** One supervised session with an active card whose reviewed cap is 100 and an entry without a cap. */
  function UncappedEntryTrace(): Trace {
    var p := EMPTY_PAYLOAD.(sessionDate := Some("2026-01-05"));
    [
      Ev(CapabilityVerified, EMPTY_PAYLOAD.(verified := Yes)),
      Ev(SessionStarted, p.(supervised := Yes, armed := No)),
      Ev(RuntimeActive, p.(reviewedCap := 100.0)),
      Ev(EntryCandidate, p.(notional := 50.0)),
      Ev(SessionEnded, p)
    ]
  }

  /** A capability, a supervised start, a runtime event, an entry and an end. */
  ghost predicate OneSession(t: Trace, d: string) {
    && d != "" && |t| == 5
    && t[0].kind == CapabilityVerified && t[0].payload.verified == Yes && t[0].payload.sessionDate == None
    && (forall i :: 1 <= i < |t| ==> t[i].payload.sessionDate == Some(d))
    && t[1].kind == SessionStarted && t[1].payload.supervised == Yes && t[1].payload.armed == No
    && t[2].kind == RuntimeActive && t[3].kind == EntryCandidate && t[4].kind == SessionEnded
  }

  lemma OneSessionQualifies(t: Trace, d: string)
    requires OneSession(t, d)
    ensures QualifyingOf(t, EntryCandidate) == {3} && QualifyingOf(t, RuntimeActive) == {2}
  {
    assert Positions(t, d, SessionStarted) == {1} && Positions(t, d, SessionEnded) == {4};
    assert ClosedSession(t, d, 1, 4);
    hide ClosedSession, Positions;
    assert forall i :: 1 <= i < |t| ==> Qualifies(t, i);
  }

  lemma {:induction false} AdmissibleThroughout(t: Trace, n: nat)
    requires n <= |t| && forall k :: 0 <= k < n ==> Admissible(t[..k], t[k])
    ensures Reachable(t[..n])
  {
    if n > 0 {
      hide Admissible;
      AdmissibleThroughout(t, n - 1);
      assert t[..n][..n - 1] == t[..n - 1];
    }
  }

  lemma OpenAfterStart(t: Trace, d: string, n: nat)
    requires OneSession(t, d) && 2 <= n < 5
    ensures Admissible(t[..n], t[n])
  {
    assert Positions(t[..n], d, SessionStarted) == {1} && Positions(t[..n], d, SessionEnded) == {};
  }

  lemma OneSessionIsReachable(t: Trace, d: string)
    requires OneSession(t, d)
    ensures Reachable(t)
  {
    forall n | 0 <= n < 5 ensures Admissible(t[..n], t[n]) {
      if n == 1 { assert t[..1][0] == t[0]; }
      if n > 1 { OpenAfterStart(t, d, n); }
    }
    AdmissibleThroughout(t, 5);
    assert t[..5] == t;
  }

  /**
   The collector's own flag is weaker: where one entry lacks a cap it compares with the
   smallest reviewed session cap instead, so the flag can be true for an entry without a cap.
   */
  lemma FallbackFlagIsWeaker(c: CapEvidence, t: Trace)
    requires t == UncappedEntryTrace() && c == CapEvidence(100.0, 50.0, [(50.0, 0.0)], true, 1)
    ensures Reachable(t) && CapsDerived(c, t) && c.everyBuyBelowCap && !EnvelopeAccepted(c)
  {
    UncappedIsOneSession();
    hide UncappedEntryTrace;
    OneSessionIsReachable(t, "2026-01-05");
    UncappedCaps(c, t, "2026-01-05");
    hide CapsDerived, Reachable;
    assert c.envelopes[0].1 == 0.0;
  }

  lemma UncappedIsOneSession()
    ensures var t := UncappedEntryTrace();
      && OneSession(t, "2026-01-05")
      && t[2].payload.reviewedCap == 100.0 && t[3].payload.notional == 50.0 && t[3].payload.entryCap == 0.0
  {
  }

  lemma UncappedCaps(c: CapEvidence, t: Trace, d: string)
    requires OneSession(t, d)
    requires t[2].payload.reviewedCap == 100.0 && t[3].payload.notional == 50.0 && t[3].payload.entryCap == 0.0
    requires c == CapEvidence(100.0, 50.0, [(50.0, 0.0)], true, 1)
    ensures CapsDerived(c, t)
  {
    OneSessionQualifies(t, d);
    hide QualifyingOf, OneSession;
    assert Lists(t, [3], QualifyingOf(t, EntryCandidate));
    assert PairedWith(t, [3], c.envelopes);
    assert c.envelopes[0].1 == 0.0 && c.envelopes[0].0 == 50.0;
    assert Notionals(c.envelopes) == [50.0];
    assert FallbackCap(t, 100.0) by { assert 2 in QualifyingOf(t, RuntimeActive); }
  }

  /** Its exact strength: every entry keeps its own cap if and only if the flag is true and every entry has a cap. */
  lemma OwnCapsIffFlagAndCaps(c: CapEvidence, t: Trace)
    requires CapsDerived(c, t)
    ensures OwnCapsRespected(c.envelopes) <==> c.everyBuyBelowCap && CapsComplete(c.envelopes)
  {
    hide EnvelopesOf, FallbackCap, IsMin, IsMax;
    if OwnCapsRespected(c.envelopes) { assert CapsComplete(c.envelopes); }
  }

  // ---------------------------------------------------------------- repeated mutations

  /** No repetition among the dispatched mutations means every identity is present and used once. */
  lemma NoRepetition(t: Trace)
    requires Repeated(t) == 0
    ensures forall i :: i in Dispatched(t) ==> t[i].payload.clientOrderId != ""
    ensures forall i, j :: i in Dispatched(t) && j in Dispatched(t) && i != j ==>
      (t[i].payload.commandType, t[i].payload.clientOrderId) != (t[j].payload.commandType, t[j].payload.clientOrderId)
  {
    var f := (i: int) => IdentityAt(t, i);
    hide Qualifies;
    IdentitiesAreImages(t, t, f);
    forall i | i in Dispatched(t) ensures f(i).Some? {
      if f(i).None? { FewerImages(Dispatched(t), f, i, i); }
    }
    forall i, j | i in Dispatched(t) && j in Dispatched(t) && i != j ensures f(i) != f(j) {
      if f(i) == f(j) { FewerImages(Dispatched(t), f, i, j); }
    }
  }

  /** A blank or a shared image leaves fewer images than elements. */
  lemma FewerImages<T>(s: set<T>, f: T -> Option<(Command, string)>, x: T, y: T)
    requires x in s && y in s && (f(x).None? || (x != y && f(x) == f(y)))
    ensures |Images(s, f)| < |s|
  {
    var rest := s - {x};
    DistinctGrowsSlower({}, rest, f);
    assert Images({}, f) == {};
    assert |rest| == |s| - 1;
    if f(x).Some? { assert y in rest; }
    assert Images(s, f) == Images(rest, f);
  }

  lemma RepeatedIsNatural(t: Trace)
    ensures 0 <= Repeated(t)
  {
    var f := (i: int) => IdentityAt(t, i);
    hide Qualifies;
    IdentitiesAreImages(t, t, f);
    DistinctGrowsSlower({}, Dispatched(t), f);
    assert Images({}, f) == {};
  }

  lemma WindowQualifies(t: Trace, d: string, s: int, e: int, k: Kind, i: int)
    requires ClosedSession(t, d, s, e) && InWindow(t, d, s, e, k, i)
    ensures i in QualifyingOf(t, k)
  {
    hide ClosedSession;
    assert Qualifies(t, i);
  }

  // ---------------------------------------------------------------- bad evidence

  /** Once a reachable trace has bad evidence in it, no extension is ever accepted. */
  ghost predicate Spoiled(t: Trace) {
    || Repeated(t) > 0 || Retries(t) != {} || DuplicatesOrUnowned(t) != {}
    || UnresolvedAmbiguous(t) != {} || Mismatches(t) != {}
    || exists c :: !AllSessions(t, c)
  }

  lemma SpoiledNeverPasses(t: Trace, more: Trace, later: Evidence, up: Upstream, delta: Delta, o: Outside)
    requires Reachable(t + more) && Spoiled(t) && DerivedFrom(later, t + more)
    ensures !Accepts(later, up, delta, o)
  {
    hide SessionDatesAccepted, UpstreamAccepted, ValidSha256, ReviewApproved, EnvelopeAccepted, Reachable, AllSessions,
         SymbolsAccepted, SessionsDerived, CountersDerived, CapsDerived, OutcomesDerived, RuntimeDerived, DeltaAccepted,
         Repeated, Retries, DuplicatesOrUnowned, UnresolvedAmbiguous, Mismatches, CarriesCoverage, RequiredSessions;
    if c :| !AllSessions(t, c) {
      ConditionStaysFalse(t, more, c);
      BrokenConditionFails(later, t + more, c, NeedsEntryCoverage(later, delta));
    } else {
      BadCountersStay(t, more, later.counters);
    }
  }

  lemma BadCountersStay(t: Trace, more: Trace, later: CounterEvidence)
    requires Reachable(t + more) && CountersDerived(later, t + more)
    requires Repeated(t) > 0 || Retries(t) != {} || DuplicatesOrUnowned(t) != {}
      || UnresolvedAmbiguous(t) != {} || Mismatches(t) != {}
    ensures !CountersAreZero(later)
  {
    hide Reachable, Repeated, Retries, DuplicatesOrUnowned, UnresolvedAmbiguous, Mismatches;
    RepeatedNeverDecreases(t, more);
    var now := CounterEvidence(
      Repeated(t) + |Retries(t)|, Repeated(t) + |DuplicatesOrUnowned(t)|, |UnresolvedAmbiguous(t)|, |Mismatches(t)|);
    CountersNeverDecrease(t, more, now, later);
    assert |Retries(t)| > 0 || |DuplicatesOrUnowned(t)| > 0 || |UnresolvedAmbiguous(t)| > 0 || |Mismatches(t)| > 0
      || Repeated(t) > 0;
  }

  lemma BrokenConditionFails(ev: Evidence, t: Trace, c: Condition, needEntries: bool)
    requires DerivedFrom(ev, t) && !AllSessions(t, c)
    requires !needEntries ==> ev.caps.entryCount == 0
    ensures !FlagsAccepted(ev, needEntries)
  {
    hide CountersDerived, OutcomesDerived, RuntimeDerived, IsMin, IsMax, FallbackCap, EnvelopesOf;
    if c == EntriesArmed && !needEntries {
      BrokenEntriesExist(t);
    }
    hide AllSessions, QualifyingOf, Mismatches, CapsDerived;
  }

  /** An entry before the arm of its session is an entry. */
  lemma BrokenEntriesExist(t: Trace)
    requires !AllSessions(t, EntriesArmed)
    ensures QualifyingOf(t, EntryCandidate) != {}
  {
    var d, s, e :| ClosedSession(t, d, s, e) && !Meets(t, d, s, e, EntriesArmed);
    var x :| InWindow(t, d, s, e, EntryCandidate, x) && !exists m :: InWindow(t, d, s, e, ManualArm, m) && m < x;
    WindowQualifies(t, d, s, e, EntryCandidate, x);
  }

  lemma ConditionStaysFalse(t: Trace, more: Trace, c: Condition)
    requires Reachable(t + more) && !AllSessions(t, c)
    ensures !AllSessions(t + more, c)
  {
    var d, s, e :| ClosedSession(t, d, s, e) && !Meets(t, d, s, e, c);
    SessionVerdictStays(t, more, d, s, e, c);
  }
}
