/**
 The Gate-4 verdict from end to end (gate4/collector.py, gate4/reporting.py): which journal
 traces and which files a PASSED report accepts, in the fields of their events and records.
 */
module Gate4Verdict {
  import opened Common
  import opened Ordering
  import opened Text
  import opened Gate4Events
  import opened Gate4Collector
  import opened Gate4Evidence
  import opened EvidenceRules
  import opened DeltaManifest
  import opened Gate4Report
  import Requalification

  // ---------------------------------------------------------------- sessions

  /** Events s and e are the only start and the only end of their date, and the start was supervised. */
  ghost predicate Session(t: Trace, d: string, s: int, e: int) {
    && d != "" && 0 <= s < e < |t|
    && t[s].kind == SessionStarted && t[s].payload.sessionDate == Some(d) && t[s].payload.supervised == Yes
    && t[e].kind == SessionEnded && t[e].payload.sessionDate == Some(d)
    && forall i :: 0 <= i < |t| && t[i].payload.sessionDate == Some(d) ==>
         (t[i].kind == SessionStarted ==> i == s) && (t[i].kind == SessionEnded ==> i == e)
  }

  /** An event of this kind and date between the start and the end of a session. */
  ghost predicate During(t: Trace, d: string, s: int, e: int, k: Kind, i: int) {
    s <= i <= e && 0 <= i < |t| && t[i].kind == k && t[i].payload.sessionDate == Some(d)
  }

  /** An event of this kind in some closed supervised session. */
  ghost predicate Happened(t: Trace, k: Kind, i: int)
    ensures Happened(t, k, i) ==> 0 <= i < |t| && t[i].kind == k && t[i].payload.sessionDate.Some?
  {
    && 0 <= i < |t| && t[i].kind == k && t[i].payload.sessionDate.Some?
    && exists s, e :: Session(t, t[i].payload.sessionDate.value, s, e) && s <= i <= e
  }

  lemma SessionIff(t: Trace, d: string, s: int, e: int)
    ensures Session(t, d, s, e) <==> ClosedSession(t, d, s, e)
  {
    if ClosedSession(t, d, s, e) {
      assert s in Positions(t, d, SessionStarted) && e in Positions(t, d, SessionEnded);
      forall i | 0 <= i < |t| && t[i].payload.sessionDate == Some(d)
        ensures (t[i].kind == SessionStarted ==> i == s) && (t[i].kind == SessionEnded ==> i == e)
      {
        assert t[i].kind == SessionStarted ==> i in Positions(t, d, SessionStarted);
        assert t[i].kind == SessionEnded ==> i in Positions(t, d, SessionEnded);
      }
    }
    if Session(t, d, s, e) {
      assert Positions(t, d, SessionStarted) == {s} && Positions(t, d, SessionEnded) == {e};
    }
  }

  lemma HappenedIff(t: Trace, k: Kind, i: int)
    ensures Happened(t, k, i) <==> i in QualifyingOf(t, k)
  {
    forall d, s, e ensures Session(t, d, s, e) <==> ClosedSession(t, d, s, e) { SessionIff(t, d, s, e); }
    hide Session, ClosedSession;
  }

  lemma DuringIff(t: Trace, d: string, s: int, e: int)
    ensures forall k, i :: During(t, d, s, e, k, i) <==> InWindow(t, d, s, e, k, i)
  {
  }

  /** The first manual arm of the session is made in the user interface, after the runtime was active. */
  ghost predicate ArmedInUi(t: Trace, d: string, s: int, e: int) {
    exists a, m ::
      && During(t, d, s, e, RuntimeActive, a) && During(t, d, s, e, ManualArm, m) && a < m
      && t[m].payload.source == ManualUi
      && forall x :: During(t, d, s, e, ManualArm, x) ==> m <= x
  }

  ghost predicate LifecyclesAgree(t: Trace, d: string, s: int, e: int) {
    && (exists c :: During(t, d, s, e, LifecycleComparison, c))
    && (forall c :: During(t, d, s, e, LifecycleComparison, c) ==> t[c].payload.agrees == Yes)
  }

  /** The last final reconciliation matches the broker, and the clean end follows it. */
  ghost predicate ReconciledLast(t: Trace, d: string, s: int, e: int) {
    && 0 <= e < |t| && t[e].payload.cleanShutdown == Yes
    && exists r ::
         && During(t, d, s, e, FinalReconciliation, r) && r < e && t[r].payload.matchesBroker == Yes
         && forall x :: During(t, d, s, e, FinalReconciliation, x) ==> x <= r
  }

  /** Every closed session started disarmed, was armed by hand, agrees and reconciles; and there is one. */
  ghost predicate SessionsKept(t: Trace) {
    && (exists d, s, e :: Session(t, d, s, e))
    && forall d, s, e :: Session(t, d, s, e) ==>
         && t[s].payload.armed == No
         && ArmedInUi(t, d, s, e) && LifecyclesAgree(t, d, s, e) && ReconciledLast(t, d, s, e)
  }

  lemma ArmedIff(t: Trace, d: string, s: int, e: int)
    ensures ArmedInUi(t, d, s, e) <==> ArmedAfterActive(t, d, s, e)
  {
    DuringIff(t, d, s, e);
    hide InWindow;
    if ArmedAfterActive(t, d, s, e) {
      var a, m :| && InWindow(t, d, s, e, RuntimeActive, a) && InWindow(t, d, s, e, ManualArm, m) && a < m
        && (forall x :: InWindow(t, d, s, e, ManualArm, x) ==> m <= x) && t[m].payload.source == ManualUi;
      assert During(t, d, s, e, RuntimeActive, a) && During(t, d, s, e, ManualArm, m);
    }
  }

  lemma AgreeIff(t: Trace, d: string, s: int, e: int)
    ensures LifecyclesAgree(t, d, s, e) <==> LifecycleAgrees(t, d, s, e)
  {
    DuringIff(t, d, s, e);
    hide InWindow;
    if c :| InWindow(t, d, s, e, LifecycleComparison, c) { assert During(t, d, s, e, LifecycleComparison, c); }
  }

  lemma ReconciledIff(t: Trace, d: string, s: int, e: int)
    ensures ReconciledLast(t, d, s, e) <==> Reconciled(t, d, s, e)
  {
    DuringIff(t, d, s, e);
    hide InWindow;
    if Reconciled(t, d, s, e) {
      var r :| && InWindow(t, d, s, e, FinalReconciliation, r)
        && (forall x :: InWindow(t, d, s, e, FinalReconciliation, x) ==> x <= r)
        && t[r].payload.matchesBroker == Yes && r < e;
      assert During(t, d, s, e, FinalReconciliation, r);
    }
  }

  /** The session flags of the evidence, without the one about entries. */
  predicate SessionFlags(ev: SessionEvidence) {
    ev.sessionStartedDisarmed && ev.manualArmAfterActive && ev.lifecycleAgrees && ev.finalReconciliationMatches
  }

  lemma MeetsIff(t: Trace, d: string, s: int, e: int)
    requires Session(t, d, s, e)
    ensures Meets(t, d, s, e, StartDisarmed) <==> t[s].payload.armed == No
    ensures Meets(t, d, s, e, ArmAfterActive) <==> ArmedInUi(t, d, s, e)
    ensures Meets(t, d, s, e, Lifecycle) <==> LifecyclesAgree(t, d, s, e)
    ensures Meets(t, d, s, e, Reconciliation) <==> ReconciledLast(t, d, s, e)
  {
    ArmedIff(t, d, s, e);
    AgreeIff(t, d, s, e);
    ReconciledIff(t, d, s, e);
    hide ArmedInUi, LifecyclesAgree, ReconciledLast, ArmedAfterActive, LifecycleAgrees, Reconciled;
  }

  lemma SessionFlagsIff(ev: SessionEvidence, t: Trace)
    requires SessionsDerived(ev, t)
    ensures SessionFlags(ev) <==> SessionsKept(t)
  {
    hide Session, AllSessions, ArmedInUi, LifecyclesAgree, ReconciledLast, StrictlySorted, QualifyingOf, Mismatches,
         Closed;
    SomeDate(ev.sessionDates, t);
    AllKeptIff(t);
    if AllSessions(t, Lifecycle) {
      ComparisonsAgree(t);
      if ev.sessionDates != [] { assert ev.sessionDates[0] in ev.sessionDates && Closed(t, ev.sessionDates[0]); }
    }
  }

  lemma AllKeptIff(t: Trace)
    ensures (forall d, s, e :: Session(t, d, s, e) ==>
               && t[s].payload.armed == No
               && ArmedInUi(t, d, s, e) && LifecyclesAgree(t, d, s, e) && ReconciledLast(t, d, s, e))
            <==>
            && AllSessions(t, StartDisarmed) && AllSessions(t, ArmAfterActive)
            && AllSessions(t, Lifecycle) && AllSessions(t, Reconciliation)
  {
    forall d, s, e
      ensures Session(t, d, s, e) <==> ClosedSession(t, d, s, e)
      ensures Session(t, d, s, e) ==>
        && (Meets(t, d, s, e, StartDisarmed) <==> t[s].payload.armed == No)
        && (Meets(t, d, s, e, ArmAfterActive) <==> ArmedInUi(t, d, s, e))
        && (Meets(t, d, s, e, Lifecycle) <==> LifecyclesAgree(t, d, s, e))
        && (Meets(t, d, s, e, Reconciliation) <==> ReconciledLast(t, d, s, e))
    {
      SessionIff(t, d, s, e);
      if Session(t, d, s, e) { MeetsIff(t, d, s, e); }
    }
    hide ClosedSession, ArmedInUi, LifecyclesAgree, ReconciledLast, Meets;
  }

  lemma SomeDate(dates: seq<string>, t: Trace)
    requires forall d :: d in dates <==> Closed(t, d)
    ensures dates != [] <==> exists d, s, e :: Session(t, d, s, e)
  {
    forall d, s, e ensures Session(t, d, s, e) <==> ClosedSession(t, d, s, e) { SessionIff(t, d, s, e); }
    hide Session, ClosedSession;
    if dates != [] {
      var d := dates[0];
      assert d in dates;
      var s, e :| ClosedSession(t, d, s, e);
      assert Session(t, d, s, e);
    }
    if d, s, e :| Session(t, d, s, e) { assert ClosedSession(t, d, s, e) && Closed(t, d); }
  }

  /** Where every session compares its lifecycle and agrees, there is a comparison and no mismatch. */
  lemma ComparisonsAgree(t: Trace)
    requires AllSessions(t, Lifecycle)
    ensures Mismatches(t) == {}
    ensures (exists d :: Closed(t, d)) ==> QualifyingOf(t, LifecycleComparison) != {}
  {
    if d, s, e :| ClosedSession(t, d, s, e) {
      assert Meets(t, d, s, e, Lifecycle);
      var c :| InWindow(t, d, s, e, LifecycleComparison, c);
      WindowQualifies(t, d, s, e, LifecycleComparison, c);
    }
    forall i | 0 <= i < |t| && Qualifies(t, i) ensures !IsMismatch(t, i) {
      var d := t[i].payload.sessionDate.value;
      var s, e :| ClosedSession(t, d, s, e) && s <= i <= e;
      assert Meets(t, d, s, e, Lifecycle);
      assert t[i].kind == LifecycleComparison ==> InWindow(t, d, s, e, LifecycleComparison, i);
    }
  }

  // ---------------------------------------------------------------- mutations

  /**
   Every dispatched mutation names its order, is owned, is neither a duplicate nor an automatic
   retry, and no other one has the same command and order id.
   */
  ghost predicate MutationsKept(t: Trace) {
    && (forall i :: Happened(t, MutationDispatched, i) ==>
          && t[i].payload.clientOrderId != "" && t[i].payload.owned == Yes
          && t[i].payload.duplicate != Yes && t[i].payload.automaticRetry != Yes)
    && (forall i, j :: Happened(t, MutationDispatched, i) && Happened(t, MutationDispatched, j) && i != j ==>
          || t[i].payload.clientOrderId != t[j].payload.clientOrderId
          || t[i].payload.commandType != t[j].payload.commandType)
    && (forall i :: Happened(t, MutationTerminal, i) && t[i].payload.identityAmbiguous == Yes ==>
          t[i].payload.resolved == Yes)
  }

  lemma CountersIff(ev: CounterEvidence, t: Trace)
    requires CountersDerived(ev, t) && AllSessions(t, Lifecycle)
    ensures CountersAreZero(ev) <==> MutationsKept(t)
  {
    RepeatedIsNatural(t);
    ComparisonsAgree(t);
    DispatchedKept(t);
    AmbiguousKept(t);
    if CountersAreZero(ev) { ZeroMeansKept(t); }
    hide Happened, Qualifies, QualifyingOf, AllSessions;
    if MutationsKept(t) {
      EachOnce(t);
      NoneBad(t);
    }
  }

  lemma ZeroMeansKept(t: Trace)
    requires Repeated(t) == 0 && Retries(t) == {} && DuplicatesOrUnowned(t) == {} && UnresolvedAmbiguous(t) == {}
    ensures MutationsKept(t)
  {
    NoRepetition(t);
    DispatchedKept(t);
    AmbiguousKept(t);
    hide Happened, Qualifies;
    forall i | i in Dispatched(t)
      ensures t[i].payload.owned == Yes && t[i].payload.duplicate != Yes && t[i].payload.automaticRetry != Yes
    {
      assert i !in Retries(t) && i !in DuplicatesOrUnowned(t);
    }
  }

  lemma DispatchedKept(t: Trace)
    ensures forall i :: i in Dispatched(t) <==> Happened(t, MutationDispatched, i)
  {
    forall i ensures i in Dispatched(t) <==> Happened(t, MutationDispatched, i) {
      HappenedIff(t, MutationDispatched, i);
    }
  }

  lemma AmbiguousKept(t: Trace)
    ensures UnresolvedAmbiguous(t) == {} <==>
      forall i :: Happened(t, MutationTerminal, i) && t[i].payload.identityAmbiguous == Yes ==>
        t[i].payload.resolved == Yes
  {
    forall i ensures Happened(t, MutationTerminal, i) <==> i in QualifyingOf(t, MutationTerminal) {
      HappenedIff(t, MutationTerminal, i);
    }
    hide Happened, Qualifies;
    if UnresolvedAmbiguous(t) == {} {
      forall i | Happened(t, MutationTerminal, i) && t[i].payload.identityAmbiguous == Yes
        ensures t[i].payload.resolved == Yes
      {
        assert i !in UnresolvedAmbiguous(t);
      }
    }
  }

  lemma NoneBad(t: Trace)
    requires MutationsKept(t)
    ensures Retries(t) == {} && DuplicatesOrUnowned(t) == {}
  {
    DispatchedKept(t);
    hide Happened, Qualifies;
    forall i | 0 <= i < |t| && Qualifies(t, i) ensures !IsRetry(t, i) && !IsDuplicateOrUnowned(t, i) {
      if t[i].kind == MutationDispatched { assert i in Dispatched(t); }
    }
  }

  lemma EachOnce(t: Trace)
    requires MutationsKept(t)
    ensures Repeated(t) == 0
  {
    var f := (i: int) => IdentityAt(t, i);
    DispatchedKept(t);
    hide Happened, Qualifies;
    IdentitiesAreImages(t, t, f);
    ImagesOfDistinct(Dispatched(t), f);
  }

  lemma {:induction false} ImagesOfDistinct<T>(s: set<T>, f: T -> Option<(Command, string)>)
    requires forall x :: x in s ==> f(x).Some?
    requires forall x, y :: x in s && y in s && x != y ==> f(x) != f(y)
    ensures |Images(s, f)| == |s|
    decreases |s|
  {
    if x :| x in s {
      ImagesOfDistinct(s - {x}, f);
      assert Images(s, f) == Images(s - {x}, f) + {f(x).value};
      assert f(x).value !in Images(s - {x}, f);
    } else {
      assert Images(s, f) == {};
    }
  }

  // ---------------------------------------------------------------- entries

  /** The manual arm of the entry's own session comes before it. */
  ghost predicate ArmedBefore(t: Trace, i: int)
    requires 0 <= i < |t| && t[i].payload.sessionDate.Some?
  {
    exists m :: 0 <= m < i && Happened(t, ManualArm, m) && t[m].payload.sessionDate == t[i].payload.sessionDate
  }

  ghost predicate SomeEntry(t: Trace) { exists i :: Happened(t, EntryCandidate, i) }

  ghost predicate SomeNamedEntry(t: Trace) {
    exists i :: Happened(t, EntryCandidate, i) && t[i].payload.symbol != ""
  }

  /** Every entry is worth something, and no more than its own cap. */
  ghost predicate EntriesCapped(t: Trace) {
    forall i :: Happened(t, EntryCandidate, i) ==> 0.0 < t[i].payload.notional <= t[i].payload.entryCap
  }

  /** Every entry has an active trade card and follows the manual arm of its session. */
  ghost predicate EntriesArmedWithCard(t: Trace) {
    forall i :: Happened(t, EntryCandidate, i) ==> t[i].payload.activeTradeCard == Yes && ArmedBefore(t, i)
  }

  ghost predicate EntriesRechecked(t: Trace) {
    forall i :: Happened(t, EntryCandidate, i) ==> t[i].payload.riskRechecked == Yes
  }

  /** Every symbol an entry names was approved when some runtime became active. */
  ghost predicate EntriesApproved(t: Trace) {
    forall i :: Happened(t, EntryCandidate, i) && t[i].payload.symbol != "" ==>
      exists a :: Happened(t, RuntimeActive, a) && t[i].payload.symbol in t[a].payload.approvedSymbols
  }

  /** The entries are kept, and one of them names its symbol; no entry at all is enough where coverage is carried. */
  ghost predicate EntriesKept(t: Trace, carried: bool) {
    && EntriesCapped(t) && EntriesArmedWithCard(t) && EntriesRechecked(t) && EntriesApproved(t)
    && (SomeNamedEntry(t) || (carried && !SomeEntry(t)))
  }

  lemma EntriesListed(t: Trace)
    ensures forall i :: i in QualifyingOf(t, EntryCandidate) <==> Happened(t, EntryCandidate, i)
  {
    forall i ensures i in QualifyingOf(t, EntryCandidate) <==> Happened(t, EntryCandidate, i) {
      HappenedIff(t, EntryCandidate, i);
    }
  }

  lemma ActiveListed(t: Trace)
    ensures forall i :: i in QualifyingOf(t, RuntimeActive) <==> Happened(t, RuntimeActive, i)
  {
    forall i ensures i in QualifyingOf(t, RuntimeActive) <==> Happened(t, RuntimeActive, i) {
      HappenedIff(t, RuntimeActive, i);
    }
  }

  lemma CapsIff(c: CapEvidence, t: Trace)
    requires CapsDerived(c, t)
    ensures OwnCapsRespected(c.envelopes) <==> SomeEntry(t) && EntriesCapped(t)
    ensures c.entryCount == 0 <==> !SomeEntry(t)
  {
    EntriesListed(t);
    hide Happened, Qualifies, Earlier, FallbackCap, IsMin, IsMax;
    var entries: seq<int> :| PairedWith(t, entries, c.envelopes);
    EntryList(t, entries);
    EnvelopesIff(t, entries, c.envelopes);
    hide Lists, QualifyingOf, EntriesCapped, SomeEntry, OwnCapsRespected, EnvelopeOf, PairedWith;
    if c.entryCount == 0 { EmptyList(t, entries); }
  }

  lemma EntryList(t: Trace, entries: seq<int>)
    requires Lists(t, entries, QualifyingOf(t, EntryCandidate))
    ensures forall i :: i in entries <==> Happened(t, EntryCandidate, i)
    ensures SomeEntry(t) <==> entries != []
    ensures QualifyingOf(t, EntryCandidate) == {} <==> entries == []
  {
    EntriesListed(t);
    hide Happened, Qualifies, Earlier;
    var q := QualifyingOf(t, EntryCandidate);
    if entries != [] {
      assert entries[0] in entries && entries[0] in q;
      assert Happened(t, EntryCandidate, entries[0]);
    } else {
      assert forall i :: i !in q;
      assert q == {};
    }
  }

  lemma EmptyList(t: Trace, entries: seq<int>)
    requires Lists(t, entries, QualifyingOf(t, EntryCandidate)) && |QualifyingOf(t, EntryCandidate)| == 0
    ensures entries == []
  {
    EntryList(t, entries);
  }

  lemma EnvelopesIff(t: Trace, entries: seq<int>, envelopes: seq<(real, real)>)
    requires forall i :: i in entries <==> Happened(t, EntryCandidate, i)
    requires |envelopes| == |entries| && forall j :: 0 <= j < |entries| ==> EnvelopeOf(t, entries[j], envelopes[j])
    ensures OwnCapsRespected(envelopes) <==> entries != [] && EntriesCapped(t)
  {
    hide Happened;
    assert forall j :: 0 <= j < |entries| ==> entries[j] in entries;
  }

  /** An entry is in the window of its own session, so its arm is one of that session. */
  lemma ArmedBeforeIff(t: Trace)
    ensures AllSessions(t, EntriesArmed) <==> forall i :: Happened(t, EntryCandidate, i) ==> ArmedBefore(t, i)
  {
    if AllSessions(t, EntriesArmed) {
      forall i | Happened(t, EntryCandidate, i) ensures ArmedBefore(t, i) { ArmOfEntry(t, i); }
    }
    if forall i :: Happened(t, EntryCandidate, i) ==> ArmedBefore(t, i) {
      forall d, s, e | ClosedSession(t, d, s, e) ensures Meets(t, d, s, e, EntriesArmed) {
        forall i | InWindow(t, d, s, e, EntryCandidate, i)
          ensures exists m :: InWindow(t, d, s, e, ManualArm, m) && m < i
        {
          EntryOfArm(t, d, s, e, i);
        }
      }
    }
  }

  lemma ArmOfEntry(t: Trace, i: int)
    requires AllSessions(t, EntriesArmed) && Happened(t, EntryCandidate, i)
    ensures ArmedBefore(t, i)
  {
    var d := t[i].payload.sessionDate.value;
    var s, e :| Session(t, d, s, e) && s <= i <= e;
    SessionIff(t, d, s, e);
    hide ClosedSession;
    assert Meets(t, d, s, e, EntriesArmed) && InWindow(t, d, s, e, EntryCandidate, i);
    var m :| InWindow(t, d, s, e, ManualArm, m) && m < i;
    assert Happened(t, ManualArm, m);
  }

  lemma EntryOfArm(t: Trace, d: string, s: int, e: int, i: int)
    requires ClosedSession(t, d, s, e) && InWindow(t, d, s, e, EntryCandidate, i)
    requires Happened(t, EntryCandidate, i) ==> ArmedBefore(t, i)
    ensures exists m :: InWindow(t, d, s, e, ManualArm, m) && m < i
  {
    SessionIff(t, d, s, e);
    hide ClosedSession;
    assert Happened(t, EntryCandidate, i);
    var m :| 0 <= m < i && Happened(t, ManualArm, m) && t[m].payload.sessionDate == t[i].payload.sessionDate;
    var s', e' :| Session(t, d, s', e') && s' <= m <= e';
    assert s' == s && e' == e;
    assert InWindow(t, d, s, e, ManualArm, m);
  }

  lemma CardsIff(ev: SessionEvidence, t: Trace)
    requires SessionsDerived(ev, t)
    ensures ev.everyEntryHasActiveCard <==> SomeEntry(t) && EntriesArmedWithCard(t)
  {
    EntriesListed(t);
    ArmedBeforeIff(t);
    hide Happened, ArmedBefore, AllSessions, Qualifies, Mismatches, Closed, StrictlySorted;
  }

  lemma RiskIff(o: OutcomeEvidence, t: Trace)
    requires OutcomesDerived(o, t)
    ensures o.riskRechecked <==> SomeEntry(t) && EntriesRechecked(t)
  {
    EntriesListed(t);
    hide Happened, Qualifies, EntryOutcome, CancelLifecycle, ProtectedAfterEntry, ProbeAfterDisarm;
  }

  lemma SymbolsIff(r: RuntimeEvidence, dates: seq<string>, t: Trace)
    requires RuntimeDerived(r, dates, t)
    ensures SymbolsAccepted(r) <==> SomeNamedEntry(t) && EntriesApproved(t)
  {
    EntriesListed(t);
    ActiveListed(t);
    hide Happened, Qualifies, QualifyingOf, LastCapability;
    if SymbolsAccepted(r) {
      forall i | Happened(t, EntryCandidate, i) && t[i].payload.symbol != ""
        ensures exists a :: Happened(t, RuntimeActive, a) && t[i].payload.symbol in t[a].payload.approvedSymbols
      {
        assert t[i].payload.symbol in r.observedSymbols;
        assert t[i].payload.symbol in r.approvedSymbols;
      }
      var x :| x in r.observedSymbols;
    }
    if SomeNamedEntry(t) && EntriesApproved(t) {
      var i :| Happened(t, EntryCandidate, i) && t[i].payload.symbol != "";
      assert t[i].payload.symbol in r.observedSymbols;
      forall x | x in r.observedSymbols ensures x in r.approvedSymbols {
        var j :| Happened(t, EntryCandidate, j) && t[j].payload.symbol == x;
        var a :| Happened(t, RuntimeActive, a) && x in t[a].payload.approvedSymbols;
      }
    }
  }

  lemma NothingWithoutEntries(t: Trace)
    ensures !SomeEntry(t) ==>
      && EntriesCapped(t) && EntriesArmedWithCard(t) && EntriesRechecked(t) && EntriesApproved(t)
    ensures SomeNamedEntry(t) ==> SomeEntry(t)
  {
    hide Happened, ArmedBefore;
  }

  lemma EntriesIff(ev: Evidence, t: Trace, carried: bool)
    requires DerivedFrom(ev, t)
    ensures EntriesKept(t, carried) <==>
      (carried && ev.caps.entryCount == 0)
      || (&& ev.sessions.everyEntryHasActiveCard && ev.caps.everyBuyBelowCap && ev.outcomes.riskRechecked
          && EnvelopeAccepted(ev.caps) && SymbolsAccepted(ev.runtime))
  {
    EnvelopeCheckIffOwnCaps(ev.caps, t);
    OwnCapsIffFlagAndCaps(ev.caps, t);
    CapsIff(ev.caps, t);
    CardsIff(ev.sessions, t);
    RiskIff(ev.outcomes, t);
    SymbolsIff(ev.runtime, ev.sessions.sessionDates, t);
    NothingWithoutEntries(t);
    hide SomeEntry, SomeNamedEntry, EntriesCapped, EntriesArmedWithCard, EntriesRechecked, EntriesApproved,
         SessionsDerived, CountersDerived, CapsDerived, OutcomesDerived, RuntimeDerived, EnvelopeAccepted,
         SymbolsAccepted, OwnCapsRespected, CapsComplete;
  }

  // ---------------------------------------------------------------- trades, probe and alert

  /** Earlier by session date, and within one date by position. */
  ghost predicate Before(t: Trace, i: int, j: int) {
    && 0 <= i < |t| && 0 <= j < |t| && t[i].payload.sessionDate.Some? && t[j].payload.sessionDate.Some?
    && (if t[i].payload.sessionDate == t[j].payload.sessionDate then i < j
        else LexLeq(t[i].payload.sessionDate.value, t[j].payload.sessionDate.value))
  }

  /** Event i comes after every dispatch of this command for its order. */
  ghost predicate AfterEvery(t: Trace, c: Command, i: int)
    requires 0 <= i < |t|
  {
    forall l :: Happened(t, MutationDispatched, l) && t[l].payload.commandType == c
                && t[l].payload.clientOrderId == t[i].payload.clientOrderId
      ==> Before(t, l, i)
  }

  /** The broker confirmed at i the end of the strategy entry submitted at m, after every submit of that order. */
  ghost predicate EntryCompleted(t: Trace, i: int, m: int) {
    && Happened(t, MutationTerminal, i) && Happened(t, MutationDispatched, m) && Before(t, m, i)
    && t[i].payload.brokerConfirmed == Yes && t[i].payload.strategyEntry == Yes
    && t[m].payload.commandType == Submit && t[m].payload.strategyEntry == Yes
    && t[i].payload.clientOrderId != "" && t[m].payload.clientOrderId == t[i].payload.clientOrderId
    && AfterEvery(t, Submit, i)
  }

  /** The broker confirmed at i the cancel sent at m, after every cancel of that order. */
  ghost predicate CancelCompleted(t: Trace, i: int, m: int) {
    && Happened(t, MutationTerminal, i) && Happened(t, MutationDispatched, m) && Before(t, m, i)
    && t[i].payload.brokerConfirmed == Yes && t[i].payload.commandType == Cancel
    && t[m].payload.commandType == Cancel
    && t[i].payload.clientOrderId != "" && t[m].payload.clientOrderId == t[i].payload.clientOrderId
    && AfterEvery(t, Cancel, i)
  }

  /** The position that the entry completed at x opened in a symbol was exited or protected at i. */
  ghost predicate PositionSafe(t: Trace, i: int, x: int, m: int) {
    && Happened(t, PositionProtected, i) && t[i].payload.safeExitOrProtected == Yes
    && EntryCompleted(t, x, m) && Before(t, x, i)
    && t[i].payload.symbol != "" && t[x].payload.symbol == t[i].payload.symbol
  }

  ghost predicate TradesKept(t: Trace) {
    && (exists i, m :: EntryCompleted(t, i, m))
    && (exists i, x, m :: PositionSafe(t, i, x, m))
    && (exists i, m :: CancelCompleted(t, i, m))
  }

  /** After a disarm of its date, a probe was blocked before it reached the broker. */
  ghost predicate ProbeBlocked(t: Trace, i: int, x: int) {
    && Happened(t, DisarmProbe, i) && t[i].payload.nextMutationBlocked == Yes && t[i].payload.brokerCalled == No
    && Happened(t, Disarmed, x) && x < i && t[x].payload.sessionDate == t[i].payload.sessionDate
  }

  ghost predicate ProbeKept(t: Trace) { exists i, x :: ProbeBlocked(t, i, x) }

  ghost predicate AlertKept(t: Trace) {
    exists i :: Happened(t, AlertDelivered, i) && t[i].payload.delivered == Yes
  }

  lemma BeforeIff(t: Trace, i: int, j: int)
    requires 0 <= i < |t| && 0 <= j < |t| && t[i].payload.sessionDate.Some? && t[j].payload.sessionDate.Some?
    ensures Before(t, i, j) <==> Earlier(t, i, j)
  {
    hide LexLeq;
  }

  lemma SubmitsOf(t: Trace, c: Command, i: int)
    ensures forall m :: DispatchOf(t, c, if 0 <= i < |t| then t[i].payload.clientOrderId else "", m) <==>
      && Happened(t, MutationDispatched, m) && t[m].payload.commandType == c
      && t[m].payload.clientOrderId == if 0 <= i < |t| then t[i].payload.clientOrderId else ""
  {
    DispatchedKept(t);
    hide Happened, Qualifies;
  }

  lemma ConfirmedIff(t: Trace, c: Command, i: int)
    ensures ConfirmedAfterDispatch(t, c, i) <==>
      && Happened(t, MutationTerminal, i) && t[i].payload.brokerConfirmed == Yes && t[i].payload.clientOrderId != ""
      && AfterEvery(t, c, i)
  {
    HappenedIff(t, MutationTerminal, i);
    if Happened(t, MutationTerminal, i) {
      SubmitsOf(t, c, i);
      hide Qualifies, LexLeq;
      forall l | Happened(t, MutationDispatched, l) ensures Before(t, l, i) <==> Earlier(t, l, i) {
        BeforeIff(t, l, i);
      }
      hide Happened, Earlier, Before;
    }
  }

  lemma EntryOutcomeIff(t: Trace, i: int)
    ensures EntryOutcome(t, i) <==> exists m :: EntryCompleted(t, i, m)
  {
    ConfirmedIff(t, Submit, i);
    SubmitsOf(t, Submit, i);
    hide Happened, Before, ConfirmedAfterDispatch, DispatchOf;
    if EntryOutcome(t, i) {
      var m :| DispatchOf(t, Submit, t[i].payload.clientOrderId, m) && t[m].payload.strategyEntry == Yes;
      assert EntryCompleted(t, i, m);
    }
  }

  lemma CancelLifecycleIff(t: Trace, i: int)
    ensures CancelLifecycle(t, i) <==> exists m :: CancelCompleted(t, i, m)
  {
    ConfirmedIff(t, Cancel, i);
    SubmitsOf(t, Cancel, i);
    hide Happened, Before, ConfirmedAfterDispatch, DispatchOf;
    if CancelLifecycle(t, i) {
      var m :| DispatchOf(t, Cancel, t[i].payload.clientOrderId, m);
      assert CancelCompleted(t, i, m);
    }
  }

  lemma ProtectedIff(t: Trace, i: int)
    ensures ProtectedAfterEntry(t, i) <==> exists x, m :: PositionSafe(t, i, x, m)
  {
    OutcomesAreDated(t);
    hide Happened, Before, Earlier, EntryOutcome, EntryCompleted, Qualifies;
    HappenedIff(t, PositionProtected, i);
    if ProtectedAfterEntry(t, i) {
      var x :| EntryOutcome(t, x) && Earlier(t, x, i) && t[x].payload.symbol == t[i].payload.symbol;
      EntryOutcomeIff(t, x);
      var m :| EntryCompleted(t, x, m);
      CompletedIsDated(t, x, m);
      BeforeIff(t, x, i);
      assert PositionSafe(t, i, x, m);
    }
    if x, m :| PositionSafe(t, i, x, m) {
      EntryOutcomeIff(t, x);
      CompletedIsDated(t, x, m);
      BeforeIff(t, x, i);
    }
  }

  lemma OutcomesAreDated(t: Trace)
    ensures forall x :: EntryOutcome(t, x) ==> 0 <= x < |t| && t[x].payload.sessionDate.Some?
  {
  }

  lemma CompletedIsDated(t: Trace, x: int, m: int)
    requires EntryCompleted(t, x, m)
    ensures 0 <= x < |t| && t[x].payload.sessionDate.Some?
  {
  }

  lemma SomeEntryCompleted(t: Trace)
    ensures (exists i :: EntryOutcome(t, i)) <==> exists i, m :: EntryCompleted(t, i, m)
  {
    hide EntryOutcome, EntryCompleted;
    if i :| EntryOutcome(t, i) {
      EntryOutcomeIff(t, i);
      var m :| EntryCompleted(t, i, m);
    }
    if i, m :| EntryCompleted(t, i, m) { EntryOutcomeIff(t, i); }
  }

  lemma SomeCancelCompleted(t: Trace)
    ensures (exists i :: CancelLifecycle(t, i)) <==> exists i, m :: CancelCompleted(t, i, m)
  {
    hide CancelLifecycle, CancelCompleted;
    if i :| CancelLifecycle(t, i) {
      CancelLifecycleIff(t, i);
      var m :| CancelCompleted(t, i, m);
    }
    if i, m :| CancelCompleted(t, i, m) { CancelLifecycleIff(t, i); }
  }

  lemma SomePositionSafe(t: Trace)
    ensures (exists i :: ProtectedAfterEntry(t, i)) <==> exists i, x, m :: PositionSafe(t, i, x, m)
  {
    hide ProtectedAfterEntry, PositionSafe;
    if i :| ProtectedAfterEntry(t, i) {
      ProtectedIff(t, i);
      var x, m :| PositionSafe(t, i, x, m);
    }
    if i, x, m :| PositionSafe(t, i, x, m) { ProtectedIff(t, i); }
  }

  lemma TradesIff(ev: OutcomeEvidence, t: Trace)
    requires OutcomesDerived(ev, t)
    ensures ev.entryOutcomes >= 1 && ev.protectedPositions >= 1 && ev.cancelLifecycles >= 1 <==> TradesKept(t)
  {
    hide EntryOutcome, EntryCompleted, CancelLifecycle, CancelCompleted, ProtectedAfterEntry, PositionSafe,
         ProbeAfterDisarm, QualifyingOf, AllEntryOutcomes, AllCancelLifecycles, AllProtectedPositions;
    OutcomesInhabited(t);
    SomeEntryCompleted(t);
    SomeCancelCompleted(t);
    SomePositionSafe(t);
  }

  lemma Inhabited<T>(s: set<T>)
    requires |s| >= 1
    ensures exists x :: x in s
  {
  }

  lemma OutcomesInhabited(t: Trace)
    ensures |AllEntryOutcomes(t)| >= 1 <==> exists i :: EntryOutcome(t, i)
    ensures |AllCancelLifecycles(t)| >= 1 <==> exists i :: CancelLifecycle(t, i)
    ensures |AllProtectedPositions(t)| >= 1 <==> exists i :: ProtectedAfterEntry(t, i)
  {
    if i :| EntryOutcome(t, i) { assert i in AllEntryOutcomes(t); }
    if i :| CancelLifecycle(t, i) { assert i in AllCancelLifecycles(t); }
    if i :| ProtectedAfterEntry(t, i) { assert i in AllProtectedPositions(t); }
    hide EntryOutcome, CancelLifecycle, ProtectedAfterEntry;
    if |AllEntryOutcomes(t)| >= 1 { Inhabited(AllEntryOutcomes(t)); }
    if |AllCancelLifecycles(t)| >= 1 { Inhabited(AllCancelLifecycles(t)); }
    if |AllProtectedPositions(t)| >= 1 { Inhabited(AllProtectedPositions(t)); }
  }

  lemma ProbeIff(t: Trace, i: int)
    ensures ProbeAfterDisarm(t, i) <==> exists x :: ProbeBlocked(t, i, x)
  {
    hide Happened, LexLeq, Qualifies;
    HappenedIff(t, DisarmProbe, i);
    forall x ensures Happened(t, Disarmed, x) <==> x in QualifyingOf(t, Disarmed) { HappenedIff(t, Disarmed, x); }
    forall x | Happened(t, Disarmed, x) && Happened(t, DisarmProbe, i)
      ensures Earlier(t, x, i) && DateAt(t, x) == DateAt(t, i) <==>
        x < i && t[x].payload.sessionDate == t[i].payload.sessionDate
    {
      SameDateOrder(t, x, i);
    }
    hide QualifyingOf, Earlier, DateAt;
    if ProbeAfterDisarm(t, i) {
      var x :| x in QualifyingOf(t, Disarmed) && Earlier(t, x, i) && DateAt(t, x) == DateAt(t, i);
      assert ProbeBlocked(t, i, x);
    }
  }

  lemma SameDateOrder(t: Trace, x: int, i: int)
    requires 0 <= x < |t| && 0 <= i < |t| && t[x].payload.sessionDate.Some? && t[i].payload.sessionDate.Some?
    ensures Earlier(t, x, i) && DateAt(t, x) == DateAt(t, i) <==>
      x < i && t[x].payload.sessionDate == t[i].payload.sessionDate
  {
    hide LexLeq;
  }

  lemma SomeProbe(t: Trace)
    ensures (exists i :: ProbeAfterDisarm(t, i)) <==> exists i, x :: ProbeBlocked(t, i, x)
  {
    hide ProbeAfterDisarm, ProbeBlocked;
    if i :| ProbeAfterDisarm(t, i) {
      ProbeIff(t, i);
      var x :| ProbeBlocked(t, i, x);
    }
    if i, x :| ProbeBlocked(t, i, x) { ProbeIff(t, i); }
  }

  lemma ProbeAndAlertIff(ev: OutcomeEvidence, t: Trace)
    requires OutcomesDerived(ev, t)
    ensures ev.disarmProbeBlocked <==> ProbeKept(t)
    ensures ev.alertDelivered <==> AlertKept(t)
  {
    SomeProbe(t);
    forall i ensures Happened(t, AlertDelivered, i) <==> i in QualifyingOf(t, AlertDelivered) {
      HappenedIff(t, AlertDelivered, i);
    }
    hide Happened, EntryOutcome, CancelLifecycle, ProtectedAfterEntry, ProbeAfterDisarm, ProbeBlocked, Qualifies;
  }

  // ---------------------------------------------------------------- runtime and dates

  /** Every runtime that became active had one owner, one lease and the controlled live mode; and there was one. */
  ghost predicate RuntimeKept(t: Trace) {
    && (exists i :: Happened(t, RuntimeActive, i))
    && forall i :: Happened(t, RuntimeActive, i) ==>
         t[i].payload.ownerCount == 1 && t[i].payload.leaseCount == 1 && t[i].payload.liveMode == ControlledLive
  }

  /** The last capability record of the whole trace is verified, and carries this digest. */
  ghost predicate CapabilityKept(t: Trace, sha: string) {
    exists i ::
      && 0 <= i < |t| && t[i].kind == CapabilityVerified
      && (forall j :: i < j < |t| ==> t[j].kind != CapabilityVerified)
      && t[i].payload.verified == Yes && t[i].payload.evidenceSha == sha
  }

  lemma CapabilityIff(ev: RuntimeEvidence, dates: seq<string>, t: Trace)
    requires RuntimeDerived(ev, dates, t)
    ensures ev.capabilitiesVerified <==> CapabilityKept(t, ev.capabilitySha)
  {
    hide QualifyingOf;
  }

  ghost predicate SessionDate(t: Trace, d: string) { exists s, e :: Session(t, d, s, e) }

  /** At least n sessions, all on trading days, whose text order is their order in time. */
  ghost predicate DatesKept(t: Trace, n: int, o: Outside) {
    && (forall d :: SessionDate(t, d) ==> TradingDate(d, o))
    && (forall d, d' :: SessionDate(t, d) && SessionDate(t, d') && d != d' && LexLeq(d, d') ==> InTime(d, d', o))
    && (exists dates: seq<string> ::
          |dates| >= n && Distinct(dates) && forall i :: 0 <= i < |dates| ==> SessionDate(t, dates[i]))
  }

  lemma DateIff(t: Trace, d: string)
    ensures SessionDate(t, d) <==> Closed(t, d)
  {
    forall s, e ensures Session(t, d, s, e) <==> ClosedSession(t, d, s, e) { SessionIff(t, d, s, e); }
    hide Session, ClosedSession;
    if Closed(t, d) {
      var s, e :| ClosedSession(t, d, s, e);
      assert Session(t, d, s, e);
    }
  }

  function Elements<T>(s: seq<T>): set<T> { set x | x in s }

  lemma {:induction false} AtMostLength<T>(s: seq<T>)
    ensures |Elements(s)| <= |s|
    ensures Distinct(s) ==> |Elements(s)| == |s|
  {
    if s == [] {
      assert Elements(s) == {};
    } else {
      var init := s[..|s| - 1];
      AtMostLength(init);
      assert Elements(s) == Elements(init) + {s[|s| - 1]};
      if Distinct(s) {
        forall i | 0 <= i < |init| ensures init[i] != s[|s| - 1] {}
        assert s[|s| - 1] !in Elements(init);
      }
    }
  }

  lemma NoMoreDistinct<T>(a: seq<T>, b: seq<T>)
    requires Distinct(a) && forall x :: x in a ==> x in b
    ensures |a| <= |b|
  {
    AtMostLength(a);
    AtMostLength(b);
    SubsetCardinality(Elements(a), Elements(b));
  }

  lemma DatesIff(ev: SessionEvidence, t: Trace, n: int, o: Outside)
    requires SessionsDerived(ev, t)
    ensures SessionDatesAccepted(ev.sessionDates, n, o) <==> DatesKept(t, n, o)
  {
    var dates := ev.sessionDates;
    forall d ensures d in dates <==> SessionDate(t, d) { DateIff(t, d); }
    assert StrictlySorted(dates);
    hide SessionDate, Closed, AllSessions, QualifyingOf, Mismatches, Strip;
    assert forall i :: 0 <= i < |dates| ==> dates[i] in dates;
    if SessionDatesAccepted(dates, n, o) { DatesAcceptedKept(t, dates, n, o); }
    if DatesKept(t, n, o) { DatesKeptAccepted(t, dates, n, o); }
  }

  lemma DatesAcceptedKept(t: Trace, dates: seq<string>, n: int, o: Outside)
    requires StrictlySorted(dates) && forall d :: d in dates <==> SessionDate(t, d)
    requires SessionDatesAccepted(dates, n, o)
    ensures DatesKept(t, n, o)
  {
    hide SessionDate, Strip, LexLeq;
    forall d | SessionDate(t, d) ensures TradingDate(d, o) {
      assert d in dates;
      var i :| 0 <= i < |dates| && dates[i] == d;
      assert SessionDay(Strip(dates[i]), o);
    }
    forall d, d' | SessionDate(t, d) && SessionDate(t, d') && d != d' && LexLeq(d, d') ensures InTime(d, d', o) {
      assert d in dates && d' in dates;
      var i, j :| 0 <= i < |dates| && dates[i] == d && 0 <= j < |dates| && dates[j] == d';
      if j < i { LexAntisymmetric(d, d'); }
      assert i < j;
    }
    assert forall i :: 0 <= i < |dates| ==> dates[i] in dates;
  }

  lemma LexAntisymmetric(a: string, b: string)
    ensures LexLeq(a, b) && LexLeq(b, a) ==> a == b
  {
    LexIsTotalOrder();
  }

  lemma DatesKeptAccepted(t: Trace, dates: seq<string>, n: int, o: Outside)
    requires StrictlySorted(dates) && forall d :: d in dates <==> SessionDate(t, d)
    requires DatesKept(t, n, o)
    ensures SessionDatesAccepted(dates, n, o)
  {
    hide SessionDate, Strip, LexLeq;
    assert forall i :: 0 <= i < |dates| ==> dates[i] in dates && TradingDate(dates[i], o);
    var some: seq<string> :| |some| >= n && Distinct(some) && forall i :: 0 <= i < |some| ==> SessionDate(t, some[i]);
    forall d | d in some ensures d in dates {
      var i :| 0 <= i < |some| && some[i] == d;
    }
    NoMoreDistinct(some, dates);
    forall i, j | 0 <= i < j < |dates| ensures DayOf(Strip(dates[i]), o) < DayOf(Strip(dates[j]), o) {
      assert LexLeq(dates[i], dates[j]) && dates[i] != dates[j];
    }
  }

  ghost predicate ActiveDate(t: Trace, d: string) {
    exists a :: Happened(t, RuntimeActive, a) && t[a].payload.sessionDate == Some(d)
  }

  /** Where every session has a runtime that became active, there are at least as many as sessions. */
  lemma {:induction false} ActiveForEach(t: Trace, dates: seq<string>) returns (active: seq<int>)
    requires Distinct(dates) && forall i :: 0 <= i < |dates| ==> ActiveDate(t, dates[i])
    ensures |active| == |dates| && Distinct(active)
    ensures forall i :: 0 <= i < |active| ==>
      Happened(t, RuntimeActive, active[i]) && t[active[i]].payload.sessionDate == Some(dates[i])
  {
    hide Happened;
    if dates == [] {
      active := [];
    } else {
      var last := dates[|dates| - 1];
      var init := ActiveForEach(t, dates[..|dates| - 1]);
      assert ActiveDate(t, last);
      var a :| Happened(t, RuntimeActive, a) && t[a].payload.sessionDate == Some(last);
      active := init + [a];
      forall i | 0 <= i < |init| ensures init[i] != a { assert t[init[i]].payload.sessionDate == Some(dates[i]); }
    }
  }

  ghost predicate SingleOwners(t: Trace) {
    forall i :: i in QualifyingOf(t, RuntimeActive) ==> t[i].payload.ownerCount == 1 && t[i].payload.leaseCount == 1
  }

  ghost predicate LiveEverywhere(t: Trace) {
    forall i :: i in QualifyingOf(t, RuntimeActive) ==> t[i].payload.liveMode == ControlledLive
  }

  lemma RuntimeParts(ev: RuntimeEvidence, dates: seq<string>, t: Trace)
    requires RuntimeDerived(ev, dates, t)
    ensures ev.ownerCount == ev.leaseCount
    ensures ev.ownerCount == 1 <==> dates != [] && |QualifyingOf(t, RuntimeActive)| >= |dates| && SingleOwners(t)
    ensures ev.controlledLive <==> QualifyingOf(t, RuntimeActive) != {} && LiveEverywhere(t)
  {
    hide Qualifies, LastCapability;
  }

  lemma RuntimeKeptIff(t: Trace)
    ensures RuntimeKept(t) <==> QualifyingOf(t, RuntimeActive) != {} && SingleOwners(t) && LiveEverywhere(t)
  {
    ActiveListed(t);
    hide Happened, Qualifies;
  }

  lemma RuntimeIff(ev: RuntimeEvidence, dates: seq<string>, t: Trace)
    requires RuntimeDerived(ev, dates, t) && SessionsKept(t)
    requires StrictlySorted(dates) && forall d :: d in dates <==> Closed(t, d)
    ensures ev.controlledLive && ev.ownerCount == 1 && ev.leaseCount == 1 <==> RuntimeKept(t)
  {
    EnoughActive(dates, t);
    RuntimeParts(ev, dates, t);
    RuntimeKeptIff(t);
    hide SessionsKept, StrictlySorted, Closed, RuntimeDerived, QualifyingOf, SingleOwners, LiveEverywhere, RuntimeKept;
  }

  lemma EnoughActive(dates: seq<string>, t: Trace)
    requires StrictlySorted(dates) && (forall d :: d in dates <==> Closed(t, d)) && SessionsKept(t)
    ensures |QualifyingOf(t, RuntimeActive)| >= |dates| > 0
  {
    SomeDate(dates, t);
    forall i | 0 <= i < |dates| ensures ActiveDate(t, dates[i]) {
      assert dates[i] in dates && Closed(t, dates[i]);
      ActiveOn(t, dates[i]);
    }
    assert Distinct(dates);
    hide Closed, Session, SessionsKept, StrictlySorted, Qualifies, ActiveDate;
    var active := ActiveForEach(t, dates);
    ActiveListed(t);
    AtMostLength(active);
    SubsetCardinality(Elements(active), QualifyingOf(t, RuntimeActive));
  }

  lemma ActiveOn(t: Trace, d: string)
    requires SessionsKept(t) && Closed(t, d)
    ensures ActiveDate(t, d)
  {
    DateIff(t, d);
    var s, e :| Session(t, d, s, e);
    assert ArmedInUi(t, d, s, e);
    var a, m :| && During(t, d, s, e, RuntimeActive, a) && During(t, d, s, e, ManualArm, m) && a < m
      && t[m].payload.source == ManualUi && forall x :: During(t, d, s, e, ManualArm, x) ==> m <= x;
    assert Happened(t, RuntimeActive, a);
  }

  // ---------------------------------------------------------------- files

  /** A PASSED Gate-3 report of the same commit, with the digest the evidence names. */
  ghost predicate UpstreamFits(up: Upstream, d: Digests) {
    && (Hex(d.commitSha, 40) || Hex(d.commitSha, 64))
    && up.gate == "GATE_3_SHADOW_EXECUTION" && Upper(up.result) == "PASSED"
    && Lower(Strip(up.commitSha)) == Lower(Strip(d.commitSha))
    && Hex(d.gate3ReportSha, 64) && Lower(d.gate3ReportSha) == up.digest
  }

  /** A PASSED Gate-4 report with three sessions, an entry, a protected position and a cancel of its own. */
  ghost predicate BaselineFits(b: BaselineReport, m: ImpactManifest, commit: string, o: Outside) {
    && b.gate == "GATE_4_CONTROLLED_LIVE" && Upper(b.result) == "PASSED"
    && (Hex(b.commitSha, 40) || Hex(b.commitSha, 64))
    && Hex(m.baselineSha, 64) && Lower(Strip(m.baselineSha)) == b.digest
    && Lower(Strip(m.baselineCommit)) == Lower(Strip(b.commitSha))
    && Lower(Strip(m.targetCommit)) == Lower(Strip(commit))
    && |b.sessionDates| >= 3
    && (forall i :: 0 <= i < |b.sessionDates| ==> TradingDate(b.sessionDates[i], o))
    && (forall i, j :: 0 <= i < j < |b.sessionDates| ==> InTime(b.sessionDates[i], b.sessionDates[j], o))
    && b.entryOutcomes >= 1 && b.protectedPositions >= 1 && b.cancelLifecycles >= 1
    && Reviewed(b.review, o)
  }

  ghost function SessionsOfManifest(m: ImpactManifest): int {
    Requalification.SessionsByText(
      Requalification.NormalizedPaths(m.changedPaths), Requalification.NormalizedPaths(m.reviewedPaths))
  }

  /** Only code of a user interface may be listed as reviewed, and the impact declared is the one of the paths. */
  ghost predicate ManifestFits(m: ImpactManifest, o: Outside) {
    var changed, reviewed :=
      Requalification.NormalizedPaths(m.changedPaths), Requalification.NormalizedPaths(m.reviewedPaths);
    var n := SessionsOfManifest(m);
    && changed != [] && (forall p :: p in reviewed ==> p in changed && Requalification.UiCode(p))
    && m.requiredSessions == Some(n)
    && Upper(Strip(m.impact))
       == (if n == 0 then "PRESENTATION_ONLY" else if n == 1 then "EVIDENCE_ONLY" else "PRODUCTION_OR_UNKNOWN")
    && (n == 0 ==>
          && Requalification.NineAsserted(m.invariants)
          && Lower(Strip(m.subjectSha)) == m.subjectDigest && Lower(Bare(m.review.reference)) == m.subjectDigest)
    && Reviewed(m.review, o)
  }

  ghost predicate FilesFit(ev: Evidence, up: Upstream, delta: Delta, o: Outside) {
    && UpstreamFits(up, ev.digests)
    && !delta.OneInputMissing?
    && (delta.DeltaRequalification? ==>
          && BaselineFits(delta.baseline, delta.manifest, ev.digests.commitSha, o) && ManifestFits(delta.manifest, o))
    && Hex(ev.digests.configSha, 64) && Hex(ev.digests.riskLimitsSha, 64) && Hex(ev.digests.journalSha, 64)
    && Hex(ev.runtime.capabilitySha, 64)
    && ev.audit.parseErrors == 0 && ev.audit.duplicateIds == 0 && ev.audit.chainErrors == 0
    && ev.audit.identityMismatches == 0 && ev.audit.unknownKinds == 0
    && Reviewed(ev.review, o)
  }

  lemma UpstreamIff(up: Upstream, d: Digests)
    ensures UpstreamAccepted(up, "GATE_3_SHADOW_EXECUTION", d.gate3ReportSha, Lower(Strip(d.commitSha)))
            <==> UpstreamFits(up, d)
  {
    CommitAlreadyTidy(d.commitSha);
    StripLowerIdempotent(d.commitSha);
    HexIff(d.commitSha);
    HexIff(d.gate3ReportSha);
    hide Strip, Lower, Upper, Hex, ValidSha256, ValidGitCommitSha;
  }

  lemma BaselineIff(b: BaselineReport, m: ImpactManifest, commit: string, o: Outside)
    ensures BaselineMatches(m, b, Lower(Strip(commit))) && BaselineAccepted(b, o) <==> BaselineFits(b, m, commit, o)
  {
    StripLowerIdempotent(commit);
    HexIff(b.commitSha);
    HexIff(m.baselineSha);
    ReviewedIff(b.review, o);
    TradingDatesIff(b.sessionDates, 3, o);
    hide Strip, Lower, Upper, Hex, ValidSha256, ValidGitCommitSha, ReviewApproved, Reviewed, TradingDate, InTime,
         SessionDatesAccepted;
  }

  lemma ReviewableListed(m: ImpactManifest)
    ensures PathsAccepted(m) <==>
      && Requalification.NormalizedPaths(m.changedPaths) != []
      && forall p :: p in Requalification.NormalizedPaths(m.reviewedPaths) ==>
           p in Requalification.NormalizedPaths(m.changedPaths) && Requalification.UiCode(p)
  {
    forall p ensures Requalification.ReviewablePath(p) <==> Requalification.UiCode(p) {
      Requalification.ReviewableInText(p);
    }
    hide Requalification.ReviewablePath, Requalification.UiCode, Requalification.NormalizedPaths;
  }

  lemma ManifestIff(m: ImpactManifest, o: Outside)
    ensures PathsAccepted(m) && ImpactDeclared(m) && PresentationBound(m) && ReviewApproved(m.review, o)
            <==> ManifestFits(m, o)
  {
    Requalification.SessionsInText(
      Requalification.NormalizedPaths(m.changedPaths), Requalification.NormalizedPaths(m.reviewedPaths));
    SessionsRange(m);
    ReviewableListed(m);
    Requalification.NineInvariants(m.invariants);
    ReviewedIff(m.review, o);
    BareIff(m.review.reference);
    hide Requalification.NormalizedPaths, Requalification.SessionsByText, Requalification.UiCode, Strip, Lower, Upper,
         Bare, RemovePrefix, ReviewApproved, Reviewed, Requalification.NineAsserted, Requalification.ChangeImpact,
         Requalification.RequiredSessions, PathsAccepted;
  }

  lemma SessionsRange(m: ImpactManifest)
    ensures SessionsOfManifest(m) in {0, 1, 3}
  {
    hide Requalification.NormalizedPaths, Requalification.Harmless, Requalification.Tooling;
  }

  // ---------------------------------------------------------------- the verdict

  ghost function SessionsNeeded(delta: Delta): int {
    if delta.DeltaRequalification? then SessionsOfManifest(delta.manifest) else 3
  }

  /** Coverage is carried from the baseline where the manifest asks for fewer than three sessions. */
  ghost predicate Carried(delta: Delta) { delta.DeltaRequalification? && SessionsOfManifest(delta.manifest) != 3 }

  ghost predicate TraceFits(t: Trace, capabilitySha: string, sessions: int, carried: bool, o: Outside) {
    && SessionsKept(t) && DatesKept(t, sessions, o)
    && MutationsKept(t) && EntriesKept(t, carried)
    && ProbeKept(t) && AlertKept(t) && RuntimeKept(t) && CapabilityKept(t, capabilitySha)
    && (carried || TradesKept(t))
  }

  lemma ModeIff(delta: Delta)
    ensures RequiredSessions(delta) == SessionsNeeded(delta) && (CarriesCoverage(delta) <==> Carried(delta))
  {
    if delta.DeltaRequalification? {
      var m := delta.manifest;
      Requalification.SessionsInText(
        Requalification.NormalizedPaths(m.changedPaths), Requalification.NormalizedPaths(m.reviewedPaths));
      SessionsRange(m);
    }
    hide Requalification.NormalizedPaths, Requalification.SessionsByText, Requalification.ChangeImpact,
         Requalification.RequiredSessions;
  }

  /** What the verdict asks of the files. */
  ghost predicate FilesPart(ev: Evidence, up: Upstream, delta: Delta, o: Outside) {
    && UpstreamAccepted(up, "GATE_3_SHADOW_EXECUTION", ev.digests.gate3ReportSha, Lower(Strip(ev.digests.commitSha)))
    && DeltaAccepted(delta, Lower(Strip(ev.digests.commitSha)), o)
    && ValidSha256(ev.digests.configSha) && ValidSha256(ev.digests.riskLimitsSha)
    && ValidSha256(ev.digests.journalSha) && ValidSha256(ev.runtime.capabilitySha)
    && ev.audit.Passed() && ReviewApproved(ev.review, o)
  }

  lemma DeltaIff(delta: Delta, commit: string, o: Outside)
    ensures DeltaAccepted(delta, Lower(Strip(commit)), o) <==>
      && !delta.OneInputMissing?
      && (delta.DeltaRequalification? ==>
            BaselineFits(delta.baseline, delta.manifest, commit, o) && ManifestFits(delta.manifest, o))
  {
    if delta.DeltaRequalification? {
      BaselineIff(delta.baseline, delta.manifest, commit, o);
      ManifestIff(delta.manifest, o);
    }
    hide Strip, Lower, ReviewApproved, BaselineFits, ManifestFits, BaselineMatches, BaselineAccepted, PathsAccepted,
         ImpactDeclared, PresentationBound;
  }

  lemma FilesIff(ev: Evidence, up: Upstream, delta: Delta, o: Outside)
    ensures FilesFit(ev, up, delta, o) <==> FilesPart(ev, up, delta, o)
  {
    UpstreamIff(up, ev.digests);
    DeltaIff(delta, ev.digests.commitSha, o);
    HexIff(ev.digests.configSha);
    HexIff(ev.digests.riskLimitsSha);
    HexIff(ev.digests.journalSha);
    HexIff(ev.runtime.capabilitySha);
    ReviewedIff(ev.review, o);
    hide Strip, Lower, Hex, ValidSha256, ValidGitCommitSha, ReviewApproved, Reviewed, UpstreamAccepted, UpstreamFits,
         BaselineFits, ManifestFits, DeltaAccepted;
  }

  /** What the verdict asks of the evidence that comes from the trace. */
  ghost predicate TracePart(ev: Evidence, sessions: int, carried: bool, o: Outside) {
    && ev.runtime.capabilitiesVerified && SessionFlags(ev.sessions)
    && ((carried && ev.caps.entryCount == 0)
        || (&& ev.sessions.everyEntryHasActiveCard && ev.caps.everyBuyBelowCap && ev.outcomes.riskRechecked
            && EnvelopeAccepted(ev.caps) && SymbolsAccepted(ev.runtime)))
    && ev.outcomes.disarmProbeBlocked && ev.outcomes.alertDelivered
    && ev.runtime.controlledLive && ev.runtime.ownerCount == 1 && ev.runtime.leaseCount == 1
    && CountersAreZero(ev.counters)
    && SessionDatesAccepted(ev.sessions.sessionDates, sessions, o)
    && (!carried ==>
          ev.outcomes.entryOutcomes >= 1 && ev.outcomes.protectedPositions >= 1 && ev.outcomes.cancelLifecycles >= 1)
  }

  lemma TracePartIff(ev: Evidence, t: Trace, sessions: int, carried: bool, o: Outside)
    requires DerivedFrom(ev, t)
    ensures TracePart(ev, sessions, carried, o) <==> TraceFits(t, ev.runtime.capabilitySha, sessions, carried, o)
  {
    SessionFlagsIff(ev.sessions, t);
    DatesIff(ev.sessions, t, sessions, o);
    EntriesIff(ev, t, carried);
    ProbeAndAlertIff(ev.outcomes, t);
    TradesIff(ev.outcomes, t);
    CapabilityIff(ev.runtime, ev.sessions.sessionDates, t);
    if SessionsKept(t) {
      KeptLifecycles(t);
      CountersIff(ev.counters, t);
      RuntimeIff(ev.runtime, ev.sessions.sessionDates, t);
    }
    hide *;
  }

  lemma KeptLifecycles(t: Trace)
    requires SessionsKept(t)
    ensures AllSessions(t, Lifecycle)
  {
    AllKeptIff(t);
    hide AllSessions, Session, ArmedInUi, LifecyclesAgree, ReconciledLast;
  }

  lemma AcceptsParts(ev: Evidence, up: Upstream, delta: Delta, o: Outside)
    requires ev.runtime.collectorDerived && !ev.runtime.pilotException
    ensures Accepts(ev, up, delta, o) <==>
      FilesPart(ev, up, delta, o) && TracePart(ev, RequiredSessions(delta), CarriesCoverage(delta), o)
  {
    hide CarriesCoverage, RequiredSessions, UpstreamAccepted, DeltaAccepted, ValidSha256, ReviewApproved,
         EnvelopeAccepted, SymbolsAccepted, CountersAreZero, SessionDatesAccepted, Strip, Lower;
  }

  /**
   The verdict on collector evidence, from the journal to the report: PASSED if and only if the
   files fit together and the trace shows everything that is asked for, in full and in delta mode.
   */
  lemma PassedIff(ev: Evidence, t: Trace, up: Upstream, delta: Delta, o: Outside)
    requires DerivedFrom(ev, t)
    ensures Accepts(ev, up, delta, o) <==>
      && FilesFit(ev, up, delta, o)
      && TraceFits(t, ev.runtime.capabilitySha, SessionsNeeded(delta), Carried(delta), o)
  {
    hide *;
    FromCollector(ev, t);
    AcceptsParts(ev, up, delta, o);
    FilesIff(ev, up, delta, o);
    ModeIff(delta);
    TracePartIff(ev, t, SessionsNeeded(delta), Carried(delta), o);
  }

  lemma FromCollector(ev: Evidence, t: Trace)
    requires DerivedFrom(ev, t)
    ensures ev.runtime.collectorDerived && !ev.runtime.pilotException
  {
    hide SessionsDerived, CountersDerived, CapsDerived, OutcomesDerived, LastCapability, Qualifies;
  }

  /**
   Any evidence, whoever made it: each single flag, count and digest that does not hold excludes
   PASSED. The entry flags may be false only where coverage is carried and there was no entry.
   */
  lemma EachFieldCounts(ev: Evidence, up: Upstream, delta: Delta, o: Outside)
    requires Accepts(ev, up, delta, o)
    ensures ev.runtime.collectorDerived && ev.runtime.capabilitiesVerified && !ev.runtime.pilotException
    ensures ev.sessions.sessionStartedDisarmed && ev.sessions.manualArmAfterActive && ev.sessions.lifecycleAgrees
    ensures ev.sessions.finalReconciliationMatches
    ensures ev.outcomes.disarmProbeBlocked && ev.outcomes.alertDelivered
    ensures !(Carried(delta) && ev.caps.entryCount == 0) ==>
      && ev.sessions.everyEntryHasActiveCard && ev.caps.everyBuyBelowCap && ev.outcomes.riskRechecked
      && ev.runtime.observedSymbols != {} && ev.runtime.observedSymbols <= ev.runtime.approvedSymbols
      && (ev.caps.envelopes != [] ==>
            && |ev.caps.envelopes| == ev.caps.entryCount
            && forall j :: 0 <= j < |ev.caps.envelopes| ==> 0.0 < ev.caps.envelopes[j].0 <= ev.caps.envelopes[j].1)
      && (ev.caps.envelopes == [] ==> 0.0 < ev.caps.maxNotional <= ev.caps.reviewedCap)
    ensures ev.runtime.controlledLive && ev.runtime.ownerCount == 1 && ev.runtime.leaseCount == 1
    ensures ev.counters.retryAttempts == 0 && ev.counters.duplicateOrUnowned == 0
    ensures ev.counters.unresolvedAmbiguous == 0 && ev.counters.lifecycleMismatches == 0
    ensures |ev.sessions.sessionDates| >= SessionsNeeded(delta)
    ensures !Carried(delta) ==>
      ev.outcomes.entryOutcomes >= 1 && ev.outcomes.protectedPositions >= 1 && ev.outcomes.cancelLifecycles >= 1
    ensures FilesFit(ev, up, delta, o)
  {
    ModeIff(delta);
    FilesIff(ev, up, delta, o);
    hide Carried, SessionsNeeded, CarriesCoverage, RequiredSessions, UpstreamAccepted, DeltaAccepted, ValidSha256,
         ReviewApproved, FilesFit, Strip, Lower, IsMin, IsMax, SessionDay;
  }
}
