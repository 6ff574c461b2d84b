/**
 Gate-4 event traces and the guards that decide which events may enter the journal
 (gate4/runner.py, gate4/runtime_observer.py).
 */
module Gate4Events {
  import opened Common
  import opened Text
  import opened EvidenceJournal

  datatype Kind =
    | SessionStarted | RuntimeActive | ManualArm | Disarmed | EntryCandidate
    | MutationDispatched | MutationTerminal | LifecycleComparison | PositionProtected
    | DisarmProbe | AlertDelivered | FinalReconciliation | CapabilityVerified | SessionEnded
    | Unlisted(name: string)

  const GATE4_EVIDENCE_EVENTS: set<Kind> := {
    SessionStarted, RuntimeActive, ManualArm, Disarmed, EntryCandidate,
    MutationDispatched, MutationTerminal, LifecycleComparison, PositionProtected,
    DisarmProbe, AlertDelivered, FinalReconciliation, CapabilityVerified, SessionEnded
  }

  /** The kind a journal row gets for an event type in normal form. */
  function KindNamed(name: string): Kind {
    if name == "SESSION_STARTED" then SessionStarted
    else if name == "RUNTIME_ACTIVE" then RuntimeActive
    else if name == "MANUAL_ARM" then ManualArm
    else if name == "DISARMED" then Disarmed
    else if name == "ENTRY_CANDIDATE" then EntryCandidate
    else if name == "MUTATION_DISPATCHED" then MutationDispatched
    else if name == "MUTATION_TERMINAL" then MutationTerminal
    else if name == "LIFECYCLE_COMPARISON" then LifecycleComparison
    else if name == "POSITION_PROTECTED" then PositionProtected
    else if name == "DISARM_PROBE" then DisarmProbe
    else if name == "EXTERNAL_ALERT_DELIVERED" then AlertDelivered
    else if name == "FINAL_RECONCILIATION" then FinalReconciliation
    else if name == "CAPABILITY_EVIDENCE_VERIFIED" then CapabilityVerified
    else if name == "SESSION_ENDED" then SessionEnded
    else Unlisted(name)
  }

  /** `append` strips and upper-cases the event type it is given. */
  function KindOf(eventType: string): Kind { KindNamed(Upper(Strip(eventType))) }

  datatype Command = Submit | Cancel | OtherCommand(name: string)
  datatype ArmSource = ManualUi | OtherSource(name: string)
  datatype LiveMode = ControlledLive | OtherMode(name: string)

  /** The fields the reducer and the guards read from a payload; each kind fills its own. */
  datatype Payload = Payload(
    sessionDate: Option<string>,
    supervised: Flag, armed: Flag, source: ArmSource, cleanShutdown: Flag,
    approvedSymbols: set<string>, ownerCount: int, leaseCount: int, liveMode: LiveMode, reviewedCap: real,
    agrees: Flag, symbol: string, notional: real, entryCap: real, activeTradeCard: Flag, riskRechecked: Flag,
    commandType: Command, clientOrderId: string, strategyEntry: Flag,
    automaticRetry: Flag, duplicate: Flag, owned: Flag,
    brokerConfirmed: Flag, identityAmbiguous: Flag, resolved: Flag, safeExitOrProtected: Flag,
    nextMutationBlocked: Flag, brokerCalled: Flag, delivered: Flag, matchesBroker: Flag,
    verified: Flag, evidenceSha: string)

  const EMPTY_PAYLOAD := Payload(
    None, Missing, Missing, OtherSource(""), Missing, {}, 0, 0, OtherMode(""), 0.0,
    Missing, "", 0.0, 0.0, Missing, Missing, OtherCommand(""), "", Missing, Missing, Missing, Missing,
    Missing, Missing, Missing, Missing, Missing, Missing, Missing, Missing, Missing, "")

  datatype Ev = Ev(kind: Kind, payload: Payload)

  type Trace = seq<Ev>

  function TraceOf(rows: seq<Event<Kind, Payload>>): (t: Trace)
    ensures |t| == |rows|
  {
    seq(|rows|, i requires 0 <= i < |rows| => Ev(rows[i].body.eventType, rows[i].body.payload))
  }

  predicate Dated(t: Trace, d: string, i: int) {
    0 <= i < |t| && t[i].payload.sessionDate == Some(d)
  }

  /** Positions of the events of one kind on one session date. */
  function Positions(t: Trace, d: string, k: Kind): set<int> {
    set i | 0 <= i < |t| && t[i].payload.sessionDate == Some(d) && t[i].kind == k
  }

  predicate CapabilityRecorded(t: Trace) {
    exists i :: 0 <= i < |t| && t[i].kind == CapabilityVerified && t[i].payload.verified == Yes
  }

  /** `start_session`: the first event of its date, supervised and disarmed. */
  ghost predicate OpensSession(t: Trace, e: Ev) {
    && e.kind == SessionStarted
    && e.payload.sessionDate.Some? && e.payload.sessionDate.value != ""
    && e.payload.supervised == Yes && e.payload.armed == No
    && CapabilityRecorded(t)
    && (forall i :: 0 <= i < |t| ==> t[i].payload.sessionDate != e.payload.sessionDate)
  }

  /** A date with one start and no end, where `observe_gate4_event` lets any event in. */
  predicate OpenDate(t: Trace, d: string) {
    |Positions(t, d, SessionStarted)| == 1 && Positions(t, d, SessionEnded) == {}
  }

  /**
   `prepare`, `start_session` and `observe_gate4_event` append only events like these. An
   observed event may itself be a session start: its guard reads the event type before the
   journal normalises it.
   */
  ghost predicate Admissible(t: Trace, e: Ev) {
    && !e.kind.Unlisted?
    && (|| OpensSession(t, e)
        || (e.kind == CapabilityVerified && e.payload.sessionDate == None && e.payload.verified == Yes)
        || (e.payload.sessionDate.Some? && OpenDate(t, e.payload.sessionDate.value)))
  }

  ghost predicate Reachable(t: Trace) {
    t == [] || (Reachable(t[..|t| - 1]) && Admissible(t[..|t| - 1], t[|t| - 1]))
  }

  // ---------------------------------------------------------------- the shape of a session

  /** A supervised, disarmed start that comes before everything else of the date. */
  ghost predicate OpenedBy(t: Trace, d: string, s: int) {
    && s in Positions(t, d, SessionStarted)
    && t[s].payload.supervised == Yes && t[s].payload.armed == No
    && forall j :: Dated(t, d, j) ==> s <= j
  }

  /** The end of a date follows everything else of it, and a date with two starts has no end. */
  ghost predicate SessionShape(t: Trace, d: string) {
    && (forall e, j :: e in Positions(t, d, SessionEnded) && Dated(t, d, j) ==> j <= e)
    && (forall j :: Dated(t, d, j) ==> exists s :: OpenedBy(t, d, s))
    && |Positions(t, d, SessionStarted)| <= 2
    && (Positions(t, d, SessionEnded) != {} ==> |Positions(t, d, SessionStarted)| == 1)
  }

  lemma PositionsGrow(t: Trace, e: Ev, d: string, k: Kind)
    ensures Positions(t + [e], d, k)
         == Positions(t, d, k) + if e.payload.sessionDate == Some(d) && e.kind == k then {|t|} else {}
  {
  }

  lemma DatedGrow(t: Trace, e: Ev, d: string)
    ensures forall j :: Dated(t + [e], d, j) <==> Dated(t, d, j) || (j == |t| && e.payload.sessionDate == Some(d))
    ensures forall j :: Dated(t, d, j) ==> 0 <= j < |t|
    ensures forall k, j :: j in Positions(t, d, k) ==> 0 <= j < |t|
    ensures forall j :: 0 <= j < |t| ==> (t + [e])[j] == t[j]
  {
  }

  lemma OpenedStays(t: Trace, e: Ev, d: string, s: int)
    requires OpenedBy(t, d, s)
    ensures OpenedBy(t + [e], d, s)
  {
    PositionsGrow(t, e, d, SessionStarted);
    DatedGrow(t, e, d);
    hide Positions, Dated;
  }

  lemma ShapeKeptElsewhere(t: Trace, e: Ev, d: string)
    requires SessionShape(t, d) && e.payload.sessionDate != Some(d)
    ensures SessionShape(t + [e], d)
  {
    PositionsGrow(t, e, d, SessionStarted);
    PositionsGrow(t, e, d, SessionEnded);
    DatedGrow(t, e, d);
    assert Positions(t + [e], d, SessionStarted) == Positions(t, d, SessionStarted);
    assert Positions(t + [e], d, SessionEnded) == Positions(t, d, SessionEnded);
    hide Positions, Dated;
    if s :| OpenedBy(t, d, s) { OpenedStays(t, e, d, s); }
    hide OpenedBy;
  }

  lemma ShapeStarts(t: Trace, e: Ev, d: string)
    requires OpensSession(t, e) && e.payload.sessionDate == Some(d)
    ensures SessionShape(t + [e], d)
  {
    DatedGrow(t, e, d);
    assert forall j :: !Dated(t, d, j);
    assert Positions(t + [e], d, SessionStarted) == {|t|};
    assert Positions(t + [e], d, SessionEnded) == {};
    hide Positions, Dated;
    assert OpenedBy(t + [e], d, |t|);
  }

  lemma ShapeContinues(t: Trace, e: Ev, d: string)
    requires SessionShape(t, d) && e.payload.sessionDate == Some(d) && OpenDate(t, d)
    ensures SessionShape(t + [e], d)
  {
    hide Positions, Dated;
    PositionsGrow(t, e, d, SessionStarted);
    PositionsGrow(t, e, d, SessionEnded);
    DatedGrow(t, e, d);
    var all := t + [e];
    var started := Positions(t, d, SessionStarted);
    assert Positions(all, d, SessionStarted) == if e.kind == SessionStarted then started + {|t|} else started;
    assert Positions(all, d, SessionEnded) == if e.kind == SessionEnded then {|t|} else {};
    StartIsDated(t, d);
    var s :| OpenedBy(t, d, s);
    OpenedStays(t, e, d, s);
    hide OpenedBy;
    forall x, j | x in Positions(all, d, SessionEnded) && Dated(all, d, j) ensures j <= x {}
  }

  lemma StartIsDated(t: Trace, d: string)
    requires |Positions(t, d, SessionStarted)| == 1
    ensures exists j :: Dated(t, d, j)
  {
    var s :| s in Positions(t, d, SessionStarted);
    assert Dated(t, d, s);
  }

  lemma ShapeKeptByAdmissible(t: Trace, e: Ev, d: string)
    requires SessionShape(t, d) && Admissible(t, e)
    ensures SessionShape(t + [e], d)
  {
    hide SessionShape, OpensSession, OpenDate;
    if e.payload.sessionDate != Some(d) {
      ShapeKeptElsewhere(t, e, d);
    } else if OpensSession(t, e) {
      ShapeStarts(t, e, d);
    } else {
      ShapeContinues(t, e, d);
    }
  }

  /** Every date opens with a supervised, disarmed start; its end follows everything else of it. */
  lemma {:induction false} ReachableSessionShape(t: Trace, d: string)
    requires Reachable(t)
    ensures SessionShape(t, d)
  {
    if t != [] {
      var init, e := t[..|t| - 1], t[|t| - 1];
      ReachableSessionShape(init, d);
      ShapeKeptByAdmissible(init, e, d);
      assert t == init + [e];
    }
  }

  /** At most one end per date, and an ended date has exactly one start. */
  lemma EndedOnce(t: Trace, d: string)
    requires Reachable(t)
    ensures |Positions(t, d, SessionEnded)| <= 1
    ensures Positions(t, d, SessionEnded) != {} ==> |Positions(t, d, SessionStarted)| == 1
  {
    ReachableSessionShape(t, d);
    var ends := Positions(t, d, SessionEnded);
    if e :| e in ends {
      assert Dated(t, d, e);
      forall x | x in ends ensures x == e { assert Dated(t, d, x); }
      assert ends == {e};
    }
  }

  lemma {:induction false} ReachablePrefix(t: Trace, more: Trace)
    requires Reachable(t + more)
    ensures Reachable(t)
  {
    if more == [] {
      assert t + more == t;
    } else {
      assert (t + more)[..|t + more| - 1] == t + more[..|more| - 1];
      ReachablePrefix(t, more[..|more| - 1]);
    }
  }

  /** A date whose session has ended never receives another event. */
  lemma ClosedDateIsImmutable(t: Trace, more: Trace, d: string)
    requires Reachable(t + more)
    requires Positions(t, d, SessionEnded) != {}
    ensures forall j :: 0 <= j < |more| ==> more[j].payload.sessionDate != Some(d)
  {
    ReachableSessionShape(t + more, d);
    var e :| e in Positions(t, d, SessionEnded);
    assert (t + more)[e] == t[e] && e in Positions(t + more, d, SessionEnded);
    forall j | 0 <= j < |more| ensures more[j].payload.sessionDate != Some(d) {
      assert (t + more)[|t| + j] == more[j];
      assert !Dated(t + more, d, |t| + j);
    }
  }

  lemma PositionsStay(t: Trace, more: Trace, d: string, k: Kind)
    ensures Positions(t, d, k) <= Positions(t + more, d, k)
    ensures |Positions(t, d, k)| <= |Positions(t + more, d, k)|
  {
    forall i | i in Positions(t, d, k) ensures i in Positions(t + more, d, k) { assert (t + more)[i] == t[i]; }
    var few, many := Positions(t, d, k), Positions(t + more, d, k);
    assert many == few + (many - few);
  }

  /** A date with two starts takes no further event, so it can never be ended. */
  lemma {:induction false} TwoStartsNeverEnd(t: Trace, more: Trace, d: string)
    requires Reachable(t + more) && |Positions(t, d, SessionStarted)| >= 2
    ensures forall j :: 0 <= j < |more| ==> more[j].payload.sessionDate != Some(d)
    ensures Positions(t + more, d, SessionEnded) == {}
  {
    ReachableSessionShape(t + more, d);
    PositionsStay(t, more, d, SessionStarted);
    if more != [] {
      var init, e := more[..|more| - 1], more[|more| - 1];
      var before := t + init;
      assert (t + more)[..|t + more| - 1] == before && (t + more)[|t + more| - 1] == e;
      TwoStartsNeverEnd(t, init, d);
      PositionsStay(t, init, d, SessionStarted);
      assert Admissible(before, e);
      assert e.payload.sessionDate != Some(d) by {
        var s :| s in Positions(before, d, SessionStarted);
        assert before[s].payload.sessionDate == Some(d);
      }
    }
  }

  /** Some event before position i is a verified capability record. */
  ghost predicate CapabilityBefore(t: Trace, i: int) {
    exists j :: 0 <= j < i && j < |t| && t[j].kind == CapabilityVerified && t[j].payload.verified == Yes
  }

  lemma CapabilityStays(t: Trace, e: Ev, i: int, n: int)
    requires CapabilityBefore(t, i) && i <= n
    ensures CapabilityBefore(t + [e], n)
  {
    var j :| 0 <= j < i && j < |t| && t[j].kind == CapabilityVerified && t[j].payload.verified == Yes;
    assert (t + [e])[j] == t[j];
  }

  lemma OpenDateHasStart(t: Trace, d: string) returns (s: int)
    requires OpenDate(t, d)
    ensures 0 <= s < |t| && Dated(t, d, s)
  {
    s :| s in Positions(t, d, SessionStarted);
  }

  /** Every dated event of a reachable trace follows a verified capability record. */
  lemma {:induction false} CapabilityComesFirst(t: Trace, d: string, i: nat)
    requires Reachable(t) && Dated(t, d, i)
    ensures exists j :: 0 <= j < i && t[j].kind == CapabilityVerified && t[j].payload.verified == Yes
  {
    var init, e := t[..|t| - 1], t[|t| - 1];
    assert t == init + [e] && Admissible(init, e);
    if i < |init| {
      CapabilityComesFirst(init, d, i);
      CapabilityStays(init, e, i, i);
    } else if OpensSession(init, e) {
      assert CapabilityBefore(init, |init|);
      CapabilityStays(init, e, |init|, i);
    } else {
      var s := OpenDateHasStart(init, d);
      CapabilityComesFirst(init, d, s);
      CapabilityStays(init, e, s, i);
    }
    hide Reachable, Admissible, OpensSession, Dated;
  }

  /** A date is open where it has exactly one start and no end. */
  lemma OpenDateMeans(t: Trace, d: string)
    ensures OpenDate(t, d) <==>
      && (exists s :: && Dated(t, d, s) && t[s].kind == SessionStarted
                      && forall i :: Dated(t, d, i) && t[i].kind == SessionStarted ==> i == s)
      && forall i :: Dated(t, d, i) ==> t[i].kind != SessionEnded
  {
    var starts, ends := Positions(t, d, SessionStarted), Positions(t, d, SessionEnded);
    assert forall i :: i in starts <==> Dated(t, d, i) && t[i].kind == SessionStarted;
    assert forall i :: i in ends <==> Dated(t, d, i) && t[i].kind == SessionEnded;
    hide Positions, Dated;
    if OpenDate(t, d) {
      var s :| s in starts;
      forall i | i in starts ensures i == s { if i != s { TwoMembers(starts, s, i); } }
    }
    if s :| s in starts && forall i :: i in starts ==> i == s { assert starts == {s}; }
  }

  lemma TwoMembers<T>(s: set<T>, x: T, y: T)
    requires x in s && y in s && x != y
    ensures |s| >= 2
  {
    assert s == {x, y} + (s - {x, y});
  }

  // ---------------------------------------------------------------- the writers

  datatype GateRefusal =
    | JournalRefused(refusal: Refusal)
    | UnreadableJournal
    | StartedByCliOnly
    | NoOpenSession
    | NotPrepared
    | DateHasEvidence
    | StartChecksFailed

  /** Identifier and times the caller supplies for one journal row. */
  datatype Stamp = Stamp(eventId: string, observedAt: string, mtime: int, ctime: int)

  function RequestFor(kind: Kind, payload: Payload, stamp: Stamp): Request<Kind, Payload> {
    Request(kind, payload, stamp.observedAt, true, stamp.eventId, stamp.mtime, stamp.ctime)
  }

  function CapabilityPayload(evidenceSha: string): Payload {
    EMPTY_PAYLOAD.(verified := Yes, evidenceSha := evidenceSha)
  }

  function StartPayload(sessionDay: string): Payload {
    EMPTY_PAYLOAD.(sessionDate := Some(sessionDay), supervised := Yes, armed := No)
  }

  /** A payload without a session date gets today's. */
  function DatedPayload(payload: Payload, today: string): Payload {
    if payload.sessionDate.Some? then payload else payload.(sessionDate := Some(today))
  }

  class Gate4EvidenceCollector {
    const journal: AppendOnlyEvidenceJournal<Kind, Payload>

    constructor (journal: AppendOnlyEvidenceJournal<Kind, Payload>)
      ensures this.journal == journal
    {
      this.journal := journal;
    }

    ghost function Recorded(): Trace
      reads journal, journal.file
    {
      TraceOf(Rows(journal.file.content.lines))
    }

    /** Would the journal take this event now? */
    ghost predicate Accepts(kind: Kind, payload: Payload, stamp: Stamp)
      reads journal, journal.file
    {
      AppendStep(journal.cfg, journal.file.content, journal.cache, RequestFor(kind, payload, stamp)).result.Ok?
    }

    /** Is the row of this event one line, so that readers find it? */
    predicate Whole(kind: Kind, payload: Payload, stamp: Stamp) {
      OneLine(journal.cfg, RequestFor(kind, payload, stamp))
    }

    /** What an append the journal took adds to the trace: the event, or nothing where its row is cut. */
    function Found(e: Ev, stamp: Stamp): Trace { if Whole(e.kind, e.payload, stamp) then [e] else [] }

    /** Append one event under the normal form of its type, where the journal takes it. */
    method Record(eventType: string, payload: Payload, stamp: Stamp) returns (r: Result<Ev, GateRefusal>)
      modifies journal, journal.file
      ensures r.Ok? <==> old(Accepts(KindOf(eventType), payload, stamp))
      ensures r.Ok? ==> r.value == Ev(KindOf(eventType), payload) && KindOf(eventType) in journal.cfg.allowed
      ensures r.Ok? ==> Recorded() == old(Recorded()) + Found(r.value, stamp)
      ensures r.Ok? && Found(r.value, stamp) == [] ==> !Readable()
      ensures r.Err? ==> journal.file.content == old(journal.file.content)
    {
      var kind := KindOf(eventType);
      var row := journal.Append(RequestFor(kind, payload, stamp));
      match row
      case Err(e) => r := Err(JournalRefused(e));
      case Ok(e) =>
        r := Ok(Ev(kind, payload));
        RowFound(journal.cfg, old(journal.file.content).lines, RequestFor(kind, payload, stamp), e);
    }

    ghost predicate Readable()
      reads journal, journal.file
    {
      forall i :: 0 <= i < |journal.file.content.lines| ==> !journal.file.content.lines[i].Garbage?
    }

    method ReadTrace() returns (r: Result<Trace, GateRefusal>)
      ensures r.Ok? ==> r.value == Recorded()
      ensures r.Ok? <==> Readable()
    {
      var rows := journal.ReadAll();
      r := if rows.Ok? then Ok(TraceOf(rows.value)) else Err(UnreadableJournal);
    }

    /** `prepare`: record the verified capability manifest. */
    method Prepare(evidenceSha: string, stamp: Stamp) returns (r: Result<Ev, GateRefusal>)
      requires journal.cfg.allowed == GATE4_EVIDENCE_EVENTS
      modifies journal, journal.file
      ensures r.Ok? ==> Admissible(old(Recorded()), r.value) && Recorded() == old(Recorded()) + Found(r.value, stamp)
      ensures r.Ok? <==> old(Accepts(CapabilityVerified, CapabilityPayload(evidenceSha), stamp))
      ensures r.Ok? ==>
        && r.value == Ev(CapabilityVerified, CapabilityPayload(evidenceSha))
        && r.value.payload.verified == Yes && r.value.payload.evidenceSha == evidenceSha
        && r.value.payload.sessionDate == None
      ensures r.Err? ==> journal.file.content == old(journal.file.content)
      ensures old(Reachable(Recorded())) ==> Reachable(Recorded())
    {
      NormalNames();
      hide KindOf;
      r := Record("CAPABILITY_EVIDENCE_VERIFIED", CapabilityPayload(evidenceSha), stamp);
      AdmittedStaysReachable(old(Recorded()), r);
    }

    /** `start_session`: one disarmed, supervised start per date, only after `prepare`. */
    method StartSession(sessionDay: string, checksPass: bool, stamp: Stamp) returns (r: Result<Ev, GateRefusal>)
      requires journal.cfg.allowed == GATE4_EVIDENCE_EVENTS
      requires sessionDay != ""
      modifies journal, journal.file
      ensures r.Ok? ==> Admissible(old(Recorded()), r.value) && Recorded() == old(Recorded()) + Found(r.value, stamp)
      ensures r.Ok? ==>
        && r.value == Ev(SessionStarted, StartPayload(sessionDay))
        && r.value.payload.sessionDate == Some(sessionDay)
        && r.value.payload.supervised == Yes && r.value.payload.armed == No
      ensures r.Ok? <==>
        && checksPass && old(Readable()) && CapabilityRecorded(old(Recorded()))
        && (forall i :: !Dated(old(Recorded()), sessionDay, i))
        && old(Accepts(SessionStarted, StartPayload(sessionDay), stamp))
      ensures r.Err? ==> journal.file.content == old(journal.file.content)
      ensures old(Reachable(Recorded())) ==> Reachable(Recorded())
    {
      if !checksPass { return Err(StartChecksFailed); }
      var events := ReadTrace();
      if events.Err? { return Err(events.error); }
      if !CapabilityRecorded(events.value) { return Err(NotPrepared); }
      if exists i :: 0 <= i < |events.value| && events.value[i].payload.sessionDate == Some(sessionDay) {
        ghost var i :| 0 <= i < |events.value| && events.value[i].payload.sessionDate == Some(sessionDay);
        assert Dated(events.value, sessionDay, i);
        return Err(DateHasEvidence);
      }
      assert forall i :: !Dated(events.value, sessionDay, i);
      NormalNames();
      hide KindOf;
      r := Record("SESSION_STARTED", StartPayload(sessionDay), stamp);
      AdmittedStaysReachable(old(Recorded()), r);
    }

    /** The guard of `observe_gate4_event`: it reads the journal, and the text as it is given. */
    method GuardObserved(eventType: string, d: string) returns (refusal: Option<GateRefusal>)
      ensures refusal == None <==> eventType != "SESSION_STARTED" && Readable() && OpenDate(Recorded(), d)
    {
      var events := ReadTrace();
      if events.Err? { return Some(events.error); }
      var starts, ends := |Positions(events.value, d, SessionStarted)|, |Positions(events.value, d, SessionEnded)|;
      if eventType == "SESSION_STARTED" { return Some(StartedByCliOnly); }
      if starts != 1 || ends > 0 { return Some(NoOpenSession); }
      return None;
    }

    /** `observe_gate4_event` once qualification is enabled; the guard reads the text as it is given. */
    method Observe(eventType: string, payload: Payload, today: string, stamp: Stamp)
      returns (r: Result<Ev, GateRefusal>)
      requires journal.cfg.allowed == GATE4_EVIDENCE_EVENTS
      modifies journal, journal.file
      ensures r.Ok? ==> Admissible(old(Recorded()), r.value) && Recorded() == old(Recorded()) + Found(r.value, stamp)
      ensures r.Ok? ==> r.value == Ev(KindOf(eventType), DatedPayload(payload, today))
      ensures r.Ok? && payload.sessionDate == None ==> r.value.payload == payload.(sessionDate := Some(today))
      ensures r.Ok? && payload.sessionDate != None ==> r.value.payload == payload
      ensures r.Err? ==> journal.file.content == old(journal.file.content)
      ensures
        var dated := DatedPayload(payload, today);
        r.Ok? <==>
          && eventType != "SESSION_STARTED" && old(Readable())
          && OpenDate(old(Recorded()), dated.sessionDate.value)
          && old(Accepts(KindOf(eventType), dated, stamp))
      ensures old(Reachable(Recorded())) ==> Reachable(Recorded())
    {
      hide KindOf, Positions, Reachable, Admissible, Whole, OpenDate;
      var dated := DatedPayload(payload, today);
      var refusal := GuardObserved(eventType, dated.sessionDate.value);
      hide DatedPayload;
      if refusal.Some? { return Err(refusal.value); }
      r := Record(eventType, dated, stamp);
      if r.Ok? { ObservedIsAdmissible(old(Recorded()), r.value); }
      AdmittedStaysReachable(old(Recorded()), r);
    }
  }

  /** Each kind has one name, and no other name is that kind. */
  lemma NamesOfKinds(name: string)
    ensures KindNamed(name) == SessionStarted <==> name == "SESSION_STARTED"
    ensures KindNamed(name) == RuntimeActive <==> name == "RUNTIME_ACTIVE"
    ensures KindNamed(name) == ManualArm <==> name == "MANUAL_ARM"
    ensures KindNamed(name) == Disarmed <==> name == "DISARMED"
    ensures KindNamed(name) == EntryCandidate <==> name == "ENTRY_CANDIDATE"
    ensures KindNamed(name) == MutationDispatched <==> name == "MUTATION_DISPATCHED"
    ensures KindNamed(name) == MutationTerminal <==> name == "MUTATION_TERMINAL"
    ensures KindNamed(name) == LifecycleComparison <==> name == "LIFECYCLE_COMPARISON"
    ensures KindNamed(name) == PositionProtected <==> name == "POSITION_PROTECTED"
    ensures KindNamed(name) == DisarmProbe <==> name == "DISARM_PROBE"
    ensures KindNamed(name) == AlertDelivered <==> name == "EXTERNAL_ALERT_DELIVERED"
    ensures KindNamed(name) == FinalReconciliation <==> name == "FINAL_RECONCILIATION"
    ensures KindNamed(name) == CapabilityVerified <==> name == "CAPABILITY_EVIDENCE_VERIFIED"
    ensures KindNamed(name) == SessionEnded <==> name == "SESSION_ENDED"
    ensures KindNamed(name).Unlisted? ==> KindNamed(name) == Unlisted(name)
  {
    if name == "FINAL_RECONCILIATION" { assert name[0] == 'F'; }
  }

  lemma NormalNames()
    ensures KindOf("SESSION_STARTED") == SessionStarted
    ensures KindOf("CAPABILITY_EVIDENCE_VERIFIED") == CapabilityVerified
  {
    NameOfStart();
    NameOfCapability();
    hide KindOf;
  }

  lemma NameOfStart()
    ensures KindOf("SESSION_STARTED") == SessionStarted
  {
    StripFixed("SESSION_STARTED");
    UpperFixed("SESSION_STARTED");
    hide Strip, Upper;
  }

  lemma NameOfCapability()
    ensures KindOf("CAPABILITY_EVIDENCE_VERIFIED") == CapabilityVerified
  {
    StripFixed("CAPABILITY_EVIDENCE_VERIFIED");
    UpperFixed("CAPABILITY_EVIDENCE_VERIFIED");
    hide Strip, Upper;
  }

  lemma ObservedIsAdmissible(t: Trace, e: Ev)
    requires e.payload.sessionDate.Some? && OpenDate(t, e.payload.sessionDate.value) && !e.kind.Unlisted?
    ensures Admissible(t, e)
  {
  }

  /** A reader of the file finds the event of a row of one line, and an unreadable line elsewhere. */
  lemma RowFound(
      cfg: Config<Kind, Payload>, lines: seq<Line<Kind, Payload>>, r: Request<Kind, Payload>, e: Event<Kind, Payload>)
    requires exists tail :: e == NewRow(cfg, r, tail)
    ensures var more := lines + TextLines(cfg, e);
      && TraceOf(Rows(more)) == TraceOf(Rows(lines)) + (if OneLine(cfg, r) then [Ev(r.eventType, r.payload)] else [])
      && (!OneLine(cfg, r) ==> exists i :: 0 <= i < |more| && more[i].Garbage?)
  {
    var tail :| e == NewRow(cfg, r, tail);
    OneLineIff(cfg, r, tail);
    if OneLine(cfg, r) {
      OneLineAppended(cfg, lines, e);
    } else {
      CutRowAppended(cfg, lines, e);
      assert (lines + TextLines(cfg, e))[|lines|].Garbage?;
    }
  }

  lemma AdmittedStaysReachable(t: Trace, r: Result<Ev, GateRefusal>)
    requires r.Ok? ==> Admissible(t, r.value)
    ensures Reachable(t) && r.Ok? ==> Reachable(t + [r.value]) && Reachable(t + [])
  {
    if r.Ok? {
      assert (t + [r.value])[..|t|] == t;
      assert t + [] == t;
    }
  }
}
