/**
 Whole runs of the Gate-4 writers, from an empty journal. The observing guard compares the
 event type as it is given, while the journal records it stripped and in upper case.
 */
module Gate4Runs {
  import opened Common
  import opened Text
  import opened EvidenceJournal
  import opened Gate4Events

  /** One call of a writer; `taken` says whether the journal takes the row it is given, in one line. */
  datatype Call =
    | PrepareCall(evidenceSha: string, taken: bool)
    | StartCall(sessionDay: string, checksPass: bool, taken: bool)
    | ObserveCall(eventType: string, payload: Payload, today: string, taken: bool)

  function DateOf(c: Call): string
    requires c.ObserveCall?
  {
    DatedPayload(c.payload, c.today).sessionDate.value
  }

  predicate DateIsEmpty(t: Trace, d: string) {
    forall i :: 0 <= i < |t| ==> t[i].payload.sessionDate != Some(d)
  }

  /** The event a call records on a trace, if its guards let it. */
  function Recording(t: Trace, c: Call): Option<Ev> {
    match c
    case PrepareCall(sha, taken) => if taken then Some(Ev(CapabilityVerified, CapabilityPayload(sha))) else None
    case StartCall(d, checksPass, taken) =>
      if checksPass && taken && CapabilityRecorded(t) && DateIsEmpty(t, d)
      then Some(Ev(SessionStarted, StartPayload(d))) else None
    case ObserveCall(eventType, payload, today, taken) =>
      if eventType != "SESSION_STARTED" && taken && OpenDate(t, DateOf(c)) && !KindOf(eventType).Unlisted?
      then Some(Ev(KindOf(eventType), DatedPayload(payload, today))) else None
  }

  function After(t: Trace, c: Call): Trace {
    if Recording(t, c).Some? then t + [Recording(t, c).value] else t
  }

  function RunOf(calls: seq<Call>): Trace {
    if calls == [] then [] else After(RunOf(calls[..|calls| - 1]), calls[|calls| - 1])
  }

  /** Session days are ISO dates, so they are not blank. */
  predicate ValidCalls(calls: seq<Call>) {
    forall i :: 0 <= i < |calls| && calls[i].StartCall? ==> calls[i].sessionDay != ""
  }

  /** When a start is recorded: its checks passed, a verified capability was recorded, and its date is new. */
  lemma StartRecordedIff(t: Trace, c: Call)
    requires c.StartCall?
    ensures Recording(t, c).Some? <==>
      && c.checksPass && c.taken
      && (exists i :: 0 <= i < |t| && t[i].kind == CapabilityVerified && t[i].payload.verified == Yes)
      && forall i :: 0 <= i < |t| ==> t[i].payload.sessionDate != Some(c.sessionDay)
    ensures Recording(t, c).Some? ==>
      var e := Recording(t, c).value;
      && e.kind == SessionStarted && e.payload.sessionDate == Some(c.sessionDay)
      && e.payload.supervised == Yes && e.payload.armed == No
  {
  }

  lemma RecordingIsAdmissible(t: Trace, c: Call)
    requires Recording(t, c).Some? && (c.StartCall? ==> c.sessionDay != "")
    ensures Admissible(t, Recording(t, c).value)
  {
    hide OpenDate, KindOf, CapabilityRecorded, Positions;
    match c
    case PrepareCall(sha, taken) =>
      assert CapabilityPayload(sha).sessionDate == None && CapabilityPayload(sha).verified == Yes;
    case StartCall(d, checksPass, taken) =>
      var p := StartPayload(d);
      assert p.sessionDate == Some(d) && p.supervised == Yes && p.armed == No;
      hide StartPayload;
    case ObserveCall(eventType, payload, today, taken) =>
      assert DatedPayload(payload, today).sessionDate == Some(DateOf(c));
      hide DatedPayload;
  }

  /** What the writers record is a reachable trace. */
  lemma {:induction false} RunIsReachable(calls: seq<Call>)
    requires ValidCalls(calls)
    ensures Reachable(RunOf(calls))
  {
    if calls != [] {
      var init, c := calls[..|calls| - 1], calls[|calls| - 1];
      RunIsReachable(init);
      if Recording(RunOf(init), c).Some? {
        RecordingIsAdmissible(RunOf(init), c);
        hide Recording, Admissible;
        assert RunOf(calls)[..|RunOf(init)|] == RunOf(init);
      }
    }
  }

  /** An observed text that is not the start's name but becomes it, on an open date. */
  predicate SmugglesStart(t: Trace, c: Call) {
    && c.ObserveCall? && c.taken
    && c.eventType != "SESSION_STARTED" && Upper(Strip(c.eventType)) == "SESSION_STARTED"
    && OpenDate(t, DateOf(c))
  }

  /** No date has two starts. */
  ghost predicate OneStartEach(t: Trace) {
    forall i, j :: 0 <= i < j < |t| && t[i].kind == SessionStarted && t[j].kind == SessionStarted ==>
      t[i].payload.sessionDate != t[j].payload.sessionDate
  }

  lemma OneStartEachMeans(t: Trace, d: string)
    requires OneStartEach(t)
    ensures |Positions(t, d, SessionStarted)| <= 1
  {
    var starts := Positions(t, d, SessionStarted);
    if s :| s in starts {
      forall x | x in starts ensures x == s {}
      assert starts == {s};
    }
  }

  lemma OneMoreEvent(t: Trace, e: Ev)
    ensures OneStartEach(t + [e]) <==>
      && OneStartEach(t)
      && (e.kind == SessionStarted ==>
            forall i :: 0 <= i < |t| && t[i].kind == SessionStarted ==>
              t[i].payload.sessionDate != e.payload.sessionDate)
  {
    var all := t + [e];
    assert forall i :: 0 <= i < |t| ==> all[i] == t[i];
    assert all[|t|] == e;
  }

  lemma StartNamed(eventType: string)
    ensures KindOf(eventType) == SessionStarted <==> Upper(Strip(eventType)) == "SESSION_STARTED"
  {
    hide Upper, Strip;
  }

  /** A call adds a second start to some date exactly where it smuggles one in. */
  lemma SecondStart(t: Trace, c: Call)
    requires OneStartEach(t)
    ensures OneStartEach(After(t, c)) <==> !SmugglesStart(t, c)
  {
    hide KindOf, CapabilityPayload, Upper, Strip;
    if c.ObserveCall? {
      StartNamed(c.eventType);
      if SmugglesStart(t, c) {
        var e := Recording(t, c).value;
        var s :| s in Positions(t, DateOf(c), SessionStarted);
        assert t[s].kind == SessionStarted && t[s].payload.sessionDate == e.payload.sessionDate;
      }
    }
    if Recording(t, c).Some? {
      OneMoreEvent(t, Recording(t, c).value);
      hide OneStartEach;
      if c.StartCall? { assert StartPayload(c.sessionDay).sessionDate == Some(c.sessionDay); }
    }
  }

  lemma RunUnfolds(calls: seq<Call>)
    requires calls != []
    ensures RunOf(calls) == After(RunOf(calls[..|calls| - 1]), calls[|calls| - 1])
  {
  }

  ghost predicate NoneSmuggled(calls: seq<Call>) {
    forall i :: 0 <= i < |calls| ==> !SmugglesStart(RunOf(calls[..i]), calls[i])
  }

  lemma NoneSmuggledStep(calls: seq<Call>)
    requires calls != []
    ensures var init := calls[..|calls| - 1];
      NoneSmuggled(calls) <==> NoneSmuggled(init) && !SmugglesStart(RunOf(init), calls[|calls| - 1])
  {
    hide SmugglesStart, RunOf;
    var init := calls[..|calls| - 1];
    forall i | 0 <= i < |init| ensures init[..i] == calls[..i] && init[i] == calls[i] {}
  }

  /**
   In every run each date has at most one start if and only if no observed text on an open
   date, other than the start's own name, normalises to that name.
   */
  lemma {:induction false} OneStartIffNoneSmuggled(calls: seq<Call>)
    ensures OneStartEach(RunOf(calls)) <==> NoneSmuggled(calls)
  {
    if calls != [] {
      var init, c := calls[..|calls| - 1], calls[|calls| - 1];
      OneStartIffNoneSmuggled(init);
      NoneSmuggledStep(calls);
      RunUnfolds(calls);
      hide RunOf, NoneSmuggled, SmugglesStart, OneStartEach, Recording;
      var t := RunOf(init);
      if Recording(t, c).Some? { OneMoreEvent(t, Recording(t, c).value); }
      if OneStartEach(t) { SecondStart(t, c); }
    }
  }

  /** The call a writer was given, with the journal's verdict on it. */
  function WithVerdict(c: Call, taken: bool): Call {
    match c
    case PrepareCall(sha, _) => PrepareCall(sha, taken)
    case StartCall(d, checksPass, _) => StartCall(d, checksPass, taken)
    case ObserveCall(eventType, payload, today, _) => ObserveCall(eventType, payload, today, taken)
  }

  lemma RefusedKeepsTrace(t: Trace, c: Call)
    ensures After(t, WithVerdict(c, false)) == t
  {
  }

  lemma PrepareTaken(t: Trace, c: Call)
    requires c.PrepareCall?
    ensures After(t, WithVerdict(c, true)) == t + [Ev(CapabilityVerified, CapabilityPayload(c.evidenceSha))]
  {
    hide CapabilityPayload;
  }

  lemma StartTaken(t: Trace, c: Call)
    requires c.StartCall? && c.checksPass && CapabilityRecorded(t) && forall i :: !Dated(t, c.sessionDay, i)
    ensures After(t, WithVerdict(c, true)) == t + [Ev(SessionStarted, StartPayload(c.sessionDay))]
  {
    hide StartPayload;
    forall i | 0 <= i < |t| ensures t[i].payload.sessionDate != Some(c.sessionDay) {
      assert !Dated(t, c.sessionDay, i);
    }
  }

  lemma ObserveTaken(t: Trace, c: Call)
    requires c.ObserveCall? && c.eventType != "SESSION_STARTED" && !KindOf(c.eventType).Unlisted?
    requires OpenDate(t, DateOf(c))
    ensures After(t, WithVerdict(c, true)) == t + [Ev(KindOf(c.eventType), DatedPayload(c.payload, c.today))]
  {
    hide KindOf;
  }

  /** The journal took the event, and readers find its row. */
  predicate Taken(g: Gate4EvidenceCollector, r: Result<Ev, GateRefusal>, stamp: Stamp) {
    r.Ok? && g.Found(r.value, stamp) == [r.value]
  }

  /** The writers themselves: each call records what `After` says, with the verdict the journal gives. */
  method Perform(g: Gate4EvidenceCollector, c: Call, stamp: Stamp) returns (r: Result<Ev, GateRefusal>)
    requires g.journal.cfg.allowed == GATE4_EVIDENCE_EVENTS
    requires c.StartCall? ==> c.sessionDay != ""
    modifies g.journal, g.journal.file
    ensures g.Recorded() == After(old(g.Recorded()), WithVerdict(c, Taken(g, r, stamp)))
  {
    hide After, WithVerdict, KindOf, OpenDate, CapabilityRecorded, CapabilityPayload, StartPayload;
    ghost var t := g.Recorded();
    RefusedKeepsTrace(t, c);
    match c
    case PrepareCall(sha, _) =>
      r := g.Prepare(sha, stamp);
      PrepareTaken(t, c);
    case StartCall(d, checksPass, _) =>
      r := g.StartSession(d, checksPass, stamp);
      if r.Ok? { StartTaken(t, c); }
    case ObserveCall(eventType, payload, today, _) =>
      r := g.Observe(eventType, payload, today, stamp);
      if r.Ok? { ObserveTaken(t, c); }
  }

  // ---------------------------------------------------------------- the smuggled start

  lemma Grows(calls: seq<Call>, t: Trace, c: Call) returns (more: seq<Call>, u: Trace)
    requires RunOf(calls) == t && ValidCalls(calls) && (c.StartCall? ==> c.sessionDay != "")
    ensures more == calls + [c] && u == After(t, c) && RunOf(more) == u && ValidCalls(more)
  {
    more, u := calls + [c], After(t, c);
    assert more[..|more| - 1] == calls;
  }

  lemma LowerCaseName()
    ensures KindOf("session_started") == SessionStarted
  {
    StripFixed("session_started");
    assert Upper("session_started") == "SESSION_STARTED";
  }

  lemma PrepareRecords(t: Trace) returns (e: Ev)
    ensures After(t, PrepareCall("", true)) == t + [e]
    ensures e.kind == CapabilityVerified && e.payload.verified == Yes && e.payload.sessionDate == None
  {
    e := Ev(CapabilityVerified, CapabilityPayload(""));
  }

  lemma StartRecords(t: Trace, d: string) returns (e: Ev)
    requires CapabilityRecorded(t) && DateIsEmpty(t, d)
    ensures After(t, StartCall(d, true, true)) == t + [e]
    ensures e.kind == SessionStarted && e.payload.sessionDate == Some(d)
  {
    e := Ev(SessionStarted, StartPayload(d));
  }

  lemma OpenedTrace(e: Ev, f: Ev, d: string)
    requires e.payload.sessionDate == None && f.kind == SessionStarted && f.payload.sessionDate == Some(d)
    ensures Positions([e, f], d, SessionStarted) == {1} && Positions([e, f], d, SessionEnded) == {}
  {
  }

  /** `prepare` and `start_session` open a date. */
  lemma OpenedRun(d: string) returns (calls: seq<Call>)
    requires d != ""
    ensures ValidCalls(calls) && |RunOf(calls)| == 2
    ensures Positions(RunOf(calls), d, SessionStarted) == {1} && Positions(RunOf(calls), d, SessionEnded) == {}
  {
    assert RunOf([]) == [] && ValidCalls([]);
    hide After, RunOf, ValidCalls, Positions;
    var e := PrepareRecords([]);
    var t;
    calls, t := Grows([], [], PrepareCall("", true));
    assert t == [e] && t[0] == e;
    var f := StartRecords(t, d);
    hide CapabilityRecorded, DateIsEmpty;
    calls, t := Grows(calls, t, StartCall(d, true, true));
    OpenedTrace(e, f, d);
    assert t == [e, f];
  }

  lemma ObserveRecords(t: Trace, eventType: string, payload: Payload, d: string)
    requires eventType != "SESSION_STARTED" && KindOf(eventType) == SessionStarted
    requires payload.sessionDate == Some(d) && OpenDate(t, d)
    ensures After(t, ObserveCall(eventType, payload, d, true)) == t + [Ev(SessionStarted, payload)]
  {
    hide KindOf;
  }

  /** It exists: a lower-case name opens a second session on an open date, which then cannot end. */
  lemma LowerCaseStart(d: string, payload: Payload) returns (calls: seq<Call>)
    requires d != "" && payload.sessionDate == Some(d)
    ensures ValidCalls(calls) && |Positions(RunOf(calls), d, SessionStarted)| == 2
    ensures forall more :: Reachable(RunOf(calls) + more) ==> Positions(RunOf(calls) + more, d, SessionEnded) == {}
  {
    hide After, RunOf, ValidCalls, Positions, KindOf, Reachable;
    LowerCaseName();
    calls := OpenedRun(d);
    var t, e := RunOf(calls), Ev(SessionStarted, payload);
    assert |{1}| == 1;
    ObserveRecords(t, "session_started", payload, d);
    PositionsGrow(t, e, d, SessionStarted);
    calls, t := Grows(calls, t, ObserveCall("session_started", payload, d, true));
    assert Positions(t, d, SessionStarted) == {1, 2};
    forall more | Reachable(t + more) ensures Positions(t + more, d, SessionEnded) == {} {
      TwoStartsNeverEnd(t, more, d);
    }
  }
}
