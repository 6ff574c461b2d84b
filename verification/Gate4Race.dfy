/**
 Writers that do not hold a lock across guard and append. The source reads the journal in its
 guard and appends afterwards, from several threads and from a separate process, so another
 event may be recorded in between.
 */
module Gate4Race {
  import opened Common
  import opened EvidenceJournal
  import opened Gate4Events
  import opened Gate4Collector
  import opened Gate4Evidence
  import opened Gate4Runs

  /** Events whose guard has passed wait to be appended. */
  datatype Race = Race(trace: Trace, pending: multiset<Ev>)

  datatype Move = Check(event: Ev) | Commit(event: Ev)

  ghost predicate Enabled(s: Race, m: Move) {
    match m
    case Check(e) => Admissible(s.trace, e)
    case Commit(e) => e in s.pending
  }

  function Moved(s: Race, m: Move): Race {
    match m
    case Check(e) => Race(s.trace, s.pending + multiset{e})
    case Commit(e) => Race(s.trace + [e], s.pending - multiset{e})
  }

  function StateAfter(start: Trace, moves: seq<Move>): Race {
    if moves == [] then Race(start, multiset{}) else Moved(StateAfter(start, moves[..|moves| - 1]), moves[|moves| - 1])
  }

  ghost predicate RaceRun(start: Trace, moves: seq<Move>) {
    moves == []
    || (RaceRun(start, moves[..|moves| - 1])
        && Enabled(StateAfter(start, moves[..|moves| - 1]), moves[|moves| - 1]))
  }

  /** Nothing of a date is recorded after its end. */
  ghost predicate EndsLast(t: Trace) {
    forall i, j :: 0 <= i < j < |t| && t[i].kind == SessionEnded ==>
      t[j].payload.sessionDate != t[i].payload.sessionDate
  }

  /** An end is appended only while no other event of its date waits. */
  ghost predicate CleanEnd(s: Race, m: Move) {
    m.Commit? && m.event.kind == SessionEnded ==>
      forall x :: x in s.pending - multiset{m.event} ==> x.payload.sessionDate != m.event.payload.sessionDate
  }

  ghost predicate CleanEnds(start: Trace, moves: seq<Move>) {
    forall i :: 0 <= i < |moves| ==> CleanEnd(StateAfter(start, moves[..i]), moves[i])
  }

  // ---------------------------------------------------------------- clean ends are enough

  ghost predicate Unended(t: Trace, date: Option<string>) {
    forall i :: 0 <= i < |t| && t[i].kind == SessionEnded ==> t[i].payload.sessionDate != date
  }

  /** Ends have dates, they come last, and nothing waits for a date that has ended. */
  ghost predicate Orderly(s: Race) {
    && EndsLast(s.trace)
    && Unended(s.trace, None)
    && (forall x :: x in s.pending ==> Unended(s.trace, x.payload.sessionDate))
    && (forall x :: x in s.pending && x.kind == SessionEnded ==> x.payload.sessionDate.Some?)
  }

  lemma AdmittedDateIsUnended(t: Trace, e: Ev)
    requires Admissible(t, e) && Unended(t, None)
    ensures Unended(t, e.payload.sessionDate)
    ensures e.kind == SessionEnded ==> e.payload.sessionDate.Some?
  {
    if e.payload.sessionDate.Some? && OpenDate(t, e.payload.sessionDate.value) {
      forall i | 0 <= i < |t| && t[i].kind == SessionEnded ensures t[i].payload.sessionDate != e.payload.sessionDate {
        assert i !in Positions(t, e.payload.sessionDate.value, SessionEnded);
      }
    }
  }

  lemma OneMoreEnd(t: Trace, e: Ev)
    ensures EndsLast(t + [e]) <==> EndsLast(t) && Unended(t, e.payload.sessionDate)
    ensures forall date :: Unended(t + [e], date) <==>
      Unended(t, date) && (e.kind == SessionEnded ==> e.payload.sessionDate != date)
  {
    var all := t + [e];
    assert all[|t|] == e && forall i :: 0 <= i < |t| ==> all[i] == t[i];
  }

  lemma OrderlyKept(s: Race, m: Move)
    requires Orderly(s) && Enabled(s, m) && CleanEnd(s, m)
    ensures Orderly(Moved(s, m))
  {
    hide Admissible, EndsLast, Unended;
    match m
    case Check(e) => AdmittedDateIsUnended(s.trace, e);
    case Commit(e) => OneMoreEnd(s.trace, e);
  }

  lemma {:induction false} ReachableIsOrderly(t: Trace)
    requires Reachable(t)
    ensures Orderly(Race(t, multiset{}))
  {
    if t != [] {
      var init, e := t[..|t| - 1], t[|t| - 1];
      ReachableIsOrderly(init);
      AdmittedDateIsUnended(init, e);
      OneMoreEnd(init, e);
      assert t == init + [e];
      hide EndsLast, Unended, Admissible;
    }
  }

  lemma CleanSoFar(start: Trace, moves: seq<Move>)
    requires CleanEnds(start, moves) && moves != []
    ensures var init := moves[..|moves| - 1];
      CleanEnds(start, init) && CleanEnd(StateAfter(start, init), moves[|moves| - 1])
  {
    hide CleanEnd, StateAfter;
    var init := moves[..|moves| - 1];
    forall i | 0 <= i < |init| ensures init[..i] == moves[..i] && init[i] == moves[i] {}
  }

  lemma {:induction false} CleanRunIsOrderly(start: Trace, moves: seq<Move>)
    requires Reachable(start) && RaceRun(start, moves) && CleanEnds(start, moves)
    ensures Orderly(StateAfter(start, moves))
  {
    hide Orderly, CleanEnd, CleanEnds, Enabled, Moved, Reachable;
    if moves == [] {
      ReachableIsOrderly(start);
    } else {
      var init, last := moves[..|moves| - 1], moves[|moves| - 1];
      CleanSoFar(start, moves);
      CleanRunIsOrderly(start, init);
      OrderlyKept(StateAfter(start, init), last);
    }
  }

  // ---------------------------------------------------------------- and needed

  /** What waits is still waiting, or has been recorded since. */
  lemma {:induction false} PendingLands(start: Trace, moves: seq<Move>, k: nat, x: Ev)
    requires k <= |moves| && x in StateAfter(start, moves[..k]).pending
    ensures var s, before := StateAfter(start, moves), StateAfter(start, moves[..k]).trace;
      && before <= s.trace
      && (x in s.pending || exists j :: |before| <= j < |s.trace| && s.trace[j] == x)
  {
    if k == |moves| {
      assert moves[..k] == moves;
    } else {
      var init, m := moves[..|moves| - 1], moves[|moves| - 1];
      assert init[..k] == moves[..k];
      PendingLands(start, init, k, x);
      var s, t := StateAfter(start, init), StateAfter(start, moves);
      var before := StateAfter(start, moves[..k]).trace;
      assert t == Moved(s, m);
      if m == Commit(x) && x !in t.pending {
        assert t.trace[|s.trace|] == x;
      } else if j :| |before| <= j < |s.trace| && s.trace[j] == x {
        assert t.trace[j] == x;
      }
    }
  }

  lemma UncleanEndIsOvertaken(start: Trace, moves: seq<Move>, k: nat)
    requires RaceRun(start, moves) && StateAfter(start, moves).pending == multiset{}
    requires k < |moves| && !CleanEnd(StateAfter(start, moves[..k]), moves[k])
    ensures !EndsLast(StateAfter(start, moves).trace)
  {
    hide RaceRun, StateAfter;
    var s, e := StateAfter(start, moves[..k]), moves[k].event;
    var x :| x in s.pending - multiset{e} && x.payload.sessionDate == e.payload.sessionDate;
    NextState(start, moves, k);
    var next := StateAfter(start, moves[..k + 1]);
    assert next == Race(s.trace + [e], s.pending - multiset{e});
    PendingLands(start, moves, k + 1, x);
    var all := StateAfter(start, moves).trace;
    var j :| |next.trace| <= j < |all| && all[j] == x;
    assert all[|s.trace|] == next.trace[|s.trace|] == e;
  }

  lemma NextState(start: Trace, moves: seq<Move>, k: nat)
    requires k < |moves|
    ensures StateAfter(start, moves[..k + 1]) == Moved(StateAfter(start, moves[..k]), moves[k])
  {
    assert moves[..k + 1][..k] == moves[..k];
  }

  /**
   In every run whose guarded events have all been appended, each end is the last event of its
   date if and only if no end was appended while another event of its date was waiting.
   */
  lemma EndsLastIffCleanEnds(start: Trace, moves: seq<Move>)
    requires Reachable(start) && RaceRun(start, moves) && StateAfter(start, moves).pending == multiset{}
    ensures EndsLast(StateAfter(start, moves).trace) <==> CleanEnds(start, moves)
  {
    hide StateAfter, RaceRun, CleanEnd, EndsLast;
    if CleanEnds(start, moves) {
      CleanRunIsOrderly(start, moves);
    } else {
      var k :| 0 <= k < |moves| && !CleanEnd(StateAfter(start, moves[..k]), moves[k]);
      UncleanEndIsOvertaken(start, moves, k);
    }
  }

  // ---------------------------------------------------------------- one start for each date

  ghost predicate Unstarted(t: Trace, date: Option<string>) {
    forall i :: 0 <= i < |t| && t[i].kind == SessionStarted ==> t[i].payload.sessionDate != date
  }

  /** No start passes its guard on a date that has one, and none is appended while another of its date waits. */
  ghost predicate CleanStart(s: Race, m: Move) {
    match m
    case Check(e) => e.kind == SessionStarted ==> Unstarted(s.trace, e.payload.sessionDate)
    case Commit(e) =>
      e.kind == SessionStarted ==>
        forall x :: x in s.pending - multiset{e} && x.kind == SessionStarted ==>
          x.payload.sessionDate != e.payload.sessionDate
  }

  ghost predicate CleanStarts(start: Trace, moves: seq<Move>) {
    forall i :: 0 <= i < |moves| ==> CleanStart(StateAfter(start, moves[..i]), moves[i])
  }

  /** No date has two starts, and no start waits for a date that has one. */
  ghost predicate StartsApart(s: Race) {
    && OneStartEach(s.trace)
    && forall x :: x in s.pending && x.kind == SessionStarted ==> Unstarted(s.trace, x.payload.sessionDate)
  }

  lemma OneMoreStart(t: Trace, e: Ev)
    ensures OneStartEach(t + [e]) <==>
      OneStartEach(t) && (e.kind == SessionStarted ==> Unstarted(t, e.payload.sessionDate))
    ensures forall date :: Unstarted(t + [e], date) <==>
      Unstarted(t, date) && (e.kind == SessionStarted ==> e.payload.sessionDate != date)
  {
    OneMoreEvent(t, e);
    hide OneStartEach;
    var all := t + [e];
    assert all[|t|] == e && forall i :: 0 <= i < |t| ==> all[i] == t[i];
  }

  lemma StartsStayApart(s: Race, m: Move)
    requires StartsApart(s) && Enabled(s, m) && CleanStart(s, m)
    ensures StartsApart(Moved(s, m))
  {
    hide Admissible, OneStartEach, Unstarted;
    if m.Commit? { OneMoreStart(s.trace, m.event); }
  }

  lemma CleanStartsSoFar(start: Trace, moves: seq<Move>)
    requires CleanStarts(start, moves) && moves != []
    ensures var init := moves[..|moves| - 1];
      CleanStarts(start, init) && CleanStart(StateAfter(start, init), moves[|moves| - 1])
  {
    hide CleanStart, StateAfter;
    var init := moves[..|moves| - 1];
    forall i | 0 <= i < |init| ensures init[..i] == moves[..i] && init[i] == moves[i] {}
  }

  lemma {:induction false} CleanStartsStayApart(start: Trace, moves: seq<Move>)
    requires OneStartEach(start) && RaceRun(start, moves) && CleanStarts(start, moves)
    ensures StartsApart(StateAfter(start, moves))
  {
    hide CleanStart, CleanStarts, Enabled, Moved, OneStartEach;
    if moves != [] {
      var init, last := moves[..|moves| - 1], moves[|moves| - 1];
      CleanStartsSoFar(start, moves);
      CleanStartsStayApart(start, init);
      hide StartsApart;
      StartsStayApart(StateAfter(start, init), last);
    }
  }

  lemma TwoStartsOfADate(t: Trace, i: int, j: int)
    requires 0 <= i < j < |t| && t[i].kind == t[j].kind == SessionStarted
    requires t[i].payload.sessionDate == t[j].payload.sessionDate
    ensures !OneStartEach(t)
  {
  }

  lemma UncleanStartIsSecond(start: Trace, moves: seq<Move>, k: nat)
    requires StateAfter(start, moves).pending == multiset{}
    requires k < |moves| && !CleanStart(StateAfter(start, moves[..k]), moves[k])
    ensures !OneStartEach(StateAfter(start, moves).trace)
  {
    hide StateAfter, OneStartEach;
    var s, e := StateAfter(start, moves[..k]), moves[k].event;
    NextState(start, moves, k);
    var next, all := StateAfter(start, moves[..k + 1]), StateAfter(start, moves).trace;
    if moves[k].Check? {
      var i :| 0 <= i < |s.trace| && s.trace[i].kind == SessionStarted
        && s.trace[i].payload.sessionDate == e.payload.sessionDate;
      PendingLands(start, moves, k + 1, e);
      var j :| |next.trace| <= j < |all| && all[j] == e;
      assert all[i] == next.trace[i] == s.trace[i];
      TwoStartsOfADate(all, i, j);
    } else {
      var x :| x in s.pending - multiset{e} && x.kind == SessionStarted
        && x.payload.sessionDate == e.payload.sessionDate;
      assert next == Race(s.trace + [e], s.pending - multiset{e});
      PendingLands(start, moves, k + 1, x);
      var j :| |next.trace| <= j < |all| && all[j] == x;
      assert all[|s.trace|] == next.trace[|s.trace|] == e;
      TwoStartsOfADate(all, |s.trace|, j);
    }
  }

  /**
   In every run whose guarded events have all been appended, each date keeps at most one start if
   and only if no start passed its guard on a date that had one, and none was appended while
   another start of its date was waiting.
   */
  lemma OneStartIffCleanStarts(start: Trace, moves: seq<Move>)
    requires OneStartEach(start) && RaceRun(start, moves) && StateAfter(start, moves).pending == multiset{}
    ensures OneStartEach(StateAfter(start, moves).trace) <==> CleanStarts(start, moves)
  {
    hide StateAfter, RaceRun, CleanStart, OneStartEach;
    if CleanStarts(start, moves) {
      CleanStartsStayApart(start, moves);
    } else {
      var k :| 0 <= k < |moves| && !CleanStart(StateAfter(start, moves[..k]), moves[k]);
      UncleanStartIsSecond(start, moves, k);
    }
  }

  // ---------------------------------------------------------------- what a race can undo

  lemma OneMoreMove(start: Trace, moves: seq<Move>, m: Move)
    requires RaceRun(start, moves) && Enabled(StateAfter(start, moves), m)
    ensures RaceRun(start, moves + [m]) && StateAfter(start, moves + [m]) == Moved(StateAfter(start, moves), m)
  {
    assert (moves + [m])[..|moves|] == moves;
  }

  lemma GuardPasses(start: Trace, moves: seq<Move>, e: Ev) returns (more: seq<Move>)
    requires RaceRun(start, moves) && Admissible(StateAfter(start, moves).trace, e)
    ensures var s := StateAfter(start, moves);
      RaceRun(start, more) && StateAfter(start, more) == Race(s.trace, s.pending + multiset{e})
  {
    more := moves + [Check(e)];
    OneMoreMove(start, moves, Check(e));
  }

  lemma Appends(start: Trace, moves: seq<Move>, e: Ev)
    requires RaceRun(start, moves) && e in StateAfter(start, moves).pending
    ensures var s := StateAfter(start, moves);
      && RaceRun(start, moves + [Commit(e)])
      && StateAfter(start, moves + [Commit(e)]) == Race(s.trace + [e], s.pending - multiset{e})
  {
    OneMoreMove(start, moves, Commit(e));
  }

  lemma TwoGuardsThenOneAppend(t: Trace, first: Ev, second: Ev) returns (moves: seq<Move>)
    requires Admissible(t, first) && Admissible(t, second)
    ensures RaceRun(t, moves) && StateAfter(t, moves) == Race(t + [first], multiset{second})
  {
    assert RaceRun(t, []) && StateAfter(t, []) == Race(t, multiset{});
    hide Admissible, RaceRun, StateAfter;
    moves := GuardPasses(t, [], first);
    moves := GuardPasses(t, moves, second);
    assert StateAfter(t, moves).pending == multiset{first, second};
    Appends(t, moves, first);
    moves := moves + [Commit(first)];
  }

  lemma SecondEndUncloses(t: Trace, d: string, first: Ev, second: Ev)
    requires |t| in Positions(t + [first], d, SessionEnded)
    requires second.kind == SessionEnded && second.payload.sessionDate == Some(d)
    ensures !Closed(t + [first] + [second], d)
  {
    var once := t + [first];
    PositionsGrow(once, second, d, SessionEnded);
    hide Positions;
    var ends := Positions(once + [second], d, SessionEnded);
    assert |t| in ends && |t| + 1 in ends;
  }

  /**
   Two ends of an open date pass their guards together. After the first append the session is
   closed; after the second, which nothing stops, the date counts as closed no more.
   */
  lemma RacingEndsDropASession(t: Trace, d: string, s: int, first: Ev, second: Ev) returns (moves: seq<Move>)
    requires OpenDate(t, d) && ClosedSession(t + [first], d, s, |t|)
    requires second.kind == SessionEnded && second.payload.sessionDate == Some(d)
    ensures RaceRun(t, moves) && Closed(StateAfter(t, moves).trace, d)
    ensures RaceRun(t, moves + [Commit(second)]) && !Closed(StateAfter(t, moves + [Commit(second)]).trace, d)
  {
    assert |t| in Positions(t + [first], d, SessionEnded) && (t + [first])[|t|] == first;
    assert Admissible(t, first) && Admissible(t, second) by { hide OpenDate; }
    SecondEndUncloses(t, d, first, second);
    assert Closed(t + [first], d) by { hide ClosedSession; }
    hide Admissible, Closed, ClosedSession, RaceRun, StateAfter;
    moves := TwoGuardsThenOneAppend(t, first, second);
    Appends(t, moves, second);
  }

  lemma TwoStarts(t: Trace, d: string, first: Ev, second: Ev)
    requires first.kind == second.kind == SessionStarted
    requires first.payload.sessionDate == second.payload.sessionDate == Some(d)
    ensures |Positions(t + [first] + [second], d, SessionStarted)| >= 2
  {
    PositionsGrow(t, first, d, SessionStarted);
    PositionsGrow(t + [first], second, d, SessionStarted);
    hide Positions;
    var starts := Positions(t + [first] + [second], d, SessionStarted);
    assert {|t|, |t| + 1} <= starts;
    assert starts == {|t|, |t| + 1} + (starts - {|t|, |t| + 1});
  }

  /** Two starts of one date pass their guards together: both are appended, and the date can never be ended. */
  lemma RacingStartsNeverEnd(t: Trace, d: string, first: Ev, second: Ev) returns (moves: seq<Move>)
    requires Reachable(t) && OpensSession(t, first) && OpensSession(t, second)
    requires first.payload.sessionDate == second.payload.sessionDate == Some(d)
    ensures RaceRun(t, moves) && StateAfter(t, moves) == Race(t + [first] + [second], multiset{})
    ensures forall more :: Reachable(t + [first] + [second] + more) ==>
      Positions(t + [first] + [second] + more, d, SessionEnded) == {}
  {
    assert Admissible(t, first) && Admissible(t, second);
    TwoStarts(t, d, first, second);
    hide Admissible, OpensSession, RaceRun, StateAfter, Reachable, Positions;
    moves := TwoGuardsThenOneAppend(t, first, second);
    Appends(t, moves, second);
    moves := moves + [Commit(second)];
    var all := t + [first] + [second];
    forall more | Reachable(all + more) ensures Positions(all + more, d, SessionEnded) == {} {
      TwoStartsNeverEnd(all, more, d);
    }
  }
}
