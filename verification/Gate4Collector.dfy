/**
 The Gate-4 trace reducer (gate4/collector.py): from a journal trace to the evidence the
 report validator reads.

 What the evidence means is said over positions of the trace. `Qualifying` is the set of
 positions inside closed supervised sessions; `Earlier` is the order in which the reducer
 lines them up, by session date and then by position.
 */
module Gate4Collector {
  import opened Common
  import opened Ordering
  import opened EvidenceJournal
  import opened Gate4Events

  // ---------------------------------------------------------------- sessions and windows

  /** A session with exactly one start and one end, in that order, started as supervised. */
  ghost predicate ClosedSession(t: Trace, d: string, s: int, e: int) {
    && d != ""
    && Positions(t, d, SessionStarted) == {s}
    && Positions(t, d, SessionEnded) == {e}
    && s < e
    && t[s].payload.supervised == Yes
  }

  ghost predicate Closed(t: Trace, d: string) {
    exists s, e :: ClosedSession(t, d, s, e)
  }

  /** Positions of one kind inside the window of a closed session. */
  ghost predicate InWindow(t: Trace, d: string, s: int, e: int, k: Kind, i: int) {
    s <= i <= e && Dated(t, d, i) && t[i].kind == k
  }

  ghost predicate Qualifies(t: Trace, i: int) {
    && 0 <= i < |t|
    && t[i].payload.sessionDate.Some?
    && exists s, e :: ClosedSession(t, t[i].payload.sessionDate.value, s, e) && s <= i <= e
  }

  ghost function Qualifying(t: Trace): set<int> {
    set i | 0 <= i < |t| && Qualifies(t, i)
  }

  ghost function QualifyingOf(t: Trace, k: Kind): set<int> {
    set i | 0 <= i < |t| && Qualifies(t, i) && t[i].kind == k
  }

  function DateAt(t: Trace, i: int): string {
    if 0 <= i < |t| && t[i].payload.sessionDate.Some? then t[i].payload.sessionDate.value else ""
  }

  /** The order in which the reducer lines up qualifying positions. */
  predicate Earlier(t: Trace, i: int, j: int) {
    if DateAt(t, i) == DateAt(t, j) then i < j else LexLeq(DateAt(t, i), DateAt(t, j))
  }

  /** `q` lists exactly the positions satisfying membership in `s`, in the reducer's order. */
  ghost predicate Lists(t: Trace, q: seq<int>, s: set<int>) {
    && (forall i :: i in q <==> i in s)
    && (forall a, b :: 0 <= a < b < |q| ==> Earlier(t, q[a], q[b]))
  }

  // ---------------------------------------------------------------- per-session conditions

  ghost predicate ArmedAfterActive(t: Trace, d: string, s: int, e: int) {
    exists a, m ::
      && InWindow(t, d, s, e, RuntimeActive, a) && InWindow(t, d, s, e, ManualArm, m) && a < m
      && (forall x :: InWindow(t, d, s, e, ManualArm, x) ==> m <= x)
      && t[m].payload.source == ManualUi
  }

  ghost predicate LifecycleAgrees(t: Trace, d: string, s: int, e: int) {
    && (exists c :: InWindow(t, d, s, e, LifecycleComparison, c))
    && (forall c :: InWindow(t, d, s, e, LifecycleComparison, c) ==> t[c].payload.agrees == Yes)
  }

  ghost predicate EntriesAfterArm(t: Trace, d: string, s: int, e: int) {
    forall x :: InWindow(t, d, s, e, EntryCandidate, x) ==>
      exists m :: InWindow(t, d, s, e, ManualArm, m) && m < x
  }

  ghost predicate Reconciled(t: Trace, d: string, s: int, e: int) {
    && (exists r ::
          && InWindow(t, d, s, e, FinalReconciliation, r)
          && (forall x :: InWindow(t, d, s, e, FinalReconciliation, x) ==> x <= r)
          && t[r].payload.matchesBroker == Yes && r < e)
    && 0 <= e < |t| && t[e].payload.cleanShutdown == Yes
  }

  datatype SessionFacts = SessionFacts(
    window: seq<int>, startedDisarmed: bool, armedAfterActive: bool, lifecycleAgrees: bool,
    entriesAfterArm: bool, reconciled: bool)

  ghost predicate FactsOf(t: Trace, d: string, s: int, e: int, f: SessionFacts) {
    && (forall i :: i in f.window <==> s <= i <= e && Dated(t, d, i))
    && Ascending(f.window)
    && (f.startedDisarmed <==> 0 <= s < |t| && t[s].payload.armed == No)
    && (f.armedAfterActive <==> ArmedAfterActive(t, d, s, e))
    && (f.lifecycleAgrees <==> LifecycleAgrees(t, d, s, e))
    && (f.entriesAfterArm <==> EntriesAfterArm(t, d, s, e))
    && (f.reconciled <==> Reconciled(t, d, s, e))
  }

  // ---------------------------------------------------------------- list comprehensions

  /** `[x for x in s if p(x)]`. */
  function Pick<T>(s: seq<T>, p: T -> bool): seq<T> {
    if s == [] then []
    else Pick(s[..|s| - 1], p) + if p(s[|s| - 1]) then [s[|s| - 1]] else []
  }

  lemma {:induction false} PickMembers<T>(s: seq<T>, p: T -> bool)
    ensures forall x :: x in Pick(s, p) <==> x in s && p(x)
    ensures |Pick(s, p)| <= |s|
  {
    if s != [] {
      assert s == s[..|s| - 1] + [s[|s| - 1]];
      PickMembers(s[..|s| - 1], p);
    }
  }

  /** A relation that holds along a list holds along what is picked from it. */
  lemma {:induction false} PickKeepsOrder<T(!new)>(s: seq<T>, p: T -> bool, r: (T, T) -> bool)
    requires forall a, b :: 0 <= a < b < |s| ==> r(s[a], s[b])
    ensures forall a, b :: 0 <= a < b < |Pick(s, p)| ==> r(Pick(s, p)[a], Pick(s, p)[b])
  {
    if s != [] {
      var init := s[..|s| - 1];
      PickKeepsOrder(init, p, r);
      PickMembers(init, p);
      var picked := Pick(init, p);
      forall a | 0 <= a < |picked| ensures r(picked[a], s[|s| - 1]) {
        assert picked[a] in init;
        var i :| 0 <= i < |init| && init[i] == picked[a];
        assert s[i] == init[i];
      }
    }
  }

  ghost function Picked(s: seq<int>, p: int -> bool): set<int> {
    set x: int | x in s && p(x)
  }

  /** Picking from a list without repetitions counts the set of picked elements. */
  lemma {:induction false} PickCounts(s: seq<int>, p: int -> bool)
    requires Distinct(s)
    ensures |Pick(s, p)| == |Picked(s, p)|
  {
    if s == [] {
      assert Picked(s, p) == {};
    } else {
      var init, last := s[..|s| - 1], s[|s| - 1];
      assert s == init + [last];
      PickCounts(init, p);
      assert last !in init;
      assert Picked(s, p) == Picked(init, p) + if p(last) then {last} else {};
    }
  }

  predicate Below(a: int, b: int) { a < b }

  ghost predicate Ascending(s: seq<int>) {
    forall a, b :: 0 <= a < b < |s| ==> s[a] < s[b]
  }

  lemma {:induction false} PickAscending(s: seq<int>, p: int -> bool)
    requires Ascending(s)
    ensures Ascending(Pick(s, p))
    ensures forall x :: x in Pick(s, p) <==> x in s && p(x)
  {
    PickKeepsOrder(s, p, Below);
    PickMembers(s, p);
    assert forall a, b :: 0 <= a < b < |Pick(s, p)| ==> Below(Pick(s, p)[a], Pick(s, p)[b]);
  }

  // ---------------------------------------------------------------- one session

  method OfKindIn(t: Trace, window: seq<int>, k: Kind) returns (r: seq<int>)
    requires forall i :: i in window ==> 0 <= i < |t|
    requires Ascending(window)
    ensures forall i :: i in r <==> i in window && t[i].kind == k
    ensures Ascending(r)
  {
    var p := (i: int) => 0 <= i < |t| && t[i].kind == k;
    r := Pick(window, p);
    PickAscending(window, p);
  }

  /** The closed supervised session of a date, if there is one: its start, its end, its window. */
  method FindSession(t: Trace, d: string) returns (r: Option<(int, int, seq<int>)>)
    requires d != ""
    ensures r.None? ==> !Closed(t, d)
    ensures r.Some? ==>
      && ClosedSession(t, d, r.value.0, r.value.1)
      && (forall i :: i in r.value.2 <==> r.value.0 <= i <= r.value.1 && Dated(t, d, i))
      && Ascending(r.value.2)
  {
    var onDate := (i: int) => Dated(t, d, i);
    var all := seq(|t|, i => i);
    var dated := Pick(all, onDate);
    PickAscending(all, onDate);
    forall i ensures i in dated <==> Dated(t, d, i) {
      if 0 <= i < |t| { assert all[i] == i; }
    }
    var starts := OfKindIn(t, dated, SessionStarted);
    var ends := OfKindIn(t, dated, SessionEnded);
    SinglePosition(t, d, SessionStarted, starts);
    SinglePosition(t, d, SessionEnded, ends);
    if |starts| != 1 || |ends| != 1 || ends[0] <= starts[0] { return None; }
    var s, e := starts[0], ends[0];
    assert s in starts && e in ends;
    if t[s].payload.supervised != Yes { return None; }
    var inside := (i: int) => s <= i <= e;
    var window := Pick(dated, inside);
    PickAscending(dated, inside);
    r := Some((s, e, window));
  }

  /** One round of the loop over session dates: nothing, or the window and its verdicts. */
  method ReduceSession(t: Trace, d: string) returns (r: Option<SessionFacts>)
    requires d != ""
    ensures r.None? ==> !Closed(t, d)
    ensures r.Some? ==> exists s, e :: ClosedSession(t, d, s, e) && FactsOf(t, d, s, e, r.value)
  {
    var found := FindSession(t, d);
    if found.None? { return None; }
    var (s, e, window) := found.value;
    assert s in Positions(t, d, SessionStarted) && e in Positions(t, d, SessionEnded);
    var facts := JudgeWindow(t, d, s, e, window);
    r := Some(facts);
  }

  method KindInWindow(t: Trace, d: string, s: int, e: int, window: seq<int>, k: Kind) returns (r: seq<int>)
    requires forall i :: i in window <==> s <= i <= e && Dated(t, d, i)
    requires Ascending(window)
    ensures Holds(t, d, s, e, k, r)
  {
    r := OfKindIn(t, window, k);
  }

  method JudgeWindow(t: Trace, d: string, s: int, e: int, window: seq<int>) returns (f: SessionFacts)
    requires 0 <= s < e < |t|
    requires forall i :: i in window <==> s <= i <= e && Dated(t, d, i)
    requires Ascending(window)
    ensures FactsOf(t, d, s, e, f)
  {
    var arms := KindInWindow(t, d, s, e, window, ManualArm);
    var armed := JudgeArming(t, d, s, e, window, arms);
    var lifecycle := JudgeLifecycle(t, d, s, e, window);
    var afterArm := JudgeEntries(t, d, s, e, window, arms);
    var reconciled := JudgeReconciliation(t, d, s, e, window);
    f := SessionFacts(window, t[s].payload.armed == No, armed, lifecycle, afterArm, reconciled);
  }

  method JudgeArming(t: Trace, d: string, s: int, e: int, window: seq<int>, arms: seq<int>) returns (r: bool)
    requires forall i :: i in window <==> s <= i <= e && Dated(t, d, i)
    requires Ascending(window) && Holds(t, d, s, e, ManualArm, arms)
    ensures r <==> ArmedAfterActive(t, d, s, e)
  {
    var active := KindInWindow(t, d, s, e, window, RuntimeActive);
    assert |arms| > 0 ==> arms[0] in arms;
    r := |active| > 0 && |arms| > 0 && arms[0] > active[0] && t[arms[0]].payload.source == ManualUi;
    ArmedMeans(t, d, s, e, active, arms);
  }

  method JudgeLifecycle(t: Trace, d: string, s: int, e: int, window: seq<int>) returns (r: bool)
    requires forall i :: i in window <==> s <= i <= e && Dated(t, d, i)
    requires Ascending(window)
    ensures r <==> LifecycleAgrees(t, d, s, e)
  {
    var comparisons := KindInWindow(t, d, s, e, window, LifecycleComparison);
    r := |comparisons| > 0 && forall c :: c in comparisons ==> t[c].payload.agrees == Yes;
    if |comparisons| > 0 { assert comparisons[0] in comparisons; }
  }

  method JudgeEntries(t: Trace, d: string, s: int, e: int, window: seq<int>, arms: seq<int>) returns (r: bool)
    requires forall i :: i in window <==> s <= i <= e && Dated(t, d, i)
    requires Ascending(window) && Holds(t, d, s, e, ManualArm, arms)
    ensures r <==> EntriesAfterArm(t, d, s, e)
  {
    var entries := KindInWindow(t, d, s, e, window, EntryCandidate);
    r := |entries| == 0 || (|arms| > 0 && forall x :: x in entries ==> x > arms[0]);
    if |arms| > 0 { assert arms[0] in arms; }
    if |entries| > 0 { assert entries[0] in entries; }
  }

  method JudgeReconciliation(t: Trace, d: string, s: int, e: int, window: seq<int>) returns (r: bool)
    requires 0 <= e < |t|
    requires forall i :: i in window <==> s <= i <= e && Dated(t, d, i)
    requires Ascending(window)
    ensures r <==> Reconciled(t, d, s, e)
  {
    var rows := KindInWindow(t, d, s, e, window, FinalReconciliation);
    assert |rows| > 0 ==> rows[|rows| - 1] in rows;
    r := |rows| > 0 && t[rows[|rows| - 1]].payload.matchesBroker == Yes
      && rows[|rows| - 1] < e && t[e].payload.cleanShutdown == Yes;
    ReconciledMeans(t, d, s, e, rows);
  }

  ghost predicate Holds(t: Trace, d: string, s: int, e: int, k: Kind, r: seq<int>) {
    && (forall i :: i in r <==> InWindow(t, d, s, e, k, i))
    && Ascending(r)
  }

  lemma SinglePosition(t: Trace, d: string, k: Kind, r: seq<int>)
    requires forall i :: i in r <==> Dated(t, d, i) && t[i].kind == k
    requires Ascending(r)
    ensures |r| == 1 ==> Positions(t, d, k) == {r[0]}
    ensures |r| != 1 ==> forall x :: Positions(t, d, k) != {x}
  {
    var p := Positions(t, d, k);
    assert forall i :: i in p <==> i in r;
    if |r| == 0 {
      assert p == {};
    } else if |r| > 1 {
      assert r[0] in r && r[1] in r;
      assert r[0] in p && r[1] in p && r[0] != r[1];
    } else {
      assert r == [r[0]];
    }
  }

  lemma ArmedMeans(t: Trace, d: string, s: int, e: int, active: seq<int>, arms: seq<int>)
    requires Holds(t, d, s, e, RuntimeActive, active) && Holds(t, d, s, e, ManualArm, arms)
    ensures ArmedAfterActive(t, d, s, e) <==>
      |active| > 0 && |arms| > 0 && arms[0] > active[0] && arms[0] in arms && t[arms[0]].payload.source == ManualUi
  {
    if |active| > 0 && |arms| > 0 && arms[0] > active[0] {
      assert active[0] in active && arms[0] in arms;
    }
    if ArmedAfterActive(t, d, s, e) {
      var a, m :| && InWindow(t, d, s, e, RuntimeActive, a) && InWindow(t, d, s, e, ManualArm, m) && a < m
        && (forall x :: InWindow(t, d, s, e, ManualArm, x) ==> m <= x) && t[m].payload.source == ManualUi;
      assert a in active && m in arms;
      assert arms[0] in arms && active[0] in active;
      assert m <= arms[0];
    }
  }

  lemma ReconciledMeans(t: Trace, d: string, s: int, e: int, r: seq<int>)
    requires Holds(t, d, s, e, FinalReconciliation, r) && 0 <= e < |t|
    ensures Reconciled(t, d, s, e) <==>
      |r| > 0 && r[|r| - 1] in r && t[r[|r| - 1]].payload.matchesBroker == Yes && r[|r| - 1] < e
      && t[e].payload.cleanShutdown == Yes
  {
    if |r| > 0 {
      var l := r[|r| - 1];
      assert l in r && InWindow(t, d, s, e, FinalReconciliation, l);
      forall x | InWindow(t, d, s, e, FinalReconciliation, x) ensures x <= l {
        assert x in r;
      }
      if Reconciled(t, d, s, e) {
        var m :| && InWindow(t, d, s, e, FinalReconciliation, m)
          && (forall x :: InWindow(t, d, s, e, FinalReconciliation, x) ==> x <= m)
          && t[m].payload.matchesBroker == Yes && m < e;
        assert l <= m;
      }
    }
  }
}
