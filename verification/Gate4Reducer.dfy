/** The reducer itself: the loops of `build_evidence` (gate4/collector.py), proved to derive the evidence. */
module Gate4Reducer {
  import opened Common
  import opened Ordering
  import opened EvidenceJournal
  import opened Gate4Events
  import opened Gate4Collector
  import opened Gate4Evidence

  /** Every non-blank session date, once per event. */
  function DateList(t: Trace): seq<string> {
    if t == [] then []
    else
      var d := DateAt(t, |t| - 1);
      DateList(t[..|t| - 1]) + if d != "" then [d] else []
  }

  lemma {:induction false} DateListComplete(t: Trace, d: string)
    ensures d in DateList(t) <==> d != "" && exists i :: Dated(t, d, i)
  {
    if t != [] {
      var init := t[..|t| - 1];
      DateListComplete(init, d);
      DatedSoFar(t, d);
      hide Dated;
    }
  }

  lemma DatedSoFar(t: Trace, d: string)
    requires t != []
    ensures var init := t[..|t| - 1];
      (exists i :: Dated(t, d, i)) <==> (exists i :: Dated(init, d, i)) || Dated(t, d, |t| - 1)
    ensures d != "" ==> (Dated(t, d, |t| - 1) <==> DateAt(t, |t| - 1) == d)
  {
    var init := t[..|t| - 1];
    if i :| Dated(init, d, i) { assert Dated(t, d, i); }
    if i :| Dated(t, d, i) { assert i < |init| ==> Dated(init, d, i); }
  }

  lemma ClosedDateIsListed(t: Trace, d: string, s: int, e: int)
    requires ClosedSession(t, d, s, e)
    ensures d in DateList(t)
  {
    assert s in Positions(t, d, SessionStarted);
    assert Dated(t, d, s);
    DateListComplete(t, d);
  }

  datatype Sessions = Sessions(
    dates: seq<string>, qualifying: seq<int>, startedDisarmed: bool, armedAfterActive: bool,
    lifecycleAgrees: bool, entriesAfterArm: bool, reconciled: bool)

  ghost predicate MetBy(t: Trace, dates: seq<string>, c: Condition) {
    forall d, s, e :: d in dates && ClosedSession(t, d, s, e) ==> Meets(t, d, s, e, c)
  }

  ghost predicate CollectedLists(t: Trace, seen: seq<string>, r: Sessions) {
    && StrictlySorted(r.dates)
    && (forall d :: d in r.dates <==> d in seen && Closed(t, d))
    && (forall i :: i in r.qualifying <==> Qualifies(t, i) && DateAt(t, i) in seen)
    && (forall a, b :: 0 <= a < b < |r.qualifying| ==> Earlier(t, r.qualifying[a], r.qualifying[b]))
  }

  ghost predicate CollectedVerdicts(t: Trace, seen: seq<string>, r: Sessions) {
    && (r.startedDisarmed <==> MetBy(t, seen, StartDisarmed))
    && (r.armedAfterActive <==> MetBy(t, seen, ArmAfterActive))
    && (r.lifecycleAgrees <==> MetBy(t, seen, Lifecycle))
    && (r.entriesAfterArm <==> MetBy(t, seen, EntriesArmed))
    && (r.reconciled <==> MetBy(t, seen, Reconciliation))
  }

  /** What the date loop has collected once it has seen the dates `seen`. */
  ghost predicate Collected(t: Trace, seen: seq<string>, r: Sessions) {
    CollectedLists(t, seen, r) && CollectedVerdicts(t, seen, r)
  }

  /** What one more closed session contributes. */
  function AddSession(r: Sessions, d: string, f: SessionFacts): Sessions {
    Sessions(r.dates + [d], r.qualifying + f.window,
             r.startedDisarmed && f.startedDisarmed, r.armedAfterActive && f.armedAfterActive,
             r.lifecycleAgrees && f.lifecycleAgrees, r.entriesAfterArm && f.entriesAfterArm,
             r.reconciled && f.reconciled)
  }

  lemma ClosedSessionIsUnique(t: Trace, d: string, s: int, e: int, s': int, e': int)
    requires ClosedSession(t, d, s, e) && ClosedSession(t, d, s', e')
    ensures s == s' && e == e'
  {
    assert s in Positions(t, d, SessionStarted) && e in Positions(t, d, SessionEnded);
  }

  lemma MetByOneMore(t: Trace, seen: seq<string>, d: string, s: int, e: int, c: Condition)
    requires ClosedSession(t, d, s, e)
    ensures MetBy(t, seen + [d], c) <==> MetBy(t, seen, c) && Meets(t, d, s, e, c)
  {
    forall s', e' | ClosedSession(t, d, s', e') ensures s' == s && e' == e {
      ClosedSessionIsUnique(t, d, s, e, s', e');
    }
    if MetBy(t, seen + [d], c) {
      assert d in seen + [d];
      forall x, s', e' | x in seen && ClosedSession(t, x, s', e') ensures Meets(t, x, s', e', c) {
        assert x in seen + [d];
      }
    }
  }

  lemma MetBySkipped(t: Trace, seen: seq<string>, d: string, c: Condition)
    requires !Closed(t, d)
    ensures MetBy(t, seen + [d], c) <==> MetBy(t, seen, c)
  {
    assert forall x :: x in seen + [d] <==> x in seen || x == d;
  }

  lemma WindowIsQualifying(t: Trace, d: string, s: int, e: int, i: int)
    requires ClosedSession(t, d, s, e)
    ensures Qualifies(t, i) && DateAt(t, i) == d <==> s <= i <= e && Dated(t, d, i)
  {
    if Qualifies(t, i) && DateAt(t, i) == d {
      var s', e' :| ClosedSession(t, d, s', e') && s' <= i <= e';
      ClosedSessionIsUnique(t, d, s, e, s', e');
    }
  }

  lemma FactsMeet(t: Trace, d: string, s: int, e: int, f: SessionFacts)
    requires FactsOf(t, d, s, e, f)
    ensures f.startedDisarmed <==> Meets(t, d, s, e, StartDisarmed)
    ensures f.armedAfterActive <==> Meets(t, d, s, e, ArmAfterActive)
    ensures f.lifecycleAgrees <==> Meets(t, d, s, e, Lifecycle)
    ensures f.entriesAfterArm <==> Meets(t, d, s, e, EntriesArmed)
    ensures f.reconciled <==> Meets(t, d, s, e, Reconciliation)
  {
    hide ArmedAfterActive, LifecycleAgrees, EntriesAfterArm, Reconciled;
  }

  lemma VerdictsAdded(t: Trace, seen: seq<string>, r: Sessions, d: string, s: int, e: int, f: SessionFacts)
    requires CollectedVerdicts(t, seen, r)
    requires ClosedSession(t, d, s, e) && FactsOf(t, d, s, e, f)
    ensures CollectedVerdicts(t, seen + [d], AddSession(r, d, f))
  {
    FactsMeet(t, d, s, e, f);
    hide FactsOf, ClosedSession, Meets, MetBy;
    MetByOneMore(t, seen, d, s, e, StartDisarmed);
    MetByOneMore(t, seen, d, s, e, ArmAfterActive);
    MetByOneMore(t, seen, d, s, e, Lifecycle);
    MetByOneMore(t, seen, d, s, e, EntriesArmed);
    MetByOneMore(t, seen, d, s, e, Reconciliation);
  }

  lemma ListsAdded(t: Trace, seen: seq<string>, r: Sessions, d: string, s: int, e: int, f: SessionFacts)
    requires CollectedLists(t, seen, r)
    requires ClosedSession(t, d, s, e) && Ascending(f.window)
    requires forall i :: i in f.window <==> s <= i <= e && Dated(t, d, i)
    requires forall x :: x in seen ==> LexLeq(x, d) && x != d
    ensures CollectedLists(t, seen + [d], AddSession(r, d, f))
  {
    var out := AddSession(r, d, f);
    forall i ensures i in out.qualifying <==> Qualifies(t, i) && DateAt(t, i) in seen + [d] {
      WindowIsQualifying(t, d, s, e, i);
    }
    DatesAdded(t, seen, r.dates, d);
    QualifyingAdded(t, seen, r.qualifying, d, f.window);
  }

  lemma DatesAdded(t: Trace, seen: seq<string>, dates: seq<string>, d: string)
    requires StrictlySorted(dates) && forall x :: x in dates <==> x in seen && Closed(t, x)
    requires Closed(t, d) && forall x :: x in seen ==> LexLeq(x, d) && x != d
    ensures StrictlySorted(dates + [d]) && forall x :: x in dates + [d] <==> x in seen + [d] && Closed(t, x)
  {
    var all := dates + [d];
    forall i, j | 0 <= i < j < |all| ensures LexLeq(all[i], all[j]) && all[i] != all[j] {
      assert dates[i] in dates;
    }
  }

  lemma QualifyingAdded(t: Trace, seen: seq<string>, q: seq<int>, d: string, window: seq<int>)
    requires forall i :: i in q ==> DateAt(t, i) in seen
    requires forall a, b :: 0 <= a < b < |q| ==> Earlier(t, q[a], q[b])
    requires Ascending(window) && forall i :: i in window ==> Dated(t, d, i)
    requires forall x :: x in seen ==> LexLeq(x, d) && x != d
    ensures forall a, b :: 0 <= a < b < |q + window| ==> Earlier(t, (q + window)[a], (q + window)[b])
  {
    var all := q + window;
    forall a, b | 0 <= a < b < |all| ensures Earlier(t, all[a], all[b]) {
      if a < |q| <= b {
        assert q[a] in q && window[b - |q|] in window;
        assert DateAt(t, all[b]) == d;
      } else if |q| <= a {
        assert window[a - |q|] in window && window[b - |q|] in window;
        assert DateAt(t, all[a]) == d == DateAt(t, all[b]);
      }
    }
  }

  lemma SessionSkipped(t: Trace, seen: seq<string>, r: Sessions, d: string)
    requires Collected(t, seen, r) && !Closed(t, d)
    ensures Collected(t, seen + [d], r)
  {
    MetBySkipped(t, seen, d, StartDisarmed);
    MetBySkipped(t, seen, d, ArmAfterActive);
    MetBySkipped(t, seen, d, Lifecycle);
    MetBySkipped(t, seen, d, EntriesArmed);
    MetBySkipped(t, seen, d, Reconciliation);
    assert CollectedVerdicts(t, seen + [d], r);
    ListsSkipped(t, seen, r, d);
  }

  lemma ListsSkipped(t: Trace, seen: seq<string>, r: Sessions, d: string)
    requires CollectedLists(t, seen, r) && !Closed(t, d)
    ensures CollectedLists(t, seen + [d], r)
  {
    forall i | Qualifies(t, i) ensures DateAt(t, i) != d {
      var s, e :| ClosedSession(t, DateAt(t, i), s, e) && s <= i <= e;
    }
  }

  lemma NothingCollected(t: Trace)
    ensures Collected(t, [], Sessions([], [], true, true, true, true, true))
  {
  }

  /** The loop over session dates. */
  method CollectSessions(t: Trace) returns (r: Sessions)
    ensures Collected(t, SortUnique(DateList(t)), r)
  {
    hide Collected;
    var dates := SortUnique(DateList(t));
    r := Sessions([], [], true, true, true, true, true);
    NothingCollected(t);
    assert dates[..0] == [];
    for n := 0 to |dates|
      invariant Collected(t, dates[..n], r)
    {
      NextDate(t, dates, n);
      r := CollectDate(t, dates[..n], dates[n], r);
      assert dates[..n + 1] == dates[..n] + [dates[n]];
    }
    assert dates[..|dates|] == dates;
  }

  lemma NextDate(t: Trace, dates: seq<string>, n: nat)
    requires dates == SortUnique(DateList(t)) && n < |dates|
    ensures dates[n] != ""
    ensures forall x :: x in dates[..n] ==> LexLeq(x, dates[n]) && x != dates[n]
  {
    SortUniqueSorts(DateList(t));
    assert dates[n] in dates;
    DateListComplete(t, dates[n]);
    forall x | x in dates[..n] ensures LexLeq(x, dates[n]) && x != dates[n] {
      var k :| 0 <= k < n && dates[k] == x;
    }
  }

  /** The body of the loop over session dates. */
  method CollectDate(t: Trace, ghost seen: seq<string>, d: string, before: Sessions) returns (r: Sessions)
    requires Collected(t, seen, before) && d != ""
    requires forall x :: x in seen ==> LexLeq(x, d) && x != d
    ensures Collected(t, seen + [d], r)
  {
    var facts := ReduceSession(t, d);
    if facts.None? {
      SessionSkipped(t, seen, before, d);
      return before;
    }
    ghost var s, e :| ClosedSession(t, d, s, e) && FactsOf(t, d, s, e, facts.value);
    ListsAdded(t, seen, before, d, s, e, facts.value);
    VerdictsAdded(t, seen, before, d, s, e, facts.value);
    r := AddSession(before, d, facts.value);
  }

  /** What the collected sessions say about the whole trace. */
  ghost predicate CollectedTrace(t: Trace, r: Sessions) {
    && StrictlySorted(r.dates)
    && (forall d :: d in r.dates <==> Closed(t, d))
    && (r.startedDisarmed <==> AllSessions(t, StartDisarmed))
    && (r.armedAfterActive <==> AllSessions(t, ArmAfterActive))
    && (r.lifecycleAgrees <==> AllSessions(t, Lifecycle))
    && (r.entriesAfterArm <==> AllSessions(t, EntriesArmed))
    && (r.reconciled <==> AllSessions(t, Reconciliation))
  }

  /** Having seen every date is having seen every session. */
  lemma CollectedAll(t: Trace, r: Sessions)
    requires Collected(t, SortUnique(DateList(t)), r)
    ensures CollectedTrace(t, r)
    ensures Lists(t, r.qualifying, Qualifying(t)) && Distinct(r.qualifying)
  {
    hide SortUnique, DateList, Closed, Collected, CollectedTrace, Lists, Distinct;
    var seen := SortUnique(DateList(t));
    forall d | Closed(t, d) ensures d in seen { ClosedDateIsSeen(t, d); }
    VerdictsOfAll(t, seen, r);
    QualifyingOfAll(t, seen, r);
  }

  lemma VerdictsOfAll(t: Trace, seen: seq<string>, r: Sessions)
    requires Collected(t, seen, r) && forall d :: Closed(t, d) ==> d in seen
    ensures CollectedTrace(t, r)
  {
    hide Closed, MetBy, AllSessions, StrictlySorted, Qualifies, Earlier;
    MetByAll(t, seen, StartDisarmed);
    MetByAll(t, seen, ArmAfterActive);
    MetByAll(t, seen, Lifecycle);
    MetByAll(t, seen, EntriesArmed);
    MetByAll(t, seen, Reconciliation);
  }

  lemma QualifyingOfAll(t: Trace, seen: seq<string>, r: Sessions)
    requires Collected(t, seen, r) && forall d :: Closed(t, d) ==> d in seen
    ensures Lists(t, r.qualifying, Qualifying(t)) && Distinct(r.qualifying)
  {
    hide Closed, CollectedVerdicts, StrictlySorted, Qualifies, DateAt;
    forall i | Qualifies(t, i) ensures 0 <= i < |t| && DateAt(t, i) in seen { QualifyingIsClosed(t, i); }
    EarlierIsDistinct(t, r.qualifying);
    hide Earlier, Distinct;
  }

  lemma ClosedDateIsSeen(t: Trace, d: string)
    requires Closed(t, d)
    ensures d in SortUnique(DateList(t))
  {
    SortUniqueSorts(DateList(t));
    var s, e :| ClosedSession(t, d, s, e);
    ClosedDateIsListed(t, d, s, e);
  }

  lemma QualifyingIsClosed(t: Trace, i: int)
    requires Qualifies(t, i)
    ensures 0 <= i < |t| && Closed(t, DateAt(t, i))
  {
    hide ClosedSession;
    var s, e :| ClosedSession(t, DateAt(t, i), s, e) && s <= i <= e;
  }

  lemma MetByAll(t: Trace, seen: seq<string>, c: Condition)
    requires forall d :: Closed(t, d) ==> d in seen
    ensures MetBy(t, seen, c) <==> AllSessions(t, c)
  {
    hide ClosedSession, Meets;
    forall d, s, e | ClosedSession(t, d, s, e) ensures d in seen { assert Closed(t, d); }
  }

  lemma EarlierIsDistinct(t: Trace, q: seq<int>)
    requires forall a, b :: 0 <= a < b < |q| ==> Earlier(t, q[a], q[b])
    ensures Distinct(q)
  {
    forall a, b | 0 <= a < b < |q| ensures q[a] != q[b] { assert Earlier(t, q[a], q[b]); }
  }

  // ---------------------------------------------------------------- counting

  ghost function QualifyingWhere(t: Trace, p: int -> bool): set<int> {
    set i | 0 <= i < |t| && Qualifies(t, i) && p(i)
  }

  lemma PickedIsWhere(t: Trace, q: seq<int>, p: int -> bool)
    requires Lists(t, q, Qualifying(t)) && Distinct(q)
    ensures |Pick(q, p)| == |QualifyingWhere(t, p)|
    ensures forall i :: i in Pick(q, p) <==> i in QualifyingWhere(t, p)
  {
    hide Qualifies;
    PickMembers(q, p);
    PickCounts(q, p);
    assert Picked(q, p) == QualifyingWhere(t, p);
  }

  /** `sum(p(x) for x in qualifying)`. */
  method CountWhere(t: Trace, q: seq<int>, p: int -> bool) returns (n: nat)
    requires Lists(t, q, Qualifying(t)) && Distinct(q)
    ensures n == |QualifyingWhere(t, p)|
  {
    n := |Pick(q, p)|;
    PickedIsWhere(t, q, p);
  }

  method OfKindQualifying(t: Trace, q: seq<int>, k: Kind) returns (r: seq<int>)
    requires Lists(t, q, Qualifying(t)) && Distinct(q)
    ensures Lists(t, r, QualifyingOf(t, k)) && |r| == |QualifyingOf(t, k)|
  {
    hide Earlier, Qualifies, Distinct;
    var p := (i: int) => 0 <= i < |t| && t[i].kind == k;
    r := Pick(q, p);
    PickedIsWhere(t, q, p);
    assert QualifyingWhere(t, p) == QualifyingOf(t, k);
    PickKeepsEarlier(t, q, p);
  }

  lemma PickKeepsEarlier(t: Trace, q: seq<int>, p: int -> bool)
    requires forall a, b :: 0 <= a < b < |q| ==> Earlier(t, q[a], q[b])
    ensures forall a, b :: 0 <= a < b < |Pick(q, p)| ==> Earlier(t, Pick(q, p)[a], Pick(q, p)[b])
  {
    var order := (i: int, j: int) => Earlier(t, i, j);
    PickKeepsOrder(q, p, order);
    assert forall a, b :: 0 <= a < b < |Pick(q, p)| ==> order(Pick(q, p)[a], Pick(q, p)[b]);
  }

  /** The loop over dispatched mutations: a blank or already seen identity counts as repeated. */
  method CountRepeated(t: Trace, mutations: seq<int>) returns (repeated: nat)
    requires Lists(t, mutations, Dispatched(t)) && |mutations| == |Dispatched(t)|
    ensures repeated == Repeated(t)
  {
    var seen: set<(Command, string)> := {};
    repeated := 0;
    for n := 0 to |mutations|
      invariant seen == IdentitiesAmong(t, mutations[..n], false)
      invariant repeated == n - |IdentitiesAmong(t, mutations[..n], true)|
    {
      var i := mutations[n];
      assert i in mutations;
      var identity := (t[i].payload.commandType, t[i].payload.clientOrderId);
      IdentitiesGrow(t, mutations, n);
      if identity.1 == "" || identity in seen {
        repeated := repeated + 1;
      }
      seen := seen + {identity};
    }
    assert mutations[..|mutations|] == mutations;
    assert IdentitiesAmong(t, mutations, true) == Identities(t);
  }

  ghost function IdentitiesAmong(t: Trace, positions: seq<int>, named: bool): set<(Command, string)> {
    set i | i in positions && 0 <= i < |t| && (named ==> t[i].payload.clientOrderId != "") ::
      (t[i].payload.commandType, t[i].payload.clientOrderId)
  }

  lemma IdentitiesGrow(t: Trace, positions: seq<int>, n: nat)
    requires n < |positions| && 0 <= positions[n] < |t|
    ensures var identity := (t[positions[n]].payload.commandType, t[positions[n]].payload.clientOrderId);
      && IdentitiesAmong(t, positions[..n + 1], false) == IdentitiesAmong(t, positions[..n], false) + {identity}
      && (identity.1 == "" || identity in IdentitiesAmong(t, positions[..n], false) ==>
            |IdentitiesAmong(t, positions[..n + 1], true)| == |IdentitiesAmong(t, positions[..n], true)|)
      && (identity.1 != "" && identity !in IdentitiesAmong(t, positions[..n], false) ==>
            |IdentitiesAmong(t, positions[..n + 1], true)| == |IdentitiesAmong(t, positions[..n], true)| + 1)
  {
    var identity := (t[positions[n]].payload.commandType, t[positions[n]].payload.clientOrderId);
    assert positions[..n + 1] == positions[..n] + [positions[n]];
    assert IdentitiesAmong(t, positions[..n + 1], false) == IdentitiesAmong(t, positions[..n], false) + {identity};
    var more, few := IdentitiesAmong(t, positions[..n + 1], true), IdentitiesAmong(t, positions[..n], true);
    if identity.1 == "" {
      assert more == few;
    } else {
      assert more == few + {identity};
      assert identity in few <==> identity in IdentitiesAmong(t, positions[..n], false);
    }
  }

  method ReduceCounters(t: Trace, q: seq<int>, mutations: seq<int>)
    returns (c: CounterEvidence)
    requires Lists(t, q, Qualifying(t)) && Distinct(q)
    requires Lists(t, mutations, Dispatched(t)) && |mutations| == |Dispatched(t)|
    ensures CountersDerived(c, t)
  {
    hide Qualifies, Lists, Distinct;
    var repeated := CountRepeated(t, mutations);
    var isRetry := (i: int) => IsRetry(t, i);
    var isBad := (i: int) => IsDuplicateOrUnowned(t, i);
    var isAmbiguous := (i: int) => IsUnresolvedAmbiguous(t, i);
    var isMismatch := (i: int) => IsMismatch(t, i);
    var r := CountWhere(t, q, isRetry);
    assert QualifyingWhere(t, isRetry) == Retries(t);
    var b := CountWhere(t, q, isBad);
    assert QualifyingWhere(t, isBad) == DuplicatesOrUnowned(t);
    var ambiguous := CountWhere(t, q, isAmbiguous);
    assert QualifyingWhere(t, isAmbiguous) == UnresolvedAmbiguous(t);
    var mismatches := CountWhere(t, q, isMismatch);
    assert QualifyingWhere(t, isMismatch) == Mismatches(t);
    c := CounterEvidence(repeated + r, repeated + b, ambiguous, mismatches);
  }

  // ---------------------------------------------------------------- outcomes

  predicate DispatchIn(t: Trace, mutations: seq<int>, c: Command, id: string, m: int) {
    m in mutations && 0 <= m < |t| && t[m].payload.commandType == c && t[m].payload.clientOrderId == id
  }

  predicate ConfirmedIn(t: Trace, mutations: seq<int>, c: Command, i: int) {
    && 0 <= i < |t| && t[i].kind == MutationTerminal && t[i].payload.brokerConfirmed == Yes
    && t[i].payload.clientOrderId != ""
    && (forall m :: m in mutations && DispatchIn(t, mutations, c, t[i].payload.clientOrderId, m) ==> Earlier(t, m, i))
  }

  predicate EntryOutcomeIn(t: Trace, mutations: seq<int>, i: int) {
    && ConfirmedIn(t, mutations, Submit, i) && t[i].payload.strategyEntry == Yes
    && exists m :: m in mutations && DispatchIn(t, mutations, Submit, t[i].payload.clientOrderId, m)
                   && t[m].payload.strategyEntry == Yes
  }

  predicate CancelLifecycleIn(t: Trace, mutations: seq<int>, i: int) {
    && ConfirmedIn(t, mutations, Cancel, i) && t[i].payload.commandType == Cancel
    && exists m :: m in mutations && DispatchIn(t, mutations, Cancel, t[i].payload.clientOrderId, m)
  }

  predicate ProtectedIn(t: Trace, outcomes: seq<int>, i: int) {
    && 0 <= i < |t| && t[i].kind == PositionProtected && t[i].payload.safeExitOrProtected == Yes
    && t[i].payload.symbol != ""
    && exists x :: x in outcomes && 0 <= x < |t| && Earlier(t, x, i) && t[x].payload.symbol == t[i].payload.symbol
  }

  predicate ProbeIn(t: Trace, disarms: seq<int>, i: int) {
    && 0 <= i < |t| && t[i].kind == DisarmProbe
    && t[i].payload.nextMutationBlocked == Yes && t[i].payload.brokerCalled == No
    && exists x :: x in disarms && Earlier(t, x, i) && DateAt(t, x) == DateAt(t, i)
  }

  lemma ConfirmedMeans(t: Trace, mutations: seq<int>, c: Command, i: int)
    requires Lists(t, mutations, Dispatched(t))
    ensures Qualifies(t, i) && ConfirmedIn(t, mutations, c, i) <==> ConfirmedAfterDispatch(t, c, i)
    ensures forall id, m :: DispatchIn(t, mutations, c, id, m) <==> DispatchOf(t, c, id, m)
  {
  }

  lemma EntryOutcomeMeans(t: Trace, mutations: seq<int>, i: int)
    requires Lists(t, mutations, Dispatched(t))
    ensures Qualifies(t, i) && EntryOutcomeIn(t, mutations, i) <==> EntryOutcome(t, i)
  {
    ConfirmedMeans(t, mutations, Submit, i);
    hide Qualifies, ConfirmedIn, ConfirmedAfterDispatch;
    if EntryOutcome(t, i) {
      var m :| DispatchOf(t, Submit, t[i].payload.clientOrderId, m) && t[m].payload.strategyEntry == Yes;
      assert DispatchIn(t, mutations, Submit, t[i].payload.clientOrderId, m);
    }
  }

  lemma CancelLifecycleMeans(t: Trace, mutations: seq<int>, i: int)
    requires Lists(t, mutations, Dispatched(t))
    ensures Qualifies(t, i) && CancelLifecycleIn(t, mutations, i) <==> CancelLifecycle(t, i)
  {
    ConfirmedMeans(t, mutations, Cancel, i);
    hide Qualifies, ConfirmedIn, ConfirmedAfterDispatch;
    if CancelLifecycle(t, i) {
      var m :| DispatchOf(t, Cancel, t[i].payload.clientOrderId, m);
      assert DispatchIn(t, mutations, Cancel, t[i].payload.clientOrderId, m);
    }
  }

  method EntryOutcomes(t: Trace, q: seq<int>, mutations: seq<int>) returns (r: seq<int>)
    requires Lists(t, q, Qualifying(t)) && Distinct(q) && Lists(t, mutations, Dispatched(t))
    ensures forall i :: i in r <==> EntryOutcome(t, i)
    ensures |r| == |AllEntryOutcomes(t)|
  {
    var p := (i: int) => EntryOutcomeIn(t, mutations, i);
    r := Pick(q, p);
    PickedIsWhere(t, q, p);
    forall i ensures Qualifies(t, i) && p(i) <==> EntryOutcome(t, i) { EntryOutcomeMeans(t, mutations, i); }
    hide Qualifies, EntryOutcome, EntryOutcomeIn;
    assert QualifyingWhere(t, p) == AllEntryOutcomes(t);
  }

  method CancelLifecycles(t: Trace, q: seq<int>, mutations: seq<int>) returns (n: nat)
    requires Lists(t, q, Qualifying(t)) && Distinct(q) && Lists(t, mutations, Dispatched(t))
    ensures n == |AllCancelLifecycles(t)|
  {
    var p := (i: int) => CancelLifecycleIn(t, mutations, i);
    n := CountWhere(t, q, p);
    forall i ensures Qualifies(t, i) && p(i) <==> CancelLifecycle(t, i) { CancelLifecycleMeans(t, mutations, i); }
    hide Qualifies, CancelLifecycle, CancelLifecycleIn;
    assert QualifyingWhere(t, p) == AllCancelLifecycles(t);
  }

  method ProtectedPositions(t: Trace, q: seq<int>, outcomes: seq<int>) returns (n: nat)
    requires Lists(t, q, Qualifying(t)) && Distinct(q)
    requires forall i :: i in outcomes <==> EntryOutcome(t, i)
    ensures n == |AllProtectedPositions(t)|
  {
    hide EntryOutcome, Earlier;
    var p := (i: int) => ProtectedIn(t, outcomes, i);
    n := CountWhere(t, q, p);
    forall i ensures Qualifies(t, i) && p(i) <==> ProtectedAfterEntry(t, i) {
      ProtectedMeans(t, outcomes, i);
    }
    hide Qualifies, ProtectedIn, ProtectedAfterEntry;
    assert QualifyingWhere(t, p) == AllProtectedPositions(t);
  }

  lemma ProtectedMeans(t: Trace, outcomes: seq<int>, i: int)
    requires forall i :: i in outcomes <==> EntryOutcome(t, i)
    ensures Qualifies(t, i) && ProtectedIn(t, outcomes, i) <==> ProtectedAfterEntry(t, i)
  {
    if ProtectedAfterEntry(t, i) {
      var x :| EntryOutcome(t, x) && Earlier(t, x, i) && t[x].payload.symbol == t[i].payload.symbol;
      assert x in outcomes && 0 <= x < |t|;
    }
  }

  method DisarmProbed(t: Trace, q: seq<int>, disarms: seq<int>) returns (r: bool)
    requires Lists(t, q, Qualifying(t)) && Lists(t, disarms, QualifyingOf(t, Disarmed))
    ensures r <==> exists i :: ProbeAfterDisarm(t, i)
  {
    r := exists i :: i in q && ProbeIn(t, disarms, i);
    forall i ensures i in q && ProbeIn(t, disarms, i) <==> ProbeAfterDisarm(t, i) { ProbeMeans(t, q, disarms, i); }
    hide Lists, ProbeIn, ProbeAfterDisarm;
  }

  lemma ProbeMeans(t: Trace, q: seq<int>, disarms: seq<int>, i: int)
    requires Lists(t, q, Qualifying(t)) && Lists(t, disarms, QualifyingOf(t, Disarmed))
    ensures i in q && ProbeIn(t, disarms, i) <==> ProbeAfterDisarm(t, i)
  {
    hide Earlier;
    assert i in q <==> Qualifies(t, i);
    hide Qualifies, QualifyingOf;
    if ProbeAfterDisarm(t, i) {
      var x :| x in QualifyingOf(t, Disarmed) && Earlier(t, x, i) && DateAt(t, x) == DateAt(t, i);
      assert x in disarms;
    }
  }

  // ---------------------------------------------------------------- caps

  method MaxOf(s: seq<real>) returns (x: real)
    ensures s == [] ==> x == 0.0
    ensures s != [] ==> IsMax(s, x)
  {
    if s == [] { return 0.0; }
    x := s[0];
    for n := 1 to |s|
      invariant x in s[..n] && forall y :: y in s[..n] ==> y <= x
    {
      assert s[..n + 1] == s[..n] + [s[n]];
      if x < s[n] { x := s[n]; }
    }
    assert s[..|s|] == s;
  }

  method MinOf(s: seq<real>) returns (x: real)
    ensures s == [] ==> x == 0.0
    ensures s != [] ==> IsMin(s, x)
  {
    if s == [] { return 0.0; }
    x := s[0];
    for n := 1 to |s|
      invariant x in s[..n] && forall y :: y in s[..n] ==> x <= y
    {
      assert s[..n + 1] == s[..n] + [s[n]];
      if s[n] < x { x := s[n]; }
    }
    assert s[..|s|] == s;
  }

  /** The smallest positive cap of the active observations, or zero. */
  method FallbackOf(t: Trace, active: seq<int>) returns (x: real)
    requires Lists(t, active, QualifyingOf(t, RuntimeActive))
    ensures FallbackCap(t, x)
  {
    hide Qualifies, Earlier;
    x := 0.0;
    forall k | 0 <= k < |active| ensures 0 <= active[k] < |t| { assert active[k] in active; }
    for n := 0 to |active|
      invariant forall k :: 0 <= k < n && t[active[k]].payload.reviewedCap > 0.0 ==>
        0.0 < x <= t[active[k]].payload.reviewedCap
      invariant x == 0.0 || (x > 0.0 && exists k :: 0 <= k < n && t[active[k]].payload.reviewedCap == x)
    {
      var cap := t[active[n]].payload.reviewedCap;
      if cap > 0.0 && (x == 0.0 || cap < x) { x := cap; }
    }
    forall i | i in QualifyingOf(t, RuntimeActive) ensures i in active {}
    if x != 0.0 {
      var k :| 0 <= k < |active| && t[active[k]].payload.reviewedCap == x;
      assert active[k] in active;
    }
  }

  method ReduceCaps(t: Trace, entries: seq<int>, active: seq<int>) returns (f: CapEvidence)
    requires Lists(t, entries, QualifyingOf(t, EntryCandidate)) && |entries| == |QualifyingOf(t, EntryCandidate)|
    requires Lists(t, active, QualifyingOf(t, RuntimeActive))
    ensures CapsDerived(f, t)
  {
    hide Lists, Qualifies, QualifyingOf, FallbackCap, EnvelopesOf, IsMin, IsMax, Notionals, Caps, CapsComplete;
    var envelopes := PairEnvelopes(t, entries);
    var maxNotional := MaxOf(Notionals(envelopes));
    var fallback := FallbackOf(t, active);
    var reviewed, below := ReviewCaps(envelopes, fallback);
    f := CapEvidence(reviewed, maxNotional, envelopes, below, |entries|);
  }

  /** The reviewed cap and the notional verdict: each entry's own cap, or the fallback. */
  method ReviewCaps(envelopes: seq<(real, real)>, fallback: real) returns (reviewed: real, below: bool)
    ensures CapsComplete(envelopes) ==>
      && IsMin(Caps(envelopes), reviewed)
      && (below <==> forall j :: 0 <= j < |envelopes| ==> 0.0 < envelopes[j].0 <= envelopes[j].1)
    ensures !CapsComplete(envelopes) ==>
      && reviewed == fallback
      && (below <==>
            && envelopes != [] && fallback > 0.0
            && forall j :: 0 <= j < |envelopes| ==> 0.0 < envelopes[j].0 <= fallback)
  {
    if CapsComplete(envelopes) {
      hide IsMin;
      reviewed := MinOf(Caps(envelopes));
      below := forall j :: 0 <= j < |envelopes| ==> 0.0 < envelopes[j].0 <= envelopes[j].1;
    } else {
      reviewed := fallback;
      below := |envelopes| > 0 && fallback > 0.0
        && forall j :: 0 <= j < |envelopes| ==> 0.0 < envelopes[j].0 <= fallback;
    }
  }

  /** `list(zip(notionals, entry_caps))`. */
  method PairEnvelopes(t: Trace, entries: seq<int>) returns (envelopes: seq<(real, real)>)
    requires Lists(t, entries, QualifyingOf(t, EntryCandidate))
    ensures EnvelopesOf(t, envelopes) && |envelopes| == |entries|
    ensures (Notionals(envelopes) == [] <==> envelopes == []) && (Caps(envelopes) == [] <==> envelopes == [])
  {
    hide Qualifies, Earlier;
    assert forall j :: 0 <= j < |entries| ==> entries[j] in entries;
    envelopes := seq(|entries|, j requires 0 <= j < |entries| =>
      if 0 <= entries[j] < |t| then (t[entries[j]].payload.notional, t[entries[j]].payload.entryCap) else (0.0, 0.0));
    assert PairedWith(t, entries, envelopes);
  }

  // ---------------------------------------------------------------- the whole reduction

  /** The most recent capability record of the whole trace. */
  method LatestCapability(t: Trace) returns (sha: string, verified: bool)
    ensures LastCapability(t, sha, verified)
  {
    var i := |t|;
    while i > 0
      invariant 0 <= i <= |t|
      invariant forall j :: i <= j < |t| ==> t[j].kind != CapabilityVerified
    {
      i := i - 1;
      if t[i].kind == CapabilityVerified {
        return t[i].payload.evidenceSha, t[i].payload.verified == Yes;
      }
    }
    return "", false;
  }

  method ReduceSessions(t: Trace, comparisons: seq<int>, entries: seq<int>, mismatches: int, collected: Sessions)
    returns (r: SessionEvidence)
    requires CollectedTrace(t, collected)
    requires |comparisons| == |QualifyingOf(t, LifecycleComparison)|
    requires Lists(t, entries, QualifyingOf(t, EntryCandidate))
    requires mismatches == |Mismatches(t)|
    ensures SessionsDerived(r, t) && r.sessionDates == collected.dates
  {
    hide Closed, AllSessions, StrictlySorted, Lists, Qualifies, QualifyingOf, Mismatches;
    var cards := ActiveCards(t, entries);
    var anySession := |collected.dates| > 0;
    r := SessionEvidence(
      collected.dates, anySession && collected.startedDisarmed, anySession && collected.armedAfterActive,
      |comparisons| > 0 && collected.lifecycleAgrees && mismatches == 0,
      cards && collected.entriesAfterArm, anySession && collected.reconciled);
  }

  method ActiveCards(t: Trace, entries: seq<int>) returns (r: bool)
    requires Lists(t, entries, QualifyingOf(t, EntryCandidate))
    ensures r <==>
      && QualifyingOf(t, EntryCandidate) != {}
      && forall i :: i in QualifyingOf(t, EntryCandidate) ==> t[i].payload.activeTradeCard == Yes
  {
    hide Qualifies, Earlier;
    assert forall i :: i in entries ==> 0 <= i < |t|;
    if |entries| > 0 { assert entries[0] in entries; }
    r := |entries| > 0 && forall i :: i in entries ==> t[i].payload.activeTradeCard == Yes;
  }

  method ReduceOutcomes(t: Trace, q: seq<int>, mutations: seq<int>, entries: seq<int>) returns (r: OutcomeEvidence)
    requires Lists(t, q, Qualifying(t)) && Distinct(q)
    requires Lists(t, mutations, Dispatched(t)) && Lists(t, entries, QualifyingOf(t, EntryCandidate))
    ensures OutcomesDerived(r, t)
  {
    hide Qualifies, Earlier, EntryOutcome, CancelLifecycle, ProtectedAfterEntry, ProbeAfterDisarm;
    var disarms := OfKindQualifying(t, q, Disarmed);
    var alerts := OfKindQualifying(t, q, AlertDelivered);
    var outcomes := EntryOutcomes(t, q, mutations);
    var cancels := CancelLifecycles(t, q, mutations);
    var protectedCount := ProtectedPositions(t, q, outcomes);
    var probed := DisarmProbed(t, q, disarms);
    var alerted := AlertSeen(t, alerts);
    var risk := RiskRechecked(t, entries);
    r := OutcomeEvidence(|outcomes|, protectedCount, cancels, probed, alerted, risk);
  }

  method RiskRechecked(t: Trace, entries: seq<int>) returns (r: bool)
    requires Lists(t, entries, QualifyingOf(t, EntryCandidate))
    ensures r <==>
      && QualifyingOf(t, EntryCandidate) != {}
      && forall i :: i in QualifyingOf(t, EntryCandidate) ==> t[i].payload.riskRechecked == Yes
  {
    hide Qualifies, Earlier;
    assert forall i :: i in entries ==> 0 <= i < |t|;
    if |entries| > 0 { assert entries[0] in entries; }
    r := |entries| > 0 && forall i :: i in entries ==> t[i].payload.riskRechecked == Yes;
  }

  method AlertSeen(t: Trace, alerts: seq<int>) returns (r: bool)
    requires Lists(t, alerts, QualifyingOf(t, AlertDelivered))
    ensures r <==> exists i :: i in QualifyingOf(t, AlertDelivered) && t[i].payload.delivered == Yes
  {
    hide Qualifies, Earlier;
    assert forall i :: i in alerts ==> 0 <= i < |t|;
    r := exists i :: i in alerts && t[i].payload.delivered == Yes;
    if i :| i in QualifyingOf(t, AlertDelivered) && t[i].payload.delivered == Yes {
      assert i in alerts;
    }
  }

  method ReduceRuntime(t: Trace, active: seq<int>, entries: seq<int>, dates: seq<string>) returns (r: RuntimeEvidence)
    requires Lists(t, active, QualifyingOf(t, RuntimeActive)) && |active| == |QualifyingOf(t, RuntimeActive)|
    requires Lists(t, entries, QualifyingOf(t, EntryCandidate))
    ensures RuntimeDerived(r, dates, t)
  {
    var sha, verified := LatestCapability(t);
    hide Qualifies, Earlier, LastCapability;
    assert forall i :: i in active ==> 0 <= i < |t|;
    var live := |active| > 0 && forall i :: i in active ==> t[i].payload.liveMode == ControlledLive;
    var singleOwner := |dates| > 0 && |active| >= |dates|
      && forall i :: i in active ==> t[i].payload.ownerCount == 1 && t[i].payload.leaseCount == 1;
    var owners := if singleOwner then 1 else 0;
    var approved := ApprovedSymbols(t, active);
    var observed := ObservedSymbols(t, entries);
    hide Lists, QualifyingOf;
    r := RuntimeEvidence(owners, owners, live, approved, observed, sha, verified, true, false);
  }

  method ApprovedSymbols(t: Trace, active: seq<int>) returns (r: set<string>)
    requires Lists(t, active, QualifyingOf(t, RuntimeActive))
    ensures r == set i, x | i in QualifyingOf(t, RuntimeActive) && x in t[i].payload.approvedSymbols && x != "" :: x
  {
    hide Qualifies, Earlier;
    assert forall i :: i in active ==> 0 <= i < |t|;
    r := set i, x | i in active && x in t[i].payload.approvedSymbols && x != "" :: x;
  }

  method ObservedSymbols(t: Trace, entries: seq<int>) returns (r: set<string>)
    requires Lists(t, entries, QualifyingOf(t, EntryCandidate))
    ensures r == set i | i in QualifyingOf(t, EntryCandidate) && t[i].payload.symbol != "" :: t[i].payload.symbol
  {
    hide Qualifies, Earlier;
    assert forall i :: i in entries ==> 0 <= i < |t|;
    r := set i | i in entries && t[i].payload.symbol != "" :: t[i].payload.symbol;
  }

  method Reduce(t: Trace, audit: AuditCounts<Kind>, digests: Digests, review: Review) returns (ev: Evidence)
    ensures DerivedFrom(ev, t)
    ensures ev.audit == audit && ev.review == review && ev.digests == digests
  {
    var collected := CollectSessions(t);
    CollectedAll(t, collected);
    hide Qualifies, QualifyingOf, Lists, Distinct, CollectedTrace, Collected,
         SessionsDerived, CountersDerived, CapsDerived, OutcomesDerived, RuntimeDerived;
    var q := collected.qualifying;
    var entries := OfKindQualifying(t, q, EntryCandidate);
    var active := OfKindQualifying(t, q, RuntimeActive);
    var mutations := OfKindQualifying(t, q, MutationDispatched);
    var comparisons := OfKindQualifying(t, q, LifecycleComparison);
    var counters := ReduceCounters(t, q, mutations);
    CountersMeaning(counters, t);
    var sessions := ReduceSessions(t, comparisons, entries, counters.lifecycleMismatches, collected);
    var caps := ReduceCaps(t, entries, active);
    var outcomes := ReduceOutcomes(t, q, mutations, entries);
    var runtime := ReduceRuntime(t, active, entries, sessions.sessionDates);
    ev := Evidence(sessions, counters, caps, outcomes, runtime, digests, audit, review);
  }

  lemma CountersMeaning(c: CounterEvidence, t: Trace)
    requires CountersDerived(c, t)
    ensures c.lifecycleMismatches == |Mismatches(t)|
  {
  }

  /** `build_evidence`: audit first, and reduce nothing where the audit fails. */
  method BuildEvidence(c: Gate4EvidenceCollector, digests: Digests, review: Review) returns (ev: Evidence)
    modifies c.journal
    ensures ev.audit.Passed() <==> SoundFile(c.journal.cfg, c.journal.file.content.lines)
    ensures AuditOf(c.journal.cfg, c.journal.file.content.lines, ev.audit)
    ensures DerivedFrom(ev, if ev.audit.Passed() then c.Recorded() else [])
    ensures ev.review == review && ev.digests == digests
  {
    var audit := c.journal.Audit();
    var events: Trace := [];
    if audit.Passed() {
      var read := c.ReadTrace();
      if read.Ok? { events := read.value; }
    }
    ev := Reduce(events, audit, digests, review);
  }
}
