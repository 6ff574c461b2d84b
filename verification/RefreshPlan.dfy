/**
 Daily refresh planning (scripts/run_daily_refresh.py) and the worker that carries the plan
 out (historical.py): which stale symbols are targeted, and that the worker drops none of them.
 */
module RefreshPlan {
  import opened Ordering
  import opened Text

  const REFERENCE_SYMBOL := "SPY"

  // ---------------------------------------------------------------- ticker lists

  /** `[s.strip().upper() for s in symbols if s.strip()]`. */
  function Normalized(symbols: seq<string>): seq<string> {
    if symbols == [] then []
    else (if Strip(symbols[0]) != "" then [Upper(Strip(symbols[0]))] else []) + Normalized(symbols[1..])
  }

  /** The symbols that are not blank, without outer white space and in upper case. */
  lemma {:induction false} NormalizedMeans(symbols: seq<string>)
    ensures forall x :: x in Normalized(symbols) <==>
      exists i :: 0 <= i < |symbols| && Strip(symbols[i]) != "" && x == Upper(Strip(symbols[i]))
  {
    hide Strip, Upper;
    if symbols != [] {
      var rest := symbols[1..];
      NormalizedMeans(rest);
      assert forall i :: 0 <= i < |rest| ==> rest[i] == symbols[i + 1];
      forall x
        ensures x in Normalized(symbols) <==>
          exists i :: 0 <= i < |symbols| && Strip(symbols[i]) != "" && x == Upper(Strip(symbols[i]))
      {
        if x in Normalized(rest) {
          var i :| 0 <= i < |rest| && Strip(rest[i]) != "" && x == Upper(Strip(rest[i]));
          assert symbols[i + 1] == rest[i];
        }
        if i :| 0 <= i < |symbols| && Strip(symbols[i]) != "" && x == Upper(Strip(symbols[i])) {
          if i > 0 { assert symbols[i] == rest[i - 1]; }
        }
      }
    }
  }

  /** The planner's `_refresh_tickers`. */
  function PlannerTickers(universe: seq<string>, alignment: seq<string>): seq<string> {
    Dedupe([REFERENCE_SYMBOL] + Normalized(universe) + alignment)
  }

  /** The worker's `build_refresh_tickers`. */
  function WorkerUniverse(universe: seq<string>): seq<string> {
    Dedupe([REFERENCE_SYMBOL] + Normalized(universe))
  }

  /** The worker's `build_daily_history_tickers`. */
  function WorkerDailyTickers(universe: seq<string>, alignment: seq<string>): seq<string> {
    Dedupe(WorkerUniverse(universe) + alignment)
  }

  lemma {:induction false} DedupeMembers(s: seq<string>)
    ensures Distinct(Dedupe(s))
    ensures forall x :: x in Dedupe(s) <==> x in s
  {
    if s != [] {
      DedupeMembers(s[..|s| - 1]);
      assert s == s[..|s| - 1] + [s[|s| - 1]];
    }
  }

  /** De-duplicating a part first changes nothing. */
  lemma {:induction false} DedupeTwice(a: seq<string>, b: seq<string>)
    ensures Dedupe(Dedupe(a) + b) == Dedupe(a + b)
  {
    if b == [] {
      DedupeMembers(a);
      DistinctIsDeduped(Dedupe(a));
      assert Dedupe(a) + [] == Dedupe(a) && a + [] == a;
    } else {
      var init := b[..|b| - 1];
      DedupeTwice(a, init);
      assert (Dedupe(a) + b)[..|Dedupe(a) + b| - 1] == Dedupe(a) + init;
      assert (a + b)[..|a + b| - 1] == a + init;
    }
  }

  lemma {:induction false} DistinctIsDeduped(s: seq<string>)
    requires Distinct(s)
    ensures Dedupe(s) == s
  {
    if s != [] {
      var init, last := s[..|s| - 1], s[|s| - 1];
      assert s == init + [last];
      DistinctIsDeduped(init);
      assert last !in init;
    }
  }

  /** Planner and worker build the same daily list, in the same order. */
  lemma SameDailyList(universe: seq<string>, alignment: seq<string>)
    ensures WorkerDailyTickers(universe, alignment) == PlannerTickers(universe, alignment)
  {
    DedupeTwice([REFERENCE_SYMBOL] + Normalized(universe), alignment);
  }

  // ---------------------------------------------------------------- stale symbols

  predicate IsStale(latest: map<string, int>, symbol: string, expected: int) {
    symbol !in latest || latest[symbol] < expected
  }

  function StaleOf(latest: map<string, int>, tickers: seq<string>, expected: int): seq<string> {
    if tickers == [] then []
    else
      var last := tickers[|tickers| - 1];
      StaleOf(latest, tickers[..|tickers| - 1], expected) + if IsStale(latest, last, expected) then [last] else []
  }

  /** `_stale_symbols`; also `select_stale_history_symbols`. */
  method StaleSymbols(latest: map<string, int>, tickers: seq<string>, expected: int) returns (stale: seq<string>)
    ensures stale == StaleOf(latest, tickers, expected)
  {
    stale := [];
    for n := 0 to |tickers|
      invariant stale == StaleOf(latest, tickers[..n], expected)
    {
      assert tickers[..n + 1][..n] == tickers[..n];
      if tickers[n] !in latest || latest[tickers[n]] < expected { stale := stale + [tickers[n]]; }
    }
    assert tickers[..|tickers|] == tickers;
  }

  /** The stale symbols are exactly the tickers without current data, each once. */
  lemma {:induction false} StaleOfMeans(latest: map<string, int>, tickers: seq<string>, expected: int)
    ensures forall x :: x in StaleOf(latest, tickers, expected) <==>
      x in tickers && (x in latest ==> latest[x] < expected)
    ensures Distinct(tickers) ==> Distinct(StaleOf(latest, tickers, expected))
  {
    if tickers != [] {
      var init, last := tickers[..|tickers| - 1], tickers[|tickers| - 1];
      assert tickers == init + [last];
      StaleOfMeans(latest, init, expected);
      if Distinct(tickers) {
        assert last !in init;
      }
    }
  }

  // ---------------------------------------------------------------- targeted, excluded, deferred

  function Keep(symbols: seq<string>, p: string -> bool): seq<string> {
    if symbols == [] then []
    else Keep(symbols[..|symbols| - 1], p) + if p(symbols[|symbols| - 1]) then [symbols[|symbols| - 1]] else []
  }

  /** The reference symbol is stale and failing too: only it is tried. */
  predicate CanaryBackoff(stale: seq<string>, chronic: set<string>) {
    REFERENCE_SYMBOL in stale && REFERENCE_SYMBOL in chronic
  }

  function IsActionable(chronic: set<string>): string -> bool {
    (s: string) => s == REFERENCE_SYMBOL || s !in chronic
  }

  function Targeted(stale: seq<string>, chronic: set<string>): seq<string> {
    if CanaryBackoff(stale, chronic) then [REFERENCE_SYMBOL] else Keep(stale, IsActionable(chronic))
  }

  function IsExcluded(chronic: set<string>, targeted: seq<string>): string -> bool {
    (s: string) => s != REFERENCE_SYMBOL && s in chronic && s !in targeted
  }

  function IsDeferred(chronic: set<string>, targeted: seq<string>): string -> bool {
    (s: string) => s !in chronic && s !in targeted
  }

  function Excluded(stale: seq<string>, chronic: set<string>): nat {
    |Keep(stale, IsExcluded(chronic, Targeted(stale, chronic)))|
  }

  function Deferred(stale: seq<string>, chronic: set<string>): nat {
    |Keep(stale, IsDeferred(chronic, Targeted(stale, chronic)))|
  }

  lemma {:induction false} KeepMembers(s: seq<string>, p: string -> bool)
    ensures forall x :: x in Keep(s, p) <==> x in s && p(x)
    ensures Distinct(s) ==> Distinct(Keep(s, p))
  {
    if s != [] {
      var init, last := s[..|s| - 1], s[|s| - 1];
      assert s == init + [last];
      KeepMembers(init, p);
      if Distinct(s) { assert last !in init; }
    }
  }

  /** Three conditions of which exactly one holds of each element split a list. */
  lemma {:induction false} KeepSplits(s: seq<string>, p: string -> bool, q: string -> bool, r: string -> bool)
    requires forall x :: x in s ==> (p(x) || q(x) || r(x)) && !(p(x) && q(x)) && !(p(x) && r(x)) && !(q(x) && r(x))
    ensures |Keep(s, p)| + |Keep(s, q)| + |Keep(s, r)| == |s|
  {
    if s != [] {
      var init := s[..|s| - 1];
      assert s == init + [s[|s| - 1]];
      KeepSplits(init, p, q, r);
    }
  }

  lemma {:induction false} KeepNone(s: seq<string>, p: string -> bool)
    requires forall x :: x in s ==> !p(x)
    ensures Keep(s, p) == []
  {
    if s != [] {
      assert s == s[..|s| - 1] + [s[|s| - 1]];
      KeepNone(s[..|s| - 1], p);
    }
  }

  function IsReference(): string -> bool { (s: string) => s == REFERENCE_SYMBOL }

  lemma {:induction false} KeepReference(s: seq<string>)
    requires Distinct(s)
    ensures |Keep(s, IsReference())| == if REFERENCE_SYMBOL in s then 1 else 0
  {
    if s != [] {
      var init, last := s[..|s| - 1], s[|s| - 1];
      assert s == init + [last];
      KeepReference(init);
      assert last !in init;
    }
  }

  /** Every stale symbol is in exactly one class, and the counts add up, with and without back-off. */
  lemma EveryStaleSymbolCounted(stale: seq<string>, chronic: set<string>)
    requires Distinct(stale)
    ensures |stale| == |Targeted(stale, chronic)| + Excluded(stale, chronic) + Deferred(stale, chronic)
    ensures Distinct(Targeted(stale, chronic)) && forall x :: x in Targeted(stale, chronic) ==> x in stale
    ensures forall x :: x in Targeted(stale, chronic) <==>
      x in stale && (x == "SPY" || (x !in chronic && !("SPY" in stale && "SPY" in chronic)))
    ensures forall x :: x in stale && x !in Targeted(stale, chronic) ==>
      (IsExcluded(chronic, Targeted(stale, chronic))(x) <==> x in chronic)
      && (IsDeferred(chronic, Targeted(stale, chronic))(x) <==> x !in chronic)
    ensures "SPY" in stale && "SPY" in chronic ==> Excluded(stale, chronic) + Deferred(stale, chronic) == |stale| - 1
    ensures !("SPY" in stale && "SPY" in chronic) ==> Deferred(stale, chronic) == 0
  {
    var targeted := Targeted(stale, chronic);
    var p := if CanaryBackoff(stale, chronic) then IsReference() else IsActionable(chronic);
    KeepMembers(stale, p);
    if CanaryBackoff(stale, chronic) { KeepReference(stale); }
    hide Keep;
    KeepSplits(stale, p, IsExcluded(chronic, targeted), IsDeferred(chronic, targeted));
    if !CanaryBackoff(stale, chronic) { KeepNone(stale, IsDeferred(chronic, targeted)); }
  }

  function Elements(s: seq<string>): set<string> { set x | x in s }

  lemma {:induction false} DistinctCount(s: seq<string>)
    requires Distinct(s)
    ensures |s| == |Elements(s)|
  {
    if s == [] {
      assert Elements(s) == {};
    } else {
      var init, last := s[..|s| - 1], s[|s| - 1];
      assert s == init + [last];
      DistinctCount(init);
      assert Elements(s) == Elements(init) + {last} && last !in Elements(init);
    }
  }

  /** The counts: the stale symbols left out, the failing ones as excluded and the others as deferred. */
  lemma CountsMean(stale: seq<string>, chronic: set<string>)
    requires Distinct(stale)
    ensures Excluded(stale, chronic) == |set x | x in stale && x !in Targeted(stale, chronic) && x in chronic|
    ensures Deferred(stale, chronic) == |set x | x in stale && x !in Targeted(stale, chronic) && x !in chronic|
  {
    EveryStaleSymbolCounted(stale, chronic);
    var targeted := Targeted(stale, chronic);
    var excluded, deferred := Keep(stale, IsExcluded(chronic, targeted)), Keep(stale, IsDeferred(chronic, targeted));
    KeepMembers(stale, IsExcluded(chronic, targeted));
    KeepMembers(stale, IsDeferred(chronic, targeted));
    DistinctCount(excluded);
    DistinctCount(deferred);
    assert Elements(excluded) == set x | x in stale && x !in targeted && x in chronic;
    assert Elements(deferred) == set x | x in stale && x !in targeted && x !in chronic;
  }

  // ---------------------------------------------------------------- the worker's selection

  /** `read_refresh_symbols_from_stdin`, one planned symbol to a line, then the universe filter. */
  function WorkerSelection(lines: seq<string>, universe: seq<string>): seq<string> {
    Keep(Dedupe(Normalized(lines)), Among(universe))
  }

  function Among(universe: seq<string>): string -> bool { (s: string) => s in universe }

  predicate CanonicalSymbol(s: string) { s != "" && Upper(Strip(s)) == s }

  lemma {:induction false} NormalizedIsCanonical(symbols: seq<string>)
    ensures forall x :: x in Normalized(symbols) ==> CanonicalSymbol(x)
  {
    if symbols != [] {
      NormalizedIsCanonical(symbols[1..]);
      StripUpperIdempotent(symbols[0]);
    }
  }

  lemma {:induction false} CanonicalIsNormal(symbols: seq<string>)
    requires forall x :: x in symbols ==> CanonicalSymbol(x)
    ensures Normalized(symbols) == symbols
  {
    if symbols != [] {
      assert symbols[0] in symbols && CanonicalSymbol(symbols[0]);
      assert Strip(symbols[0]) != "";
      CanonicalIsNormal(symbols[1..]);
      assert symbols == [symbols[0]] + symbols[1..];
    }
  }

  lemma {:induction false} KeepAll(s: seq<string>, p: string -> bool)
    requires forall x :: x in s ==> p(x)
    ensures Keep(s, p) == s
  {
    if s != [] {
      assert s == s[..|s| - 1] + [s[|s| - 1]];
      KeepAll(s[..|s| - 1], p);
    }
  }

  /** A plan of distinct canonical symbols of the worker's list is taken over unchanged. */
  lemma SelectionKeepsPlan(planned: seq<string>, universe: seq<string>)
    requires Distinct(planned) && forall x :: x in planned ==> x in universe && CanonicalSymbol(x)
    ensures WorkerSelection(planned, universe) == planned
  {
    CanonicalIsNormal(planned);
    DistinctIsDeduped(planned);
    hide Normalized, Dedupe, CanonicalSymbol;
    KeepAll(planned, Among(universe));
  }

  lemma PlannerTickersCanonical(universe: seq<string>, alignment: seq<string>)
    requires forall x :: x in alignment ==> CanonicalSymbol(x)
    ensures forall x :: x in PlannerTickers(universe, alignment) ==> CanonicalSymbol(x)
    ensures Distinct(PlannerTickers(universe, alignment))
  {
    DedupeMembers([REFERENCE_SYMBOL] + Normalized(universe) + alignment);
    NormalizedIsCanonical(universe);
    assert CanonicalSymbol(REFERENCE_SYMBOL) by {
      StripFixed(REFERENCE_SYMBOL);
      UpperFixed(REFERENCE_SYMBOL);
    }
    hide CanonicalSymbol, Normalized, Dedupe;
  }

  /** The planner's symbols for hourly data: alignment inputs only where they are the reference. */
  function StockTickers(universe: seq<string>, alignment: seq<string>): seq<string> {
    Keep(PlannerTickers(universe, alignment), IsStock(alignment))
  }

  function IsStock(alignment: seq<string>): string -> bool {
    (s: string) => s == REFERENCE_SYMBOL || s !in alignment
  }

  /** On an unchanged universe the worker drops no symbol of the daily plan. */
  lemma NoDailySymbolDropped(
      universe: seq<string>, alignment: seq<string>, latest: map<string, int>, expected: int, chronic: set<string>)
    requires forall x :: x in alignment ==> CanonicalSymbol(x)
    ensures
      var plan := Targeted(StaleOf(latest, PlannerTickers(universe, alignment), expected), chronic);
      WorkerSelection(plan, WorkerDailyTickers(universe, alignment)) == plan
  {
    var tickers := PlannerTickers(universe, alignment);
    PlannerTickersCanonical(universe, alignment);
    SameDailyList(universe, alignment);
    StaleOfMeans(latest, tickers, expected);
    var stale := StaleOf(latest, tickers, expected);
    EveryStaleSymbolCounted(stale, chronic);
    hide CanonicalSymbol, PlannerTickers, WorkerDailyTickers, StaleOf, Targeted, WorkerSelection;
    SelectionKeepsPlan(Targeted(stale, chronic), tickers);
  }

  /** Nor of the hourly plan, whose symbols are the universe's apart from alignment proxies. */
  lemma NoHourlySymbolDropped(
      universe: seq<string>, alignment: seq<string>, latest: map<string, int>, expected: int, chronic: set<string>)
    requires forall x :: x in alignment ==> CanonicalSymbol(x)
    ensures
      var plan := Targeted(StaleOf(latest, StockTickers(universe, alignment), expected), chronic);
      WorkerSelection(plan, WorkerUniverse(universe)) == plan
    ensures forall x :: x in StockTickers(universe, alignment) <==>
      x in WorkerUniverse(universe) && (x == REFERENCE_SYMBOL || x !in alignment)
  {
    var tickers := StockTickers(universe, alignment);
    PlannerTickersCanonical(universe, alignment);
    KeepMembers(PlannerTickers(universe, alignment), IsStock(alignment));
    DedupeMembers([REFERENCE_SYMBOL] + Normalized(universe) + alignment);
    DedupeMembers([REFERENCE_SYMBOL] + Normalized(universe));
    StaleOfMeans(latest, tickers, expected);
    var stale := StaleOf(latest, tickers, expected);
    EveryStaleSymbolCounted(stale, chronic);
    hide CanonicalSymbol, StaleOf, Targeted, WorkerSelection, Keep, Dedupe, Normalized;
    SelectionKeepsPlan(Targeted(stale, chronic), WorkerUniverse(universe));
  }
}
