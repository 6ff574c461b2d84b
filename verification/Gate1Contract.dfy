/** The Gate-1 safety monitor (gate1/contract.py): six properties of the mutations that crossed the broker boundary. */
module Gate1Contract {
  import opened Common
  import opened Ordering
  import opened Text

  datatype Operation = Operation(group: string, attempt: int, side: string, intent: string, symbol: string)

  /** One mutation, normalised as its constructor leaves it. `None` flags are unknown. */
  datatype Mutation = Mutation(
    action: string, clientOrderId: string, targetBrokerOrderId: string, operation: Option<Operation>,
    exactOrderOwned: Option<bool>, isNewEntry: bool, marketDataFresh: Option<bool>, leaseCurrent: Option<bool>)

  datatype Observation = Observation(
    mutations: seq<Mutation>, openIds: set<string>, rememberedIds: set<string>,
    holdings: map<string, int>, projected: map<string, int>)

  /** A violation; the property and detail texts are functions of it. */
  datatype Finding =
    | StaleEntry(entryId: string)
    | UnownedCancel(target: string)
    | AfterLeaseLoss(action: string, mutationId: string)
    | DuplicateId(clientId: string, times: int)
    | DuplicateOperation(op: Operation, crossings: int)
    | Forgotten(brokerId: string)
    | BelowHoldings(symbol: string, projected: int, held: int)

  // ---------------------------------------------------------------- the six properties

  predicate IsSubmit(m: Mutation) { m.action == "SUBMIT" }

  ghost predicate NoDuplicateOrder(ms: seq<Mutation>) {
    forall i, j :: 0 <= i < j < |ms| && IsSubmit(ms[i]) && IsSubmit(ms[j]) ==>
      && (ms[i].clientOrderId != "" ==> ms[i].clientOrderId != ms[j].clientOrderId)
      && (ms[i].operation.Some? ==> ms[i].operation != ms[j].operation)
  }

  ghost predicate NoUnownedCancellation(ms: seq<Mutation>) {
    forall i :: 0 <= i < |ms| && ms[i].action == "CANCEL" ==> ms[i].exactOrderOwned == Some(true)
  }

  ghost predicate NoStaleEntry(ms: seq<Mutation>) {
    forall i :: 0 <= i < |ms| && IsSubmit(ms[i]) && ms[i].isNewEntry ==> ms[i].marketDataFresh == Some(true)
  }

  predicate Destructive(m: Mutation) { m.action == "SUBMIT" || m.action == "CANCEL" || m.action == "REPLACE" }

  ghost predicate NoneAfterLeaseLoss(ms: seq<Mutation>) {
    forall i :: 0 <= i < |ms| && Destructive(ms[i]) ==> ms[i].leaseCurrent == Some(true)
  }

  function AtLeastZero(n: int): int { if n < 0 then 0 else n }

  function Quantity(m: map<string, int>, symbol: string): int {
    if symbol in m then AtLeastZero(m[symbol]) else 0
  }

  ghost predicate HoldingsCovered(o: Observation) {
    forall s :: s in o.holdings ==> Quantity(o.holdings, s) <= Quantity(o.projected, s)
  }

  ghost predicate SixProperties(o: Observation) {
    && NoDuplicateOrder(o.mutations) && NoUnownedCancellation(o.mutations)
    && NoStaleEntry(o.mutations) && NoneAfterLeaseLoss(o.mutations)
    && o.openIds <= o.rememberedIds
    && HoldingsCovered(o)
  }

  // ---------------------------------------------------------------- how often a finding is reported

  function Count(ms: seq<Mutation>, p: Mutation -> bool): nat {
    if ms == [] then 0 else Count(ms[..|ms| - 1], p) + if p(ms[|ms| - 1]) then 1 else 0
  }

  function SubmitOf(id: string): Mutation -> bool { (m: Mutation) => IsSubmit(m) && m.clientOrderId == id }

  function CrossingOf(op: Operation): Mutation -> bool { (m: Mutation) => IsSubmit(m) && m.operation == Some(op) }

  function Submits(ms: seq<Mutation>, id: string): nat { Count(ms, SubmitOf(id)) }

  function Crossings(ms: seq<Mutation>, op: Operation): nat { Count(ms, CrossingOf(op)) }

  /** Does this one mutation call for this finding? */
  predicate Shows(m: Mutation, f: Finding) {
    match f
    case StaleEntry(id) => IsSubmit(m) && m.isNewEntry && m.marketDataFresh != Some(true) && m.clientOrderId == id
    case UnownedCancel(target) =>
      m.action == "CANCEL" && m.exactOrderOwned != Some(true) && m.targetBrokerOrderId == target
    case AfterLeaseLoss(action, id) =>
      Destructive(m) && m.leaseCurrent != Some(true) && m.action == action && m.clientOrderId == id
    case _ => false
  }

  function Showing(f: Finding): Mutation -> bool { (m: Mutation) => Shows(m, f) }

  function Shown(ms: seq<Mutation>, f: Finding): nat { Count(ms, Showing(f)) }

  function Once(b: bool): nat { if b then 1 else 0 }

  /** The multiplicity of a finding in the monitor's output. */
  ghost function Multiplicity(o: Observation, f: Finding): nat {
    match f
    case DuplicateId(id, times) => Once(id != "" && times > 1 && Submits(o.mutations, id) == times)
    case DuplicateOperation(op, crossings) => Once(crossings > 1 && Crossings(o.mutations, op) == crossings)
    case Forgotten(id) => Once(id in o.openIds && id !in o.rememberedIds)
    case BelowHoldings(s, projected, held) =>
      Once(s in o.holdings && held == Quantity(o.holdings, s)
           && projected == Quantity(o.projected, s) && projected < held)
    case _ => Shown(o.mutations, f)
  }

  ghost predicate Reports(r: seq<Finding>, o: Observation, leq: (Finding, Finding) -> bool) {
    SortedBy(leq, r) && forall f :: multiset(r)[f] == Multiplicity(o, f)
  }

  // ---------------------------------------------------------------- the monitor

  /** `counts.get(key, 0) + 1`. */
  function Bumped<K(!new)>(counts: map<K, nat>, key: K): (r: map<K, nat>)
    ensures forall k :: Counted(r, k) == Counted(counts, k) + if k == key then 1 else 0
  {
    counts[key := Counted(counts, key) + 1]
  }

  function Counted<K>(counts: map<K, nat>, key: K): nat { if key in counts then counts[key] else 0 }

  method Note(r: seq<Finding>, found: bool, f: Finding) returns (s: seq<Finding>)
    ensures forall g :: multiset(s)[g] == multiset(r)[g] + Once(found && g == f)
  {
    s := if found then r + [f] else r;
  }

  method JudgeMutation(m: Mutation, violations: seq<Finding>) returns (r: seq<Finding>)
    ensures forall f :: multiset(r)[f] == multiset(violations)[f] + Once(Shows(m, f))
  {
    r := Note(violations, IsSubmit(m) && m.isNewEntry && m.marketDataFresh != Some(true), StaleEntry(m.clientOrderId));
    r := Note(r, m.action == "CANCEL" && m.exactOrderOwned != Some(true), UnownedCancel(m.targetBrokerOrderId));
    r := Note(r, Destructive(m) && m.leaseCurrent != Some(true), AfterLeaseLoss(m.action, m.clientOrderId));
  }

  lemma CountStep(ms: seq<Mutation>, n: nat, p: Mutation -> bool)
    requires n < |ms|
    ensures Count(ms[..n + 1], p) == Count(ms[..n], p) + Once(p(ms[n]))
  {
    assert ms[..n + 1][..n] == ms[..n];
  }

  lemma NothingCounted()
    ensures forall p :: Count([], p) == 0
  {
  }

  method EvaluateMutations(ms: seq<Mutation>)
    returns (violations: seq<Finding>, submitCounts: map<string, nat>, operationCounts: map<Operation, nat>)
    ensures forall f :: multiset(violations)[f] == Shown(ms, f)
    ensures forall id :: Counted(submitCounts, id) == Submits(ms, id)
    ensures forall op :: Counted(operationCounts, op) == Crossings(ms, op)
  {
    hide Count;
    violations, submitCounts, operationCounts := [], map[], map[];
    assert ms[..0] == [];
    NothingCounted();
    for n := 0 to |ms|
      invariant forall f :: multiset(violations)[f] == Shown(ms[..n], f)
      invariant forall id :: Counted(submitCounts, id) == Submits(ms[..n], id)
      invariant forall op :: Counted(operationCounts, op) == Crossings(ms[..n], op)
    {
      var m := ms[n];
      forall f ensures Shown(ms[..n + 1], f) == Shown(ms[..n], f) + Once(Shows(m, f)) { CountStep(ms, n, Showing(f)); }
      forall id ensures Submits(ms[..n + 1], id) == Submits(ms[..n], id) + Once(IsSubmit(m) && m.clientOrderId == id) {
        CountStep(ms, n, SubmitOf(id));
      }
      forall op
        ensures Crossings(ms[..n + 1], op) == Crossings(ms[..n], op) + Once(IsSubmit(m) && m.operation == Some(op))
      {
        CountStep(ms, n, CrossingOf(op));
      }
      hide Shown, Submits, Crossings, Shows;
      if IsSubmit(m) {
        submitCounts := Bumped(submitCounts, m.clientOrderId);
        if m.operation.Some? { operationCounts := Bumped(operationCounts, m.operation.value); }
      }
      violations := JudgeMutation(m, violations);
    }
    assert ms[..|ms|] == ms;
  }

  method DuplicateIds(counts: map<string, nat>) returns (r: seq<Finding>)
    ensures forall f :: multiset(r)[f] == Once(f.DuplicateId? && f.clientId != "" && f.times > 1
      && Counted(counts, f.clientId) == f.times)
  {
    r := [];
    var ids := counts.Keys;
    while ids != {}
      invariant ids <= counts.Keys
      invariant forall f :: multiset(r)[f] == Once(f.DuplicateId? && f.clientId != "" && f.times > 1
        && f.clientId in counts.Keys - ids && counts[f.clientId] == f.times)
      decreases ids
    {
      var id :| id in ids;
      ids := ids - {id};
      if id != "" && counts[id] > 1 { r := r + [DuplicateId(id, counts[id])]; }
    }
  }

  method DuplicateOperations(counts: map<Operation, nat>) returns (r: seq<Finding>)
    ensures forall f :: multiset(r)[f] == Once(f.DuplicateOperation? && f.crossings > 1
      && Counted(counts, f.op) == f.crossings)
  {
    r := [];
    var ops := counts.Keys;
    while ops != {}
      invariant ops <= counts.Keys
      invariant forall f :: multiset(r)[f] == Once(f.DuplicateOperation? && f.crossings > 1
        && f.op in counts.Keys - ops && counts[f.op] == f.crossings)
      decreases ops
    {
      var op :| op in ops;
      ops := ops - {op};
      if counts[op] > 1 { r := r + [DuplicateOperation(op, counts[op])]; }
    }
  }

  method Duplicates(submitCounts: map<string, nat>, operationCounts: map<Operation, nat>) returns (r: seq<Finding>)
    ensures forall f :: multiset(r)[f] == match f
      case DuplicateId(id, times) => Once(id != "" && times > 1 && Counted(submitCounts, id) == times)
      case DuplicateOperation(op, n) => Once(n > 1 && Counted(operationCounts, op) == n)
      case _ => 0
  {
    var ids := DuplicateIds(submitCounts);
    var ops := DuplicateOperations(operationCounts);
    hide Counted;
    r := ids + ops;
  }

  method ForgottenOrders(openIds: set<string>, remembered: set<string>) returns (r: seq<Finding>)
    ensures forall f :: multiset(r)[f] == Once(f.Forgotten? && f.brokerId in openIds && f.brokerId !in remembered)
  {
    r := [];
    var left := openIds - remembered;
    while left != {}
      invariant left <= openIds - remembered
      invariant forall f :: multiset(r)[f] == Once(f.Forgotten? && f.brokerId in openIds - remembered - left)
      decreases left
    {
      var id :| id in left;
      left := left - {id};
      r := r + [Forgotten(id)];
    }
  }

  method UncoveredHoldings(holdings: map<string, int>, projected: map<string, int>) returns (r: seq<Finding>)
    ensures forall f :: multiset(r)[f] == Once(f.BelowHoldings? && f.symbol in holdings
      && f.held == Quantity(holdings, f.symbol) && f.projected == Quantity(projected, f.symbol) && f.projected < f.held)
  {
    r := [];
    var left := holdings.Keys;
    while left != {}
      invariant left <= holdings.Keys
      invariant forall f :: multiset(r)[f] == Once(f.BelowHoldings? && f.symbol in holdings.Keys - left
        && f.held == Quantity(holdings, f.symbol) && f.projected == Quantity(projected, f.symbol)
        && f.projected < f.held)
      decreases left
    {
      var s :| s in left;
      left := left - {s};
      var held, known := Quantity(holdings, s), Quantity(projected, s);
      if known < held { r := r + [BelowHoldings(s, known, held)]; }
    }
  }

  /** `evaluate_post_failure_properties`; `leq` compares the texts of two findings. */
  method Evaluate(o: Observation, leq: (Finding, Finding) -> bool) returns (r: seq<Finding>)
    requires TotalOrder(leq)
    ensures Reports(r, o, leq)
  {
    hide TotalOrder, SortedBy, SortBy, Shown, Submits, Crossings, Counted, Quantity;
    var shown, submits, operations := EvaluateMutations(o.mutations);
    var duplicates := Duplicates(submits, operations);
    var forgotten := ForgottenOrders(o.openIds, o.rememberedIds);
    var uncovered := UncoveredHoldings(o.holdings, o.projected);
    var all := shown + duplicates + forgotten + uncovered;
    r := SortBy(leq, all);
    SortBySorts(leq, all);
    forall f ensures multiset(all)[f] == Multiplicity(o, f) {
      AddedUp(shown, duplicates, forgotten, uncovered, f);
      if f.DuplicateId? || f.DuplicateOperation? || f.Forgotten? || f.BelowHoldings? { NeverShown(o.mutations, f); }
    }
  }

  lemma AddedUp(a: seq<Finding>, b: seq<Finding>, c: seq<Finding>, d: seq<Finding>, f: Finding)
    ensures multiset(a + b + c + d)[f] == multiset(a)[f] + multiset(b)[f] + multiset(c)[f] + multiset(d)[f]
  {
  }

  lemma {:induction false} NeverShown(ms: seq<Mutation>, f: Finding)
    requires f.DuplicateId? || f.DuplicateOperation? || f.Forgotten? || f.BelowHoldings?
    ensures Shown(ms, f) == 0
  {
    if ms != [] { NeverShown(ms[..|ms| - 1], f); }
  }

  // ---------------------------------------------------------------- what the counts mean

  lemma {:induction false} CountZero(ms: seq<Mutation>, p: Mutation -> bool)
    ensures Count(ms, p) == 0 <==> forall i :: 0 <= i < |ms| ==> !p(ms[i])
  {
    if ms != [] {
      CountZero(ms[..|ms| - 1], p);
      assert forall i :: 0 <= i < |ms| - 1 ==> ms[..|ms| - 1][i] == ms[i];
    }
  }

  lemma {:induction false} CountAtMostOne(ms: seq<Mutation>, p: Mutation -> bool)
    ensures Count(ms, p) <= 1 <==> forall i, j :: 0 <= i < j < |ms| ==> !(p(ms[i]) && p(ms[j]))
  {
    if ms != [] {
      var init := ms[..|ms| - 1];
      CountAtMostOne(init, p);
      CountZero(init, p);
      assert forall i :: 0 <= i < |init| ==> init[i] == ms[i];
    }
  }

  lemma {:induction false} CountOfMultiset(a: seq<Mutation>, b: seq<Mutation>, p: Mutation -> bool)
    requires multiset(a) == multiset(b)
    ensures Count(a, p) == Count(b, p)
  {
    if a == [] {
      assert |multiset(b)| == 0;
    } else {
      var k := TakeOut(a, b);
      CountWithout(b, k, p);
      CountStep(a, |a| - 1, p);
      hide Count;
      assert a[..|a|] == a;
      CountOfMultiset(a[..|a| - 1], b[..k] + b[k + 1..], p);
    }
  }

  lemma TakeOut(a: seq<Mutation>, b: seq<Mutation>) returns (k: nat)
    requires multiset(a) == multiset(b) && a != []
    ensures k < |b| && b[k] == a[|a| - 1] && multiset(a[..|a| - 1]) == multiset(b[..k] + b[k + 1..])
  {
    var last := a[|a| - 1];
    assert last in multiset(b);
    k :| 0 <= k < |b| && b[k] == last;
    Without(b, k);
    assert a == a[..|a| - 1] + [last];
  }

  lemma Without(b: seq<Mutation>, k: nat)
    requires k < |b|
    ensures multiset(b[..k] + b[k + 1..]) == multiset(b) - multiset{b[k]}
  {
    assert b == b[..k] + [b[k]] + b[k + 1..];
  }

  lemma {:induction false} CountWithout(b: seq<Mutation>, k: nat, p: Mutation -> bool)
    requires k < |b|
    ensures Count(b, p) == Count(b[..k] + b[k + 1..], p) + Once(p(b[k]))
  {
    var rest := b[..k] + b[k + 1..];
    if k == |b| - 1 {
      assert rest == b[..|b| - 1];
    } else {
      var init := b[..|b| - 1];
      CountWithout(init, k, p);
      assert rest[..|rest| - 1] == init[..k] + init[k + 1..];
    }
  }

  // ---------------------------------------------------------------- soundness and completeness

  /** The output is empty exactly when the six properties hold. */
  lemma EmptyIffSixProperties(r: seq<Finding>, o: Observation, leq: (Finding, Finding) -> bool)
    requires Reports(r, o, leq)
    ensures r == [] <==> SixProperties(o)
  {
    assert r == [] <==> forall f :: Multiplicity(o, f) == 0 by {
      if r != [] { assert multiset(r)[r[0]] > 0; }
      if forall f :: Multiplicity(o, f) == 0 { assert |multiset(r)| == 0; }
    }
    hide Reports;
    if SixProperties(o) {
      forall f ensures Multiplicity(o, f) == 0 { NothingToReport(o, f); }
    }
    if forall f :: Multiplicity(o, f) == 0 { NothingReported(o); }
  }

  lemma NothingToReport(o: Observation, f: Finding)
    requires SixProperties(o)
    ensures Multiplicity(o, f) == 0
  {
    hide Count;
    match f
    case DuplicateId(id, times) => CountAtMostOne(o.mutations, SubmitOf(id));
    case DuplicateOperation(op, crossings) => CountAtMostOne(o.mutations, CrossingOf(op));
    case Forgotten(id) =>
    case BelowHoldings(s, projected, held) =>
    case _ => CountZero(o.mutations, Showing(f));
  }

  lemma NothingReported(o: Observation)
    requires forall f :: Multiplicity(o, f) == 0
    ensures SixProperties(o)
  {
    var ms := o.mutations;
    NoneShown(o);
    NoneRepeated(o);
    hide Count, Submits, Crossings, Shown;
    forall s | s in o.holdings ensures Quantity(o.holdings, s) <= Quantity(o.projected, s) {
      assert Multiplicity(o, BelowHoldings(s, Quantity(o.projected, s), Quantity(o.holdings, s))) == 0;
    }
    forall id | id in o.openIds ensures id in o.rememberedIds { assert Multiplicity(o, Forgotten(id)) == 0; }
  }

  lemma NoneShown(o: Observation)
    requires forall f :: Multiplicity(o, f) == 0
    ensures NoUnownedCancellation(o.mutations) && NoStaleEntry(o.mutations) && NoneAfterLeaseLoss(o.mutations)
  {
    hide Count;
    var ms := o.mutations;
    forall i | 0 <= i < |ms|
      ensures !Shows(ms[i], StaleEntry(ms[i].clientOrderId)) && !Shows(ms[i], UnownedCancel(ms[i].targetBrokerOrderId))
      ensures !Shows(ms[i], AfterLeaseLoss(ms[i].action, ms[i].clientOrderId))
    {
      NotShown(o, StaleEntry(ms[i].clientOrderId), i);
      NotShown(o, UnownedCancel(ms[i].targetBrokerOrderId), i);
      NotShown(o, AfterLeaseLoss(ms[i].action, ms[i].clientOrderId), i);
    }
  }

  lemma NotShown(o: Observation, f: Finding, i: nat)
    requires Multiplicity(o, f) == 0 && i < |o.mutations| && (f.StaleEntry? || f.UnownedCancel? || f.AfterLeaseLoss?)
    ensures !Shows(o.mutations[i], f)
  {
    CountZero(o.mutations, Showing(f));
  }

  lemma NoneRepeated(o: Observation)
    requires forall f :: Multiplicity(o, f) == 0
    ensures NoDuplicateOrder(o.mutations)
  {
    hide Count;
    var ms := o.mutations;
    forall i, j | 0 <= i < j < |ms| && IsSubmit(ms[i]) && IsSubmit(ms[j])
      ensures ms[i].clientOrderId != "" ==> ms[i].clientOrderId != ms[j].clientOrderId
      ensures ms[i].operation.Some? ==> ms[i].operation != ms[j].operation
    {
      var id := ms[i].clientOrderId;
      assert Multiplicity(o, DuplicateId(id, Submits(ms, id))) == 0;
      CountAtMostOne(ms, SubmitOf(id));
      assert id != "" ==> !(SubmitOf(id)(ms[i]) && SubmitOf(id)(ms[j]));
      if ms[i].operation.Some? {
        var op := ms[i].operation.value;
        assert Multiplicity(o, DuplicateOperation(op, Crossings(ms, op))) == 0;
        CountAtMostOne(ms, CrossingOf(op));
        assert !(CrossingOf(op)(ms[i]) && CrossingOf(op)(ms[j]));
      }
    }
  }

  /** A mutation after lease loss is reported if and only if there is one. */
  lemma LeaseLossReported(r: seq<Finding>, o: Observation, leq: (Finding, Finding) -> bool)
    requires Reports(r, o, leq)
    ensures (forall f: Finding :: f in r ==> !f.AfterLeaseLoss?) <==> NoneAfterLeaseLoss(o.mutations)
    ensures (exists f: Finding :: f in r && f.AfterLeaseLoss?) <==>
      exists i :: && 0 <= i < |o.mutations| && o.mutations[i].action in {"SUBMIT", "CANCEL", "REPLACE"}
                  && o.mutations[i].leaseCurrent != Some(true)
  {
    var ms := o.mutations;
    if NoneAfterLeaseLoss(ms) {
      forall f: Finding | f.AfterLeaseLoss? ensures f !in r {
        CountZero(ms, Showing(f));
        assert multiset(r)[f] == Multiplicity(o, f);
      }
    } else {
      var i :| 0 <= i < |ms| && Destructive(ms[i]) && ms[i].leaseCurrent != Some(true);
      var f := AfterLeaseLoss(ms[i].action, ms[i].clientOrderId);
      assert multiset(r)[f] == Multiplicity(o, f);
      if Multiplicity(o, f) == 0 { NotShown(o, f, i); }
      assert f in r;
    }
  }

  // ---------------------------------------------------------------- order and growth

  /** The output does not depend on the order in which the mutations were observed. */
  lemma OrderDoesNotMatter(
      a: Observation, b: Observation, leq: (Finding, Finding) -> bool, ra: seq<Finding>, rb: seq<Finding>)
    requires TotalOrder(leq) && Reports(ra, a, leq) && Reports(rb, b, leq)
    requires multiset(a.mutations) == multiset(b.mutations) && b == a.(mutations := b.mutations)
    ensures ra == rb
  {
    hide TotalOrder, SortedBy, Count;
    forall f ensures Multiplicity(a, f) == Multiplicity(b, f) {
      match f
      case DuplicateId(id, times) => CountOfMultiset(a.mutations, b.mutations, SubmitOf(id));
      case DuplicateOperation(op, crossings) => CountOfMultiset(a.mutations, b.mutations, CrossingOf(op));
      case Forgotten(id) =>
      case BelowHoldings(s, projected, held) =>
      case _ => CountOfMultiset(a.mutations, b.mutations, Showing(f));
    }
    assert multiset(ra) == multiset(rb);
    SortedIsUnique(leq, ra, rb);
  }

  /** Further mutations never clear a violation: an unsafe history stays unsafe. */
  lemma ViolationsNeverClear(o: Observation, more: seq<Mutation>)
    requires !SixProperties(o)
    ensures !SixProperties(o.(mutations := o.mutations + more))
  {
    var longer := o.(mutations := o.mutations + more);
    assert forall i :: 0 <= i < |o.mutations| ==> longer.mutations[i] == o.mutations[i];
  }
}
