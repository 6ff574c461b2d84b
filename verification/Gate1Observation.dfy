/**
 Gate-1 observations (gate1/observation.py): broker calls are correlated with durable order
 rows, commands and the evidence sampled at the call, each row and cancel command used once.
 */
module Gate1Observation {
  import opened Common
  import opened Ordering
  import opened Text
  import opened Gate1Contract

  datatype Origin = Application | UserAdopted | External

  datatype OrderRow = OrderRow(
    environment: string, accountNo: string, symbol: string, side: string, intent: string,
    quantity: int, limitPrice: real, clientOrderId: string, brokerOrderId: string,
    identityExact: bool, origin: Origin, permissions: set<string>,
    attemptGroup: string, attempt: int, recoveryCandidates: set<string>)

  datatype Command = Command(
    idempotencyKey: string, commandType: string, targetBrokerOrderId: string,
    ownerDeviceId: string, leaseToken: string, leaseEpoch: int)

  datatype Lease = Lease(deviceId: string, token: string, epoch: int)

  /** Sampled by the broker double at the moment of the call. */
  datatype Evidence = Evidence(lease: Option<Lease>, marketDataFresh: Option<bool>)

  datatype SubmitCall = SubmitCall(
    environment: string, accountNo: string, symbol: string, side: string, quantity: int, limitPrice: real)

  datatype Snapshot = Snapshot(brokerOrderId: string, terminal: bool)

  /** What the builder reads: durable rows on one side, the broker double's records on the other. */
  datatype System = System(
    orders: seq<OrderRow>, commands: seq<Command>, externalIds: set<string>, cards: seq<(string, int)>,
    submitCalls: seq<SubmitCall>, submitEvidence: seq<Evidence>,
    cancelCalls: seq<string>, cancelEvidence: seq<Evidence>,
    snapshots: seq<Snapshot>, holdings: seq<(string, int)>)

  predicate MatchesSubmit(r: OrderRow, c: SubmitCall) {
    && r.environment == Upper(c.environment)
    && r.accountNo == c.accountNo
    && r.symbol == Upper(c.symbol)
    && r.side == Upper(Strip(c.side))
    && r.quantity == c.quantity
    && -0.000000001 < r.limitPrice - c.limitPrice < 0.000000001
  }

  /** The command was authorised under the very lease sampled at the call. */
  predicate LeaseMatches(command: Option<Command>, evidence: Option<Evidence>) {
    && command.Some? && evidence.Some? && evidence.value.lease.Some?
    && var (c, lease) := (command.value, evidence.value.lease.value);
    && c.ownerDeviceId != "" && c.leaseToken != "" && c.leaseEpoch > 0
    && c.ownerDeviceId == lease.deviceId && c.leaseToken == lease.token && c.leaseEpoch == lease.epoch
  }

  predicate CancelOwned(row: Option<OrderRow>) {
    && row.Some? && row.value.identityExact && row.value.brokerOrderId != ""
    && (row.value.origin.Application? || (row.value.origin.UserAdopted? && "CANCEL" in row.value.permissions))
  }

  function OperationOf(row: Option<OrderRow>): Option<Operation> {
    if row.None? || row.value.attemptGroup == "" then None
    else
      var r := row.value;
      Some(Operation(
        Strip(r.attemptGroup), r.attempt, Upper(Strip(r.side)), Upper(Strip(r.intent)), Upper(Strip(r.symbol))))
  }

  function ClientIdOf(row: Option<OrderRow>): string {
    if row.Some? then Strip(row.value.clientOrderId) else ""
  }

  function SubmitMutation(row: Option<OrderRow>, command: Option<Command>, evidence: Option<Evidence>): Mutation {
    Mutation(
      "SUBMIT", ClientIdOf(row), "", OperationOf(row), None,
      row.Some? && row.value.side == "BUY" && row.value.intent == "ENTRY",
      if evidence.Some? then evidence.value.marketDataFresh else None,
      Some(LeaseMatches(command, evidence)))
  }

  function CancelMutation(
      id: string, row: Option<OrderRow>, command: Option<Command>, evidence: Option<Evidence>): Mutation {
    Mutation(
      "CANCEL", ClientIdOf(row), id, OperationOf(row), Some(CancelOwned(row)), false, None,
      Some(LeaseMatches(command, evidence)))
  }

  function At<T>(s: seq<T>, i: Option<nat>): Option<T> {
    if i.Some? && i.value < |s| then Some(s[i.value]) else None
  }

  function FirstWithKey(commands: seq<Command>, key: string): Option<Command> {
    if commands == [] then None
    else if commands[0].idempotencyKey == key then Some(commands[0])
    else FirstWithKey(commands[1..], key)
  }

  function SubmitCommand(commands: seq<Command>, row: Option<OrderRow>): Option<Command> {
    if row.Some? then FirstWithKey(commands, "SUBMIT:" + row.value.clientOrderId) else None
  }

  /** The last row with this broker id. */
  function LastWithBrokerId(orders: seq<OrderRow>, id: string): Option<OrderRow> {
    if orders == [] then None
    else
      var last := orders[|orders| - 1];
      if last.brokerOrderId != "" && last.brokerOrderId == id then Some(last)
      else LastWithBrokerId(orders[..|orders| - 1], id)
  }

  // ---------------------------------------------------------------- greedy matching

  ghost predicate Taken(used: seq<Option<nat>>, n: nat, k: nat) {
    exists j :: 0 <= j < n && j < |used| && used[j] == Some(k)
  }

  /** Call n got the first candidate that suits it and no earlier call has taken, or there is none. */
  ghost predicate Greedy(used: seq<Option<nat>>, n: nat, size: nat, suits: nat -> bool)
    requires n < |used|
  {
    match used[n]
    case None => forall k: nat :: k < size && suits(k) ==> Taken(used, n, k)
    case Some(k) =>
      && k < size && suits(k) && !Taken(used, n, k)
      && forall l: nat :: l < k && suits(l) ==> Taken(used, n, l)
  }

  /** The candidates left after n calls, in order. */
  ghost predicate Left(left: seq<nat>, used: seq<Option<nat>>, size: nat) {
    && (forall k: nat :: k in left <==> k < size && !Taken(used, |used|, k))
    && (forall i, j :: 0 <= i < j < |left| ==> left[i] < left[j])
  }

  /** The first remaining candidate that suits is taken out of the list. */
  method TakeFirst(left: seq<nat>, suits: nat -> bool, ghost used: seq<Option<nat>>, ghost size: nat)
    returns (taken: Option<nat>, rest: seq<nat>)
    requires Left(left, used, size)
    ensures Greedy(used + [taken], |used|, size, suits)
    ensures Left(rest, used + [taken], size)
  {
    var i := 0;
    while i < |left| && !suits(left[i])
      invariant 0 <= i <= |left|
      invariant forall j :: 0 <= j < i ==> !suits(left[j])
    {
      i := i + 1;
    }
    if i == |left| {
      taken, rest := None, left;
      TakenGrows(used, None);
      forall k: nat | k in left ensures !suits(k) {
        var j :| 0 <= j < |left| && left[j] == k;
      }
    } else {
      taken, rest := Some(left[i]), left[..i] + left[i + 1..];
      TakenGrows(used, taken);
      assert left[i] in left;
      forall l: nat | l < left[i] && l in left ensures !suits(l) {
        var j :| 0 <= j < |left| && left[j] == l;
      }
      forall k: nat ensures k in rest <==> k in left && k != left[i] {
        if k in left {
          var j :| 0 <= j < |left| && left[j] == k;
          if j < i { assert rest[j] == k; }
          if j > i { assert rest[j - 1] == k; }
        }
      }
    }
  }

  lemma TakenGrows(used: seq<Option<nat>>, taken: Option<nat>)
    ensures forall k: nat :: Taken(used + [taken], |used| + 1, k) <==> Taken(used, |used|, k) || taken == Some(k)
    ensures forall n: nat, k: nat :: n <= |used| ==> (Taken(used + [taken], n, k) <==> Taken(used, n, k))
  {
    var all := used + [taken];
    forall k: nat ensures Taken(all, |used| + 1, k) <==> Taken(used, |used|, k) || taken == Some(k) {
      if Taken(used, |used|, k) {
        var j :| 0 <= j < |used| && used[j] == Some(k);
        assert all[j] == Some(k);
      }
      if taken == Some(k) { assert all[|used|] == Some(k); }
    }
    forall n: nat, k: nat | n <= |used| ensures Taken(all, n, k) <==> Taken(used, n, k) {
      if Taken(used, n, k) {
        var j :| 0 <= j < n && j < |used| && used[j] == Some(k);
        assert all[j] == Some(k);
      }
    }
  }

  lemma GreedyKept(used: seq<Option<nat>>, taken: Option<nat>, n: nat, size: nat, suits: nat -> bool)
    requires n < |used| && Greedy(used, n, size, suits)
    ensures Greedy(used + [taken], n, size, suits)
  {
    TakenGrows(used, taken);
  }

  /** No candidate is used by two calls. */
  ghost predicate Injective(used: seq<Option<nat>>) {
    forall i, j :: 0 <= i < j < |used| && used[i].Some? ==> used[i] != used[j]
  }

  function FirstIndices(size: nat): (r: seq<nat>)
    ensures |r| == size && forall i :: 0 <= i < size ==> r[i] == i
  {
    seq(size, i requires 0 <= i < size => i)
  }

  lemma NoneTakenYet(size: nat)
    ensures Left(FirstIndices(size), [], size)
  {
    forall k: nat | k < size ensures k in FirstIndices(size) { assert FirstIndices(size)[k] == k; }
  }

  // ---------------------------------------------------------------- submit calls

  function SubmitSuits(orders: seq<OrderRow>, call: SubmitCall): nat -> bool {
    (k: nat) => k < |orders| && MatchesSubmit(orders[k], call)
  }

  function SubmitAt(sys: System, row: Option<nat>, n: nat): Mutation {
    var record := At(sys.orders, row);
    SubmitMutation(record, SubmitCommand(sys.commands, record), At(sys.submitEvidence, Some(n)))
  }

  ghost predicate SubmitsBuilt(sys: System, rowOf: seq<Option<nat>>, mutations: seq<Mutation>) {
    && |rowOf| == |mutations| <= |sys.submitCalls|
    && (forall n :: 0 <= n < |rowOf| ==> Greedy(rowOf, n, |sys.orders|, SubmitSuits(sys.orders, sys.submitCalls[n])))
    && (forall n :: 0 <= n < |rowOf| ==> mutations[n] == SubmitAt(sys, rowOf[n], n))
  }

  /** Every submit call takes the first order row that matches it and is still unmatched. */
  method BuildSubmits(sys: System) returns (mutations: seq<Mutation>, rowOf: seq<Option<nat>>)
    ensures |rowOf| == |sys.submitCalls| && SubmitsBuilt(sys, rowOf, mutations)
  {
    hide Greedy, SubmitMutation, SubmitCommand, LeaseMatches;
    mutations, rowOf := [], [];
    var unmatched := FirstIndices(|sys.orders|);
    NoneTakenYet(|sys.orders|);
    for n := 0 to |sys.submitCalls|
      invariant |rowOf| == n && SubmitsBuilt(sys, rowOf, mutations)
      invariant Left(unmatched, rowOf, |sys.orders|)
    {
      var taken, rest := TakeFirst(unmatched, SubmitSuits(sys.orders, sys.submitCalls[n]), rowOf, |sys.orders|);
      forall m | 0 <= m < n
        ensures Greedy(rowOf + [taken], m, |sys.orders|, SubmitSuits(sys.orders, sys.submitCalls[m]))
      {
        GreedyKept(rowOf, taken, m, |sys.orders|, SubmitSuits(sys.orders, sys.submitCalls[m]));
      }
      hide Left, SubmitSuits;
      unmatched := rest;
      mutations := mutations + [SubmitAt(sys, taken, n)];
      rowOf := rowOf + [taken];
    }
  }

  // ---------------------------------------------------------------- cancel calls

  function CancelCommands(commands: seq<Command>): (r: seq<Command>)
    ensures forall c :: c in r <==> c in commands && c.commandType == "cancel"
  {
    if commands == [] then []
    else (if commands[0].commandType == "cancel" then [commands[0]] else []) + CancelCommands(commands[1..])
  }

  function CancelSuits(commands: seq<Command>, call: string): nat -> bool {
    (k: nat) => k < |commands| && commands[k].targetBrokerOrderId == Strip(call)
  }

  function CancelAt(sys: System, command: Option<nat>, n: nat): Mutation
    requires n < |sys.cancelCalls|
  {
    var id := Strip(sys.cancelCalls[n]);
    CancelMutation(id, LastWithBrokerId(sys.orders, id), At(CancelCommands(sys.commands), command),
                   At(sys.cancelEvidence, Some(n)))
  }

  ghost predicate CancelsBuilt(sys: System, commandOf: seq<Option<nat>>, mutations: seq<Mutation>) {
    var commands := CancelCommands(sys.commands);
    && |commandOf| == |mutations| <= |sys.cancelCalls|
    && (forall n :: 0 <= n < |commandOf| ==>
          Greedy(commandOf, n, |commands|, CancelSuits(commands, sys.cancelCalls[n])))
    && (forall n :: 0 <= n < |commandOf| ==> mutations[n] == CancelAt(sys, commandOf[n], n))
  }

  /** `by_broker_id`: a later row replaces an earlier one. */
  method ByBrokerId(orders: seq<OrderRow>) returns (r: map<string, OrderRow>)
    ensures forall id :: (if id in r then Some(r[id]) else None) == LastWithBrokerId(orders, id)
  {
    r := map[];
    for n := 0 to |orders|
      invariant forall id :: (if id in r then Some(r[id]) else None) == LastWithBrokerId(orders[..n], id)
    {
      assert orders[..n + 1][..n] == orders[..n];
      if orders[n].brokerOrderId != "" { r := r[orders[n].brokerOrderId := orders[n]]; }
    }
    assert orders[..|orders|] == orders;
  }

  /** Every cancel call takes the first unused cancel command for its order. */
  method BuildCancels(sys: System) returns (mutations: seq<Mutation>, commandOf: seq<Option<nat>>)
    ensures |commandOf| == |sys.cancelCalls| && CancelsBuilt(sys, commandOf, mutations)
  {
    hide Greedy, CancelMutation, LastWithBrokerId, LeaseMatches, Strip;
    mutations, commandOf := [], [];
    var byBrokerId := ByBrokerId(sys.orders);
    var commands := CancelCommands(sys.commands);
    var unused := FirstIndices(|commands|);
    NoneTakenYet(|commands|);
    for n := 0 to |sys.cancelCalls|
      invariant |commandOf| == n && CancelsBuilt(sys, commandOf, mutations)
      invariant Left(unused, commandOf, |commands|)
    {
      var id := Strip(sys.cancelCalls[n]);
      var record := if id in byBrokerId then Some(byBrokerId[id]) else None;
      var taken, rest := TakeFirst(unused, CancelSuits(commands, sys.cancelCalls[n]), commandOf, |commands|);
      forall m | 0 <= m < n
        ensures Greedy(commandOf + [taken], m, |commands|, CancelSuits(commands, sys.cancelCalls[m]))
      {
        GreedyKept(commandOf, taken, m, |commands|, CancelSuits(commands, sys.cancelCalls[m]));
      }
      hide Left, CancelSuits;
      unused := rest;
      mutations := mutations + [CancelMutation(id, record, At(commands, taken), At(sys.cancelEvidence, Some(n)))];
      commandOf := commandOf + [taken];
    }
  }

  // ---------------------------------------------------------------- the observation

  /** `{key: max(0, value) for key, value in pairs}`. */
  function LastOf(pairs: seq<(string, int)>): map<string, int> {
    if pairs == [] then map[]
    else
      var (key, value) := pairs[|pairs| - 1];
      LastOf(pairs[..|pairs| - 1])[key := AtLeastZero(value)]
  }

  function Uppercased(pairs: seq<(string, int)>): seq<(string, int)> {
    seq(|pairs|, i requires 0 <= i < |pairs| => (Upper(pairs[i].0), pairs[i].1))
  }

  function OpenIds(snapshots: seq<Snapshot>): set<string> {
    set i | 0 <= i < |snapshots| && snapshots[i].brokerOrderId != "" && !snapshots[i].terminal ::
      Strip(snapshots[i].brokerOrderId)
  }

  /** Exact rows, their recovery candidates and the audited external orders. */
  function RememberedIds(sys: System): set<string> {
    (set i | 0 <= i < |sys.orders| && sys.orders[i].identityExact && sys.orders[i].brokerOrderId != "" ::
      sys.orders[i].brokerOrderId)
    + (set i, id | 0 <= i < |sys.orders| && id in sys.orders[i].recoveryCandidates :: id)
    + sys.externalIds
  }

  ghost predicate Observes(o: Observation, sys: System, rowOf: seq<Option<nat>>, commandOf: seq<Option<nat>>) {
    && (exists submits, cancels ::
          && o.mutations == submits + cancels
          && |rowOf| == |sys.submitCalls| && SubmitsBuilt(sys, rowOf, submits)
          && |commandOf| == |sys.cancelCalls| && CancelsBuilt(sys, commandOf, cancels))
    && o.openIds == OpenIds(sys.snapshots)
    && o.rememberedIds == RememberedIds(sys)
    && o.holdings == LastOf(Uppercased(sys.holdings))
    && o.projected == LastOf(sys.cards)
  }

  method BuildObservation(sys: System)
    returns (o: Observation, rowOf: seq<Option<nat>>, commandOf: seq<Option<nat>>)
    ensures Observes(o, sys, rowOf, commandOf)
  {
    hide SubmitsBuilt, CancelsBuilt, OpenIds, RememberedIds, LastOf, Uppercased;
    var submits, cancels;
    submits, rowOf := BuildSubmits(sys);
    cancels, commandOf := BuildCancels(sys);
    o := Observation(
      submits + cancels, OpenIds(sys.snapshots), RememberedIds(sys),
      LastOf(Uppercased(sys.holdings)), LastOf(sys.cards));
  }

  // ---------------------------------------------------------------- what a clean verdict says

  /** The order row has the account, symbol, side, quantity and price of the call. */
  ghost predicate RowOfCall(row: OrderRow, call: SubmitCall) {
    && row.environment == Upper(call.environment) && row.accountNo == call.accountNo
    && row.symbol == Upper(call.symbol) && row.side == Upper(Strip(call.side)) && row.quantity == call.quantity
    && -0.000000001 < row.limitPrice - call.limitPrice < 0.000000001
  }

  /**
   An injective map from submit calls to order rows with the fields of the call, each with a SUBMIT
   command that was authorised under the very device, lease token and lease epoch sampled at the call.
   A new entry was submitted on fresh market data.
   */
  ghost predicate SubmitsBacked(sys: System, rowOf: seq<Option<nat>>) {
    && |rowOf| == |sys.submitCalls| && Injective(rowOf)
    && forall n :: 0 <= n < |rowOf| ==>
      && rowOf[n].Some? && rowOf[n].value < |sys.orders| && n < |sys.submitEvidence|
      && sys.submitEvidence[n].lease.Some?
      && var (row, lease) := (sys.orders[rowOf[n].value], sys.submitEvidence[n].lease.value);
      && RowOfCall(row, sys.submitCalls[n])
      && (exists c ::
            && c in sys.commands && c.idempotencyKey == "SUBMIT:" + row.clientOrderId
            && c.ownerDeviceId == lease.deviceId && c.ownerDeviceId != ""
            && c.leaseToken == lease.token && c.leaseToken != ""
            && c.leaseEpoch == lease.epoch && c.leaseEpoch > 0)
      && (row.side == "BUY" && row.intent == "ENTRY" ==> sys.submitEvidence[n].marketDataFresh == Some(true))
  }

  /**
   An injective map from cancel calls to cancel commands for their order, authorised under the very
   lease sampled at the call; the order is exactly known, and the application's own or adopted with
   the permission to cancel it.
   */
  ghost predicate CancelsBacked(sys: System, commandOf: seq<Option<nat>>) {
    var commands := CancelCommands(sys.commands);
    && |commandOf| == |sys.cancelCalls| && Injective(commandOf)
    && forall n :: 0 <= n < |commandOf| ==>
      && commandOf[n].Some? && commandOf[n].value < |commands| && n < |sys.cancelEvidence|
      && sys.cancelEvidence[n].lease.Some?
      && var (c, lease) := (commands[commandOf[n].value], sys.cancelEvidence[n].lease.value);
      && c in sys.commands && c.commandType == "cancel"
      && c.targetBrokerOrderId == Strip(sys.cancelCalls[n])
      && c.ownerDeviceId == lease.deviceId && c.ownerDeviceId != ""
      && c.leaseToken == lease.token && c.leaseToken != ""
      && c.leaseEpoch == lease.epoch && c.leaseEpoch > 0
      && (exists row :: OwnedOrder(row, sys.orders, Strip(sys.cancelCalls[n])))
  }

  ghost predicate OwnedOrder(row: OrderRow, orders: seq<OrderRow>, id: string) {
    && row in orders && row.brokerOrderId == id && id != "" && row.identityExact
    && (row.origin == Application || (row.origin == UserAdopted && "CANCEL" in row.permissions))
  }

  /** The device, lease token and lease epoch of a command are those of a lease, and none is blank. */
  ghost predicate UnderLease(c: Command, lease: Lease) {
    && c.ownerDeviceId == lease.deviceId && c.ownerDeviceId != ""
    && c.leaseToken == lease.token && c.leaseToken != ""
    && c.leaseEpoch == lease.epoch && c.leaseEpoch > 0
  }

  lemma GreedyIsInjective(used: seq<Option<nat>>, size: nat, suits: seq<nat -> bool>)
    requires |suits| == |used| && forall n :: 0 <= n < |used| ==> Greedy(used, n, size, suits[n])
    ensures Injective(used)
  {
    forall i, j | 0 <= i < j < |used| && used[i].Some? ensures used[i] != used[j] {
      assert Taken(used, j, used[i].value);
      assert Greedy(used, j, size, suits[j]);
    }
  }

  lemma {:induction false} FirstWithKeyIsIn(commands: seq<Command>, key: string)
    ensures FirstWithKey(commands, key).Some? ==>
      FirstWithKey(commands, key).value in commands && FirstWithKey(commands, key).value.idempotencyKey == key
  {
    if commands != [] { FirstWithKeyIsIn(commands[1..], key); }
  }

  lemma {:induction false} LastWithBrokerIdIsIn(orders: seq<OrderRow>, id: string)
    ensures LastWithBrokerId(orders, id).Some? ==>
      LastWithBrokerId(orders, id).value in orders && LastWithBrokerId(orders, id).value.brokerOrderId == id
  {
    if orders != [] { LastWithBrokerIdIsIn(orders[..|orders| - 1], id); }
  }

  /** The order row of the call has a SUBMIT command, and the first one names the lease sampled at the call. */
  ghost predicate SubmitUnderLease(sys: System, row: Option<nat>, n: nat) {
    && row.Some? && row.value < |sys.orders|
    && n < |sys.submitEvidence| && sys.submitEvidence[n].lease.Some?
    && exists k :: && FirstFor(sys.commands, "SUBMIT:" + sys.orders[row.value].clientOrderId, k)
                   && UnderLease(sys.commands[k], sys.submitEvidence[n].lease.value)
  }

  ghost predicate CancelUnderLease(sys: System, command: Option<nat>, n: nat) {
    && command.Some? && command.value < |CancelCommands(sys.commands)|
    && n < |sys.cancelEvidence| && sys.cancelEvidence[n].lease.Some?
    && UnderLease(CancelCommands(sys.commands)[command.value], sys.cancelEvidence[n].lease.value)
  }

  lemma SubmitLeaseIff(sys: System, row: Option<nat>, n: nat)
    ensures SubmitAt(sys, row, n).leaseCurrent == Some(true) <==> SubmitUnderLease(sys, row, n)
  {
    if row.Some? && row.value < |sys.orders| {
      FirstWithKeyIsFirst(sys.commands, "SUBMIT:" + sys.orders[row.value].clientOrderId);
    }
  }

  lemma CancelLeaseIff(sys: System, command: Option<nat>, n: nat)
    requires n < |sys.cancelCalls|
    ensures CancelAt(sys, command, n).leaseCurrent == Some(true) <==> CancelUnderLease(sys, command, n)
  {
    hide Strip;
  }

  /** Command k has this key, and no earlier one does. */
  ghost predicate FirstFor(commands: seq<Command>, key: string, k: int) {
    && 0 <= k < |commands| && commands[k].idempotencyKey == key
    && forall l :: 0 <= l < k ==> commands[l].idempotencyKey != key
  }

  lemma {:induction false} FirstWithKeyIsFirst(commands: seq<Command>, key: string)
    ensures match FirstWithKey(commands, key)
            case None => forall l :: 0 <= l < |commands| ==> commands[l].idempotencyKey != key
            case Some(c) => exists k :: FirstFor(commands, key, k) && commands[k] == c
  {
    if commands != [] && commands[0].idempotencyKey != key {
      var rest := commands[1..];
      FirstWithKeyIsFirst(rest, key);
      assert forall l :: 0 < l < |commands| ==> commands[l] == rest[l - 1];
      if FirstWithKey(rest, key).Some? {
        var k :| FirstFor(rest, key, k) && rest[k] == FirstWithKey(rest, key).value;
        assert FirstFor(commands, key, k + 1);
      }
    } else if commands != [] {
      assert FirstFor(commands, key, 0);
    }
  }

  ghost predicate AllUnderLease(sys: System, rowOf: seq<Option<nat>>, commandOf: seq<Option<nat>>) {
    && (forall n :: 0 <= n < |rowOf| ==> SubmitUnderLease(sys, rowOf[n], n))
    && (forall n :: 0 <= n < |commandOf| ==> CancelUnderLease(sys, commandOf[n], n))
  }

  /**
   The monitor reports no mutation after lease loss if and only if every call has its command, and
   the command carries the device, token and epoch of the lease sampled at the call.
   */
  lemma LeaseFindingsIff(
      sys: System, o: Observation, rowOf: seq<Option<nat>>, commandOf: seq<Option<nat>>,
      r: seq<Finding>, leq: (Finding, Finding) -> bool)
    requires Observes(o, sys, rowOf, commandOf) && Reports(r, o, leq)
    ensures (forall f: Finding :: f in r ==> !f.AfterLeaseLoss?) <==> AllUnderLease(sys, rowOf, commandOf)
  {
    LeaseLossReported(r, o, leq);
    hide SubmitsBuilt, CancelsBuilt, Reports, OpenIds, RememberedIds, LastOf, Uppercased, NoneAfterLeaseLoss,
         AllUnderLease;
    var submits, cancels :| && o.mutations == submits + cancels
      && |rowOf| == |sys.submitCalls| && SubmitsBuilt(sys, rowOf, submits)
      && |commandOf| == |sys.cancelCalls| && CancelsBuilt(sys, commandOf, cancels);
    LeasesOfCalls(sys, rowOf, commandOf, submits, cancels);
  }

  lemma LeasesOfCalls(
      sys: System, rowOf: seq<Option<nat>>, commandOf: seq<Option<nat>>,
      submits: seq<Mutation>, cancels: seq<Mutation>)
    requires |rowOf| == |sys.submitCalls| && SubmitsBuilt(sys, rowOf, submits)
    requires |commandOf| == |sys.cancelCalls| && CancelsBuilt(sys, commandOf, cancels)
    ensures NoneAfterLeaseLoss(submits + cancels) <==> AllUnderLease(sys, rowOf, commandOf)
  {
    hide SubmitUnderLease, CancelUnderLease, Greedy;
    var ms, size := submits + cancels, |submits|;
    forall n | 0 <= n < |rowOf|
      ensures ms[n].action == "SUBMIT" && (ms[n].leaseCurrent == Some(true) <==> SubmitUnderLease(sys, rowOf[n], n))
    {
      assert ms[n] == SubmitAt(sys, rowOf[n], n);
      SubmitLeaseIff(sys, rowOf[n], n);
    }
    forall n | 0 <= n < |commandOf|
      ensures cancels[n].action == "CANCEL"
      ensures cancels[n].leaseCurrent == Some(true) <==> CancelUnderLease(sys, commandOf[n], n)
    {
      assert cancels[n] == CancelAt(sys, commandOf[n], n);
      CancelLeaseIff(sys, commandOf[n], n);
    }
    hide SubmitsBuilt, CancelsBuilt;
    assert |submits| == |rowOf| && |cancels| == |commandOf|;
    assert forall n :: 0 <= n < |cancels| ==> ms[size + n] == cancels[n];
    assert forall i :: size <= i < |ms| ==> ms[i] == cancels[i - size];
  }

  /** A call that opens a position was made on market data sampled as fresh. */
  ghost predicate EntryFresh(sys: System, row: Option<nat>, n: nat) {
    && row.Some? && row.value < |sys.orders|
    && sys.orders[row.value].side == "BUY" && sys.orders[row.value].intent == "ENTRY" ==>
      n < |sys.submitEvidence| && sys.submitEvidence[n].marketDataFresh == Some(true)
  }

  /** The last row with this broker id is one the application may cancel. */
  ghost predicate CancelAllowed(sys: System, id: string) {
    exists k :: 0 <= k < |sys.orders| && OwnedOrder(sys.orders[k], sys.orders, id)
                && forall l :: k < l < |sys.orders| ==> sys.orders[l].brokerOrderId != id
  }

  /** Two rows carry the same client order id, or are the same attempt at the same operation. */
  ghost predicate SameOrder(a: OrderRow, b: OrderRow) {
    || (Strip(a.clientOrderId) != "" && Strip(a.clientOrderId) == Strip(b.clientOrderId))
    || (a.attemptGroup != "" && b.attemptGroup != "" && Strip(a.attemptGroup) == Strip(b.attemptGroup)
        && a.attempt == b.attempt && Upper(Strip(a.side)) == Upper(Strip(b.side))
        && Upper(Strip(a.intent)) == Upper(Strip(b.intent)) && Upper(Strip(a.symbol)) == Upper(Strip(b.symbol)))
  }

  ghost predicate NoOrderTwice(sys: System, rowOf: seq<Option<nat>>) {
    forall a, b ::
      && 0 <= a < b < |rowOf| && rowOf[a].Some? && rowOf[b].Some?
      && rowOf[a].value < |sys.orders| && rowOf[b].value < |sys.orders| ==>
      !SameOrder(sys.orders[rowOf[a].value], sys.orders[rowOf[b].value])
  }

  lemma {:induction false} LastWithBrokerIdIsLast(orders: seq<OrderRow>, id: string)
    ensures match LastWithBrokerId(orders, id)
            case None => id == "" || forall k :: 0 <= k < |orders| ==> orders[k].brokerOrderId != id
            case Some(row) => id != "" && row.brokerOrderId == id
                              && exists k :: && 0 <= k < |orders| && orders[k] == row
                                             && forall l :: k < l < |orders| ==> orders[l].brokerOrderId != id
  {
    if orders != [] {
      var init := orders[..|orders| - 1];
      LastWithBrokerIdIsLast(init, id);
      assert forall k :: 0 <= k < |init| ==> init[k] == orders[k];
    }
  }

  lemma CancelOwnedIff(sys: System, command: Option<nat>, n: nat)
    requires n < |sys.cancelCalls|
    ensures CancelAt(sys, command, n).exactOrderOwned == Some(true) <==> CancelAllowed(sys, Strip(sys.cancelCalls[n]))
  {
    hide Strip, LastWithBrokerId;
    LastWithBrokerIdIsLast(sys.orders, Strip(sys.cancelCalls[n]));
  }

  lemma SubmitFreshIff(sys: System, row: Option<nat>, n: nat)
    ensures var m := SubmitAt(sys, row, n);
      (m.isNewEntry ==> m.marketDataFresh == Some(true)) <==> EntryFresh(sys, row, n)
  {
  }

  lemma SameOrderIff(sys: System, a: Option<nat>, b: Option<nat>, i: nat, j: nat)
    ensures var (m, l) := (SubmitAt(sys, a, i), SubmitAt(sys, b, j));
      ((m.clientOrderId != "" ==> m.clientOrderId != l.clientOrderId)
       && (m.operation.Some? ==> m.operation != l.operation))
      <==>
      (a.Some? && b.Some? && a.value < |sys.orders| && b.value < |sys.orders| ==>
         !SameOrder(sys.orders[a.value], sys.orders[b.value]))
  {
    hide Strip, Upper, SubmitCommand, LeaseMatches;
  }

  lemma SubmitBacked(sys: System, row: Option<nat>, n: nat)
    requires SubmitAt(sys, row, n).leaseCurrent == Some(true)
    requires SubmitAt(sys, row, n).isNewEntry ==> SubmitAt(sys, row, n).marketDataFresh == Some(true)
    ensures row.Some? && row.value < |sys.orders|
    ensures n < |sys.submitEvidence| && sys.submitEvidence[n].lease.Some?
    ensures exists c :: c in sys.commands && c.idempotencyKey == "SUBMIT:" + sys.orders[row.value].clientOrderId
              && UnderLease(c, sys.submitEvidence[n].lease.value)
    ensures sys.orders[row.value].side == "BUY" && sys.orders[row.value].intent == "ENTRY" ==>
      sys.submitEvidence[n].marketDataFresh == Some(true)
  {
    var record := At(sys.orders, row);
    assert record.Some?;
    FirstWithKeyIsIn(sys.commands, "SUBMIT:" + record.value.clientOrderId);
  }

  lemma CancelBacked(sys: System, command: Option<nat>, n: nat)
    requires n < |sys.cancelCalls|
    requires CancelAt(sys, command, n).leaseCurrent == Some(true)
    requires CancelAt(sys, command, n).exactOrderOwned == Some(true)
    ensures command.Some? && command.value < |CancelCommands(sys.commands)|
    ensures n < |sys.cancelEvidence| && sys.cancelEvidence[n].lease.Some?
    ensures UnderLease(CancelCommands(sys.commands)[command.value], sys.cancelEvidence[n].lease.value)
    ensures exists row :: OwnedOrder(row, sys.orders, Strip(sys.cancelCalls[n]))
  {
    hide Strip;
    LastWithBrokerIdIsIn(sys.orders, Strip(sys.cancelCalls[n]));
    var id := Strip(sys.cancelCalls[n]);
    assert OwnedOrder(LastWithBrokerId(sys.orders, id).value, sys.orders, id);
  }

  lemma SubmitsAreBacked(sys: System, rowOf: seq<Option<nat>>, submits: seq<Mutation>, ms: seq<Mutation>)
    requires |rowOf| == |sys.submitCalls| && SubmitsBuilt(sys, rowOf, submits) && submits <= ms
    requires NoStaleEntry(ms) && NoneAfterLeaseLoss(ms)
    ensures SubmitsBacked(sys, rowOf)
  {
    hide Upper, Strip;
    var suits := seq(|rowOf|, n requires 0 <= n < |rowOf| => SubmitSuits(sys.orders, sys.submitCalls[n]));
    GreedyIsInjective(rowOf, |sys.orders|, suits);
    forall n | 0 <= n < |rowOf|
      ensures rowOf[n].Some? && rowOf[n].value < |sys.orders|
      ensures n < |sys.submitEvidence| && sys.submitEvidence[n].lease.Some?
      ensures exists c :: c in sys.commands && c.idempotencyKey == "SUBMIT:" + sys.orders[rowOf[n].value].clientOrderId
                && UnderLease(c, sys.submitEvidence[n].lease.value)
      ensures sys.orders[rowOf[n].value].side == "BUY" && sys.orders[rowOf[n].value].intent == "ENTRY" ==>
        sys.submitEvidence[n].marketDataFresh == Some(true)
      ensures MatchesSubmit(sys.orders[rowOf[n].value], sys.submitCalls[n])
    {
      assert ms[n] == submits[n] == SubmitAt(sys, rowOf[n], n);
      SubmitBacked(sys, rowOf[n], n);
      assert Greedy(rowOf, n, |sys.orders|, SubmitSuits(sys.orders, sys.submitCalls[n]));
    }
  }

  lemma CancelsAreBacked(
      sys: System, commandOf: seq<Option<nat>>, submits: seq<Mutation>, cancels: seq<Mutation>)
    requires |commandOf| == |sys.cancelCalls| && CancelsBuilt(sys, commandOf, cancels)
    requires NoUnownedCancellation(submits + cancels) && NoneAfterLeaseLoss(submits + cancels)
    ensures CancelsBacked(sys, commandOf)
  {
    hide OwnedOrder, Strip;
    var commands := CancelCommands(sys.commands);
    var suits := seq(|commandOf|, n requires 0 <= n < |commandOf| => CancelSuits(commands, sys.cancelCalls[n]));
    GreedyIsInjective(commandOf, |commands|, suits);
    forall n | 0 <= n < |commandOf|
      ensures commandOf[n].Some? && commandOf[n].value < |commands|
      ensures n < |sys.cancelEvidence| && sys.cancelEvidence[n].lease.Some?
      ensures UnderLease(commands[commandOf[n].value], sys.cancelEvidence[n].lease.value)
      ensures commands[commandOf[n].value].targetBrokerOrderId == Strip(sys.cancelCalls[n])
      ensures exists row :: OwnedOrder(row, sys.orders, Strip(sys.cancelCalls[n]))
    {
      assert (submits + cancels)[|submits| + n] == cancels[n] == CancelAt(sys, commandOf[n], n);
      CancelBacked(sys, commandOf[n], n);
      assert Greedy(commandOf, n, |commands|, CancelSuits(commands, sys.cancelCalls[n]));
    }
  }

  /** The monitor's silence on a built observation says how every broker call is backed. */
  lemma CleanVerdictMeans(
      sys: System, o: Observation, rowOf: seq<Option<nat>>, commandOf: seq<Option<nat>>,
      r: seq<Finding>, leq: (Finding, Finding) -> bool)
    requires Observes(o, sys, rowOf, commandOf) && Reports(r, o, leq) && r == []
    ensures SubmitsBacked(sys, rowOf) && CancelsBacked(sys, commandOf)
    ensures OpenIds(sys.snapshots) <= RememberedIds(sys)
    ensures forall s :: s in LastOf(Uppercased(sys.holdings)) ==>
      Quantity(LastOf(Uppercased(sys.holdings)), s) <= Quantity(LastOf(sys.cards), s)
  {
    EmptyIffSixProperties(r, o, leq);
    hide SubmitsBuilt, CancelsBuilt, Reports, OpenIds, RememberedIds, LastOf, Uppercased, NoDuplicateOrder,
         NoUnownedCancellation, NoStaleEntry, NoneAfterLeaseLoss, SubmitsBacked, CancelsBacked;
    var submits, cancels :| && o.mutations == submits + cancels
      && |rowOf| == |sys.submitCalls| && SubmitsBuilt(sys, rowOf, submits)
      && |commandOf| == |sys.cancelCalls| && CancelsBuilt(sys, commandOf, cancels);
    SubmitsAreBacked(sys, rowOf, submits, o.mutations);
    CancelsAreBacked(sys, commandOf, submits, cancels);
  }

  /** A row of the call that comes before the one it got, or any row of a call without one, went to an earlier call. */
  lemma RowsInOrder(sys: System, rowOf: seq<Option<nat>>, submits: seq<Mutation>, n: nat)
    requires |rowOf| == |sys.submitCalls| && SubmitsBuilt(sys, rowOf, submits) && n < |rowOf|
    ensures rowOf[n].Some? ==>
      rowOf[n].value < |sys.orders| && RowOfCall(sys.orders[rowOf[n].value], sys.submitCalls[n])
    ensures forall k: nat :: && k < |sys.orders| && RowOfCall(sys.orders[k], sys.submitCalls[n])
                             && (rowOf[n].None? || k < rowOf[n].value) ==>
              exists j :: 0 <= j < n && rowOf[j] == Some(k)
  {
    hide Upper, Strip, SubmitAt;
    var suits := SubmitSuits(sys.orders, sys.submitCalls[n]);
    assert Greedy(rowOf, n, |sys.orders|, suits);
    forall k: nat | k < |sys.orders| && RowOfCall(sys.orders[k], sys.submitCalls[n]) ensures suits(k) {}
  }

  /** The same for cancel calls and the cancel commands for their order. */
  lemma CommandsInOrder(sys: System, commandOf: seq<Option<nat>>, cancels: seq<Mutation>, n: nat)
    requires |commandOf| == |sys.cancelCalls| && CancelsBuilt(sys, commandOf, cancels) && n < |commandOf|
    ensures var commands := CancelCommands(sys.commands);
      && (commandOf[n].Some? ==> && commandOf[n].value < |commands|
                                 && commands[commandOf[n].value].targetBrokerOrderId == Strip(sys.cancelCalls[n]))
      && forall k: nat :: && k < |commands| && commands[k].targetBrokerOrderId == Strip(sys.cancelCalls[n])
                          && (commandOf[n].None? || k < commandOf[n].value) ==>
           exists j :: 0 <= j < n && commandOf[j] == Some(k)
  {
    hide Strip, CancelAt;
    var commands := CancelCommands(sys.commands);
    var suits := CancelSuits(commands, sys.cancelCalls[n]);
    assert Greedy(commandOf, n, |commands|, suits);
    forall k: nat | k < |commands| && commands[k].targetBrokerOrderId == Strip(sys.cancelCalls[n]) ensures suits(k) {}
  }

  // ---------------------------------------------------------------- exactly when the verdict is clean

  ghost predicate CallsBacked(sys: System, rowOf: seq<Option<nat>>, commandOf: seq<Option<nat>>) {
    && AllUnderLease(sys, rowOf, commandOf)
    && NoOrderTwice(sys, rowOf)
    && (forall n :: 0 <= n < |rowOf| ==> EntryFresh(sys, rowOf[n], n))
    && (forall n :: 0 <= n < |sys.cancelCalls| ==> CancelAllowed(sys, Strip(sys.cancelCalls[n])))
  }

  /** Every open broker order is an exact row, a recovery candidate of a row or an audited external order. */
  ghost predicate OpenOrdersRemembered(sys: System) {
    forall i :: 0 <= i < |sys.snapshots| && sys.snapshots[i].brokerOrderId != "" && !sys.snapshots[i].terminal ==>
      var id := Strip(sys.snapshots[i].brokerOrderId);
      || (exists k :: && 0 <= k < |sys.orders| && sys.orders[k].identityExact
                      && sys.orders[k].brokerOrderId != "" && sys.orders[k].brokerOrderId == id)
      || (exists k :: 0 <= k < |sys.orders| && id in sys.orders[k].recoveryCandidates)
      || id in sys.externalIds
  }

  /** Pair k is the last one with this key. */
  ghost predicate LastPair(pairs: seq<(string, int)>, key: string, k: int) {
    0 <= k < |pairs| && pairs[k].0 == key && forall l :: k < l < |pairs| ==> pairs[l].0 != key
  }

  /** Holding i is the last one of this symbol, in whatever case the broker prints it. */
  ghost predicate LastHolding(holdings: seq<(string, int)>, symbol: string, i: int) {
    && 0 <= i < |holdings| && Upper(holdings[i].0) == symbol
    && forall l :: i < l < |holdings| ==> Upper(holdings[l].0) != symbol
  }

  /** The last holding of a symbol is no larger than what the last card of the symbol projects. */
  ghost predicate CardCovers(sys: System, symbol: string) {
    forall i :: LastHolding(sys.holdings, symbol, i) && sys.holdings[i].1 > 0 ==>
      exists k :: LastPair(sys.cards, symbol, k) && sys.holdings[i].1 <= sys.cards[k].1
  }

  ghost predicate CardsCover(sys: System) {
    forall symbol :: CardCovers(sys, symbol)
  }

  lemma {:induction false} LastOfMeans(pairs: seq<(string, int)>, key: string)
    ensures key in LastOf(pairs) <==> exists k :: LastPair(pairs, key, k)
    ensures forall k :: LastPair(pairs, key, k) ==>
      key in LastOf(pairs) && LastOf(pairs)[key] == AtLeastZero(pairs[k].1)
  {
    if pairs != [] {
      var init := pairs[..|pairs| - 1];
      LastOfMeans(init, key);
      assert forall k :: 0 <= k < |init| ==> init[k] == pairs[k];
      if pairs[|pairs| - 1].0 == key {
        assert LastPair(pairs, key, |pairs| - 1);
      } else {
        forall k ensures LastPair(pairs, key, k) <==> LastPair(init, key, k) {}
      }
    }
  }

  lemma HoldingIsPair(holdings: seq<(string, int)>, s: string, i: int)
    ensures LastPair(Uppercased(holdings), s, i) <==> LastHolding(holdings, s, i)
  {
    hide Upper;
    var pairs := Uppercased(holdings);
    assert forall l :: 0 <= l < |holdings| ==> pairs[l].0 == Upper(holdings[l].0);
  }

  lemma CoveredOne(sys: System, s: string)
    ensures var held := LastOf(Uppercased(sys.holdings));
      (s in held ==> Quantity(held, s) <= Quantity(LastOf(sys.cards), s)) <==> CardCovers(sys, s)
  {
    LastOfMeans(Uppercased(sys.holdings), s);
    LastOfMeans(sys.cards, s);
    hide LastOf, Upper;
    forall i ensures LastPair(Uppercased(sys.holdings), s, i) <==> LastHolding(sys.holdings, s, i) {
      HoldingIsPair(sys.holdings, s, i);
    }
  }

  lemma CoveredIff(sys: System, o: Observation)
    requires o.holdings == LastOf(Uppercased(sys.holdings)) && o.projected == LastOf(sys.cards)
    ensures HoldingsCovered(o) <==> CardsCover(sys)
  {
    hide LastOf, Quantity, CardCovers, Uppercased;
    forall s
      ensures (s in o.holdings ==> Quantity(o.holdings, s) <= Quantity(o.projected, s)) <==> CardCovers(sys, s)
    {
      CoveredOne(sys, s);
    }
  }

  lemma RememberedIff(sys: System)
    ensures OpenIds(sys.snapshots) <= RememberedIds(sys) <==> OpenOrdersRemembered(sys)
  {
    hide Strip;
    if OpenIds(sys.snapshots) <= RememberedIds(sys) {
      forall i | 0 <= i < |sys.snapshots| && sys.snapshots[i].brokerOrderId != "" && !sys.snapshots[i].terminal
        ensures Strip(sys.snapshots[i].brokerOrderId) in RememberedIds(sys)
      {
        assert Strip(sys.snapshots[i].brokerOrderId) in OpenIds(sys.snapshots);
      }
    }
  }

  lemma SubmitsOnly(
      sys: System, rowOf: seq<Option<nat>>, commandOf: seq<Option<nat>>,
      submits: seq<Mutation>, cancels: seq<Mutation>)
    requires |rowOf| == |sys.submitCalls| && SubmitsBuilt(sys, rowOf, submits)
    requires |commandOf| == |sys.cancelCalls| && CancelsBuilt(sys, commandOf, cancels)
    ensures NoDuplicateOrder(submits + cancels) <==> NoOrderTwice(sys, rowOf)
    ensures NoStaleEntry(submits + cancels) <==> forall n :: 0 <= n < |rowOf| ==> EntryFresh(sys, rowOf[n], n)
  {
    hide SubmitAt, CancelAt, SameOrder, EntryFresh, Greedy;
    var ms := submits + cancels;
    forall n | 0 <= n < |rowOf|
      ensures ms[n] == SubmitAt(sys, rowOf[n], n) && IsSubmit(ms[n])
      ensures (ms[n].isNewEntry ==> ms[n].marketDataFresh == Some(true)) <==> EntryFresh(sys, rowOf[n], n)
    {
      SubmitActs(sys, rowOf[n], n);
      SubmitFreshIff(sys, rowOf[n], n);
    }
    forall n | |rowOf| <= n < |ms| ensures !IsSubmit(ms[n]) {
      assert ms[n] == CancelAt(sys, commandOf[n - |rowOf|], n - |rowOf|);
      CancelActs(sys, commandOf[n - |rowOf|], n - |rowOf|);
    }
    hide SubmitsBuilt, CancelsBuilt;
    forall i, j | 0 <= i < j < |rowOf|
      ensures
        ((ms[i].clientOrderId != "" ==> ms[i].clientOrderId != ms[j].clientOrderId)
         && (ms[i].operation.Some? ==> ms[i].operation != ms[j].operation))
        <==>
        (rowOf[i].Some? && rowOf[j].Some? && rowOf[i].value < |sys.orders| && rowOf[j].value < |sys.orders| ==>
           !SameOrder(sys.orders[rowOf[i].value], sys.orders[rowOf[j].value]))
    {
      SameOrderIff(sys, rowOf[i], rowOf[j], i, j);
    }
  }

  lemma SubmitActs(sys: System, row: Option<nat>, n: nat)
    ensures SubmitAt(sys, row, n).action == "SUBMIT"
  {
  }

  lemma CancelActs(sys: System, command: Option<nat>, n: nat)
    requires n < |sys.cancelCalls|
    ensures CancelAt(sys, command, n).action == "CANCEL"
  {
  }

  lemma CancelsOnly(
      sys: System, rowOf: seq<Option<nat>>, commandOf: seq<Option<nat>>,
      submits: seq<Mutation>, cancels: seq<Mutation>)
    requires |rowOf| == |sys.submitCalls| && SubmitsBuilt(sys, rowOf, submits)
    requires |commandOf| == |sys.cancelCalls| && CancelsBuilt(sys, commandOf, cancels)
    ensures NoUnownedCancellation(submits + cancels) <==>
      forall n :: 0 <= n < |sys.cancelCalls| ==> CancelAllowed(sys, Strip(sys.cancelCalls[n]))
  {
    hide SubmitAt, CancelAt, CancelAllowed, Greedy;
    var ms := submits + cancels;
    forall n | 0 <= n < |rowOf| ensures ms[n].action == "SUBMIT" {
      assert ms[n] == SubmitAt(sys, rowOf[n], n);
      SubmitActs(sys, rowOf[n], n);
    }
    forall n | 0 <= n < |commandOf|
      ensures cancels[n].action == "CANCEL"
      ensures cancels[n].exactOrderOwned == Some(true) <==> CancelAllowed(sys, Strip(sys.cancelCalls[n]))
    {
      assert cancels[n] == CancelAt(sys, commandOf[n], n);
      CancelActs(sys, commandOf[n], n);
      CancelOwnedIff(sys, commandOf[n], n);
    }
    hide SubmitsBuilt, CancelsBuilt, Strip;
    assert |submits| == |rowOf| && |cancels| == |commandOf|;
    assert forall n :: 0 <= n < |cancels| ==> ms[|submits| + n] == cancels[n];
    assert forall i :: |submits| <= i < |ms| ==> ms[i] == cancels[i - |submits|];
  }

  /**
   Builder and monitor together: silence if and only if every call was made under the lease its
   command was issued under, no order went out twice, new entries were made on fresh data, each
   cancelled order was the application's to cancel, every open order is remembered and no holding
   exceeds its card.
   */
  lemma CleanVerdictIff(
      sys: System, o: Observation, rowOf: seq<Option<nat>>, commandOf: seq<Option<nat>>,
      r: seq<Finding>, leq: (Finding, Finding) -> bool)
    requires Observes(o, sys, rowOf, commandOf) && Reports(r, o, leq)
    ensures r == [] <==> CallsBacked(sys, rowOf, commandOf) && OpenOrdersRemembered(sys) && CardsCover(sys)
  {
    EmptyIffSixProperties(r, o, leq);
    RememberedIff(sys);
    CoveredIff(sys, o);
    hide SubmitsBuilt, CancelsBuilt, Reports, HoldingsCovered, OpenIds, RememberedIds, LastOf, Uppercased,
         NoDuplicateOrder, NoUnownedCancellation, NoStaleEntry, NoneAfterLeaseLoss, AllUnderLease, NoOrderTwice,
         OpenOrdersRemembered, CardsCover, EntryFresh, CancelAllowed;
    var submits, cancels :| && o.mutations == submits + cancels
      && |rowOf| == |sys.submitCalls| && SubmitsBuilt(sys, rowOf, submits)
      && |commandOf| == |sys.cancelCalls| && CancelsBuilt(sys, commandOf, cancels);
    LeasesOfCalls(sys, rowOf, commandOf, submits, cancels);
    SubmitsOnly(sys, rowOf, commandOf, submits, cancels);
    CancelsOnly(sys, rowOf, commandOf, submits, cancels);
  }

  /** Build, then evaluate. */
  method CheckSystem(sys: System, leq: (Finding, Finding) -> bool)
    returns (violations: seq<Finding>, rowOf: seq<Option<nat>>, commandOf: seq<Option<nat>>)
    requires TotalOrder(leq)
    ensures exists o :: Observes(o, sys, rowOf, commandOf) && Reports(violations, o, leq)
    ensures violations == [] ==> SubmitsBacked(sys, rowOf) && CancelsBacked(sys, commandOf)
    ensures violations == [] <==>
      CallsBacked(sys, rowOf, commandOf) && OpenOrdersRemembered(sys) && CardsCover(sys)
  {
    hide Observes, Reports, SubmitsBacked, CancelsBacked, CallsBacked, OpenOrdersRemembered, CardsCover, OpenIds,
         RememberedIds, LastOf, Uppercased;
    var o;
    o, rowOf, commandOf := BuildObservation(sys);
    violations := Evaluate(o, leq);
    CleanVerdictIff(sys, o, rowOf, commandOf, violations, leq);
    if violations == [] { CleanVerdictMeans(sys, o, rowOf, commandOf, violations, leq); }
  }
}
