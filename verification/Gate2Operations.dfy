/**
 The protocol-operation ledger of the Gate-2 monitor (gate2/reporting.py): every SUBSCRIBE and
 UNSUBSCRIBE that crosses the socket moves the state of one registration, an acknowledgement moves
 it as well, and a move that does not fit the state is an anomaly.
 */
module Gate2Operations {
  import opened Common

  /** Generation, TR id and label of a registration. */
  type Identity = (nat, string, string)

  datatype State = SubscribeSent | Subscribed | UnsubscribeSent

  datatype Operation = Operation(identity: Identity, action: string)

  /** What the ledger sees, in order. */
  datatype Signal = Sent(operation: Operation) | Acknowledged(identities: set<Identity>)

  type Ledger = map<Identity, State>

  predicate IsActive(states: Ledger, id: Identity) { id in states && !states[id].UnsubscribeSent? }

  /** Does the operation fit the state of its registration? */
  predicate Fits(states: Ledger, op: Operation) {
    if op.action == "SUBSCRIBE" then !IsActive(states, op.identity)
    else op.action == "UNSUBSCRIBE" && IsActive(states, op.identity)
  }

  function AfterOperation(states: Ledger, op: Operation): Ledger {
    if op.action == "SUBSCRIBE" then states[op.identity := SubscribeSent]
    else if op.action == "UNSUBSCRIBE" then states[op.identity := UnsubscribeSent]
    else states
  }

  function AfterAcknowledged(states: Ledger, identities: set<Identity>): Ledger {
    states + map id | id in identities :: Subscribed
  }

  function After(states: Ledger, s: Signal): Ledger {
    match s
    case Sent(op) => AfterOperation(states, op)
    case Acknowledged(ids) => AfterAcknowledged(states, ids)
  }

  function StatesOf(signals: seq<Signal>): Ledger {
    if signals == [] then map[] else After(StatesOf(signals[..|signals| - 1]), signals[|signals| - 1])
  }

  /** The signal subscribes the registration, or acknowledges it. */
  predicate Opens(s: Signal, id: Identity) {
    match s
    case Sent(op) => op.identity == id && op.action == "SUBSCRIBE"
    case Acknowledged(ids) => id in ids
  }

  predicate Closes(s: Signal, id: Identity) {
    s.Sent? && s.operation.identity == id && s.operation.action == "UNSUBSCRIBE"
  }

  ghost predicate OpenSince(signals: seq<Signal>, id: Identity, j: int) {
    0 <= j < |signals| && Opens(signals[j], id) && forall m :: j < m < |signals| ==> !Closes(signals[m], id)
  }

  lemma ActiveStep(states: Ledger, s: Signal, id: Identity)
    ensures IsActive(After(states, s), id) <==> Opens(s, id) || (IsActive(states, id) && !Closes(s, id))
  {
  }

  lemma OpenSinceStep(signals: seq<Signal>, s: Signal, id: Identity)
    ensures (exists j :: OpenSince(signals + [s], id, j)) <==>
      Opens(s, id) || ((exists j :: OpenSince(signals, id, j)) && !Closes(s, id))
  {
    hide Opens, Closes;
    var all := signals + [s];
    assert all[|signals|] == s && forall m :: 0 <= m < |signals| ==> all[m] == signals[m];
    if Opens(s, id) { assert OpenSince(all, id, |signals|); }
    if j :| OpenSince(signals, id, j) {
      if !Closes(s, id) { assert OpenSince(all, id, j); }
    }
    if j :| OpenSince(all, id, j) {
      if j < |signals| { assert OpenSince(signals, id, j); }
    }
  }

  /** The state of a registration says whether something opened it that nothing has closed since. */
  lemma {:induction false} ActiveMeans(signals: seq<Signal>, id: Identity)
    ensures IsActive(StatesOf(signals), id) <==> exists j :: OpenSince(signals, id, j)
  {
    if signals != [] {
      var init, s := signals[..|signals| - 1], signals[|signals| - 1];
      ActiveMeans(init, id);
      ActiveStep(StatesOf(init), s, id);
      OpenSinceStep(init, s, id);
      assert signals == init + [s];
    }
  }

  /** The operations that did not fit. */
  ghost function Misfits(signals: seq<Signal>): set<int> {
    set k | 0 <= k < |signals| && signals[k].Sent? && !Fits(StatesOf(signals[..k]), signals[k].operation)
  }

  lemma MisfitsStep(signals: seq<Signal>, s: Signal)
    ensures |Misfits(signals + [s])|
         == |Misfits(signals)| + if s.Sent? && !Fits(StatesOf(signals), s.operation) then 1 else 0
  {
    hide Fits, StatesOf;
    var all := signals + [s];
    assert all[..|signals|] == signals && all[|signals|] == s;
    assert forall k :: 0 <= k < |signals| ==> all[k] == signals[k] && all[..k] == signals[..k];
    assert Misfits(all) ==
      Misfits(signals) + if s.Sent? && !Fits(StatesOf(signals), s.operation) then {|signals|} else {};
  }

  /** SUBSCRIBE on a registration that is closed, or UNSUBSCRIBE on one that is open. */
  ghost predicate FitsHistory(before: seq<Signal>, op: Operation) {
    if op.action == "SUBSCRIBE" then forall j :: !OpenSince(before, op.identity, j)
    else op.action == "UNSUBSCRIBE" && exists j :: OpenSince(before, op.identity, j)
  }

  ghost predicate Alternates(signals: seq<Signal>) {
    forall k :: 0 <= k < |signals| && signals[k].Sent? ==> FitsHistory(signals[..k], signals[k].operation)
  }

  lemma FitsIffHistory(before: seq<Signal>, op: Operation)
    ensures Fits(StatesOf(before), op) <==> FitsHistory(before, op)
  {
    ActiveMeans(before, op.identity);
    hide OpenSince, IsActive, StatesOf;
  }

  /** No operation misfits if and only if those of each registration alternate. */
  lemma NoMisfitIffAlternates(signals: seq<Signal>)
    ensures |Misfits(signals)| == 0 <==> Alternates(signals)
  {
    hide Fits, FitsHistory, StatesOf;
    forall k | 0 <= k < |signals| && signals[k].Sent?
      ensures k in Misfits(signals) <==> !FitsHistory(signals[..k], signals[k].operation)
    {
      FitsIffHistory(signals[..k], signals[k].operation);
    }
    if Alternates(signals) {
      forall k ensures k !in Misfits(signals) {}
    }
  }
}
