/** Overseas holdings reported for several exchanges (src/api/kis_account_snapshot_dual.py). */
module Holdings {
  import opened Ordering

  datatype Holding = Holding(symbol: string, name: string, evaluationAmount: real, quantity: real)

  type Key = (string, string)

  function KeyOf(h: Holding): Key { (h.symbol, h.name) }

  /** The row that stands for a key: no row of the key is worth more, and no later one as much. */
  ghost predicate Stands(rows: seq<Holding>, h: Holding) {
    exists i :: 0 <= i < |rows| && rows[i] == h
      && (forall j :: 0 <= j < |rows| && KeyOf(rows[j]) == KeyOf(h) ==> rows[j].evaluationAmount <= h.evaluationAmount)
      && (forall j :: i < j < |rows| && KeyOf(rows[j]) == KeyOf(h) ==> rows[j].evaluationAmount < h.evaluationAmount)
  }

  function FirstKeys(rows: seq<Holding>): seq<Key> {
    Dedupe(seq(|rows|, i requires 0 <= i < |rows| => KeyOf(rows[i])))
  }

  /** The dictionary in insertion order: keys as first seen, each with its best row so far. */
  ghost predicate Holds(rows: seq<Holding>, keys: seq<Key>, best: map<Key, Holding>) {
    && keys == FirstKeys(rows)
    && (forall k :: k in best <==> k in keys)
    && (forall k :: k in best ==> KeyOf(best[k]) == k && Stands(rows, best[k]))
    && (forall i :: 0 <= i < |rows| ==> KeyOf(rows[i]) in best)
  }

  lemma NextKey(rows: seq<Holding>, n: nat)
    requires n < |rows|
    ensures FirstKeys(rows[..n + 1]) ==
      FirstKeys(rows[..n]) + if KeyOf(rows[n]) in FirstKeys(rows[..n]) then [] else [KeyOf(rows[n])]
  {
    var some, more := rows[..n], rows[..n + 1];
    var keys := seq(|more|, i requires 0 <= i < |more| => KeyOf(more[i]));
    assert keys[..|keys| - 1] == seq(|some|, i requires 0 <= i < |some| => KeyOf(some[i]));
    assert FirstKeys(some) + [] == FirstKeys(some);
  }

  lemma StillStands(rows: seq<Holding>, n: nat, h: Holding)
    requires n < |rows| && Stands(rows[..n], h)
    requires KeyOf(rows[n]) == KeyOf(h) ==> rows[n].evaluationAmount < h.evaluationAmount
    ensures Stands(rows[..n + 1], h)
  {
    var i :| 0 <= i < n && rows[..n][i] == h
      && (forall j :: 0 <= j < n && KeyOf(rows[..n][j]) == KeyOf(h) ==>
            rows[..n][j].evaluationAmount <= h.evaluationAmount)
      && (forall j :: i < j < n && KeyOf(rows[..n][j]) == KeyOf(h) ==>
            rows[..n][j].evaluationAmount < h.evaluationAmount);
    assert forall j :: 0 <= j < n ==> rows[..n + 1][j] == rows[..n][j];
    assert rows[..n + 1][i] == h;
  }

  lemma NowStands(rows: seq<Holding>, n: nat)
    requires n < |rows|
    requires forall j :: 0 <= j < n && KeyOf(rows[j]) == KeyOf(rows[n]) ==>
      rows[j].evaluationAmount <= rows[n].evaluationAmount
    ensures Stands(rows[..n + 1], rows[n])
  {
    assert rows[..n + 1][n] == rows[n];
  }

  lemma Dominates(rows: seq<Holding>, h: Holding, j: nat)
    requires Stands(rows, h) && j < |rows| && KeyOf(rows[j]) == KeyOf(h)
    ensures rows[j].evaluationAmount <= h.evaluationAmount
  {
  }

  /** Does the row take its key's place in the dictionary? */
  predicate Replaces(best: map<Key, Holding>, h: Holding) {
    KeyOf(h) !in best || h.evaluationAmount >= best[KeyOf(h)].evaluationAmount
  }

  lemma ReplacementStands(rows: seq<Holding>, n: nat, keys: seq<Key>, best: map<Key, Holding>)
    requires n < |rows| && Holds(rows[..n], keys, best) && Replaces(best, rows[n])
    ensures Stands(rows[..n + 1], rows[n])
  {
    hide Stands;
    forall j | 0 <= j < n && KeyOf(rows[j]) == KeyOf(rows[n])
      ensures rows[j].evaluationAmount <= rows[n].evaluationAmount
    {
      assert rows[..n][j] == rows[j];
      Dominates(rows[..n], best[KeyOf(rows[n])], j);
    }
    NowStands(rows, n);
  }

  lemma BestNext(rows: seq<Holding>, n: nat, keys: seq<Key>, best: map<Key, Holding>)
    requires n < |rows| && Holds(rows[..n], keys, best)
    ensures var after := if Replaces(best, rows[n]) then best[KeyOf(rows[n]) := rows[n]] else best;
      forall k :: k in after ==> KeyOf(after[k]) == k && Stands(rows[..n + 1], after[k])
  {
    var h := rows[n];
    if Replaces(best, h) { ReplacementStands(rows, n, keys, best); }
    hide Stands, FirstKeys;
    forall k | k in best && (k != KeyOf(h) || !Replaces(best, h)) ensures Stands(rows[..n + 1], best[k]) {
      StillStands(rows, n, best[k]);
    }
  }

  lemma HoldsNext(rows: seq<Holding>, n: nat, keys: seq<Key>, best: map<Key, Holding>)
    requires n < |rows| && Holds(rows[..n], keys, best)
    ensures Holds(
      rows[..n + 1], if KeyOf(rows[n]) in best then keys else keys + [KeyOf(rows[n])],
      if Replaces(best, rows[n]) then best[KeyOf(rows[n]) := rows[n]] else best)
  {
    hide Stands, FirstKeys;
    BestNext(rows, n, keys, best);
    NextKey(rows, n);
    assert keys + [] == keys;
    var before, seen := rows[..n], rows[..n + 1];
    assert seen == before + [rows[n]];
    hide KeyOf, Replaces;
    forall i | 0 <= i < n ensures KeyOf(seen[i]) in best { assert before[i] == seen[i]; }
  }

  /** One holding per (symbol, name), in order of first appearance: the latest of the most valuable rows. */
  method DedupeHoldings(rows: seq<Holding>) returns (r: seq<Holding>)
    ensures |r| == |FirstKeys(rows)|
    ensures forall i :: 0 <= i < |r| ==> KeyOf(r[i]) == FirstKeys(rows)[i] && Stands(rows, r[i])
  {
    hide Stands, FirstKeys;
    var keys: seq<Key>, best: map<Key, Holding> := [], map[];
    NothingHeld(rows[..0]);
    for n := 0 to |rows|
      invariant Holds(rows[..n], keys, best)
    {
      HoldsNext(rows, n, keys, best);
      hide Holds;
      var h := rows[n];
      if KeyOf(h) !in best { keys := keys + [KeyOf(h)]; }
      if Replaces(best, h) { best := best[KeyOf(h) := h]; }
    }
    assert rows[..|rows|] == rows;
    assert forall i :: 0 <= i < |keys| ==> keys[i] in keys;
    r := seq(|keys|, i requires 0 <= i < |keys| => best[keys[i]]);
  }

  lemma NothingHeld(rows: seq<Holding>)
    requires rows == []
    ensures Holds(rows, [], map[])
  {
  }
}
