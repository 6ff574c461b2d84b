/** Total orders, sorting and de-duplication, as the gates' report builders use them. */
module Ordering {

  ghost predicate TotalOrder<T(!new)>(leq: (T, T) -> bool) {
    && (forall x :: leq(x, x))
    && (forall x, y :: leq(x, y) || leq(y, x))
    && (forall x, y :: leq(x, y) && leq(y, x) ==> x == y)
    && (forall x, y, z :: leq(x, y) && leq(y, z) ==> leq(x, z))
  }

  ghost predicate SortedBy<T>(leq: (T, T) -> bool, s: seq<T>) {
    forall i, j :: 0 <= i < j < |s| ==> leq(s[i], s[j])
  }

  ghost predicate Distinct<T>(s: seq<T>) {
    forall i, j :: 0 <= i < j < |s| ==> s[i] != s[j]
  }

  function InsertBy<T>(leq: (T, T) -> bool, x: T, s: seq<T>): seq<T> {
    if s == [] then [x]
    else if leq(x, s[0]) then [x] + s
    else [s[0]] + InsertBy(leq, x, s[1..])
  }

  /** Python's `sorted`: insertion sort, one element at a time. */
  function SortBy<T>(leq: (T, T) -> bool, s: seq<T>): seq<T> {
    if s == [] then [] else InsertBy(leq, s[0], SortBy(leq, s[1..]))
  }

  lemma {:induction false} InsertByKeepsElements<T>(leq: (T, T) -> bool, x: T, s: seq<T>)
    ensures multiset(InsertBy(leq, x, s)) == multiset{x} + multiset(s)
    ensures forall y :: y in InsertBy(leq, x, s) <==> y == x || y in s
  {
    if s != [] && !leq(x, s[0]) {
      InsertByKeepsElements(leq, x, s[1..]);
      assert s == [s[0]] + s[1..];
    }
  }

  lemma TotalOrderFacts<T(!new)>(leq: (T, T) -> bool, x: T, y: T, z: T)
    requires TotalOrder(leq)
    ensures leq(x, x) && (leq(x, y) || leq(y, x))
    ensures leq(x, y) && leq(y, x) ==> x == y
    ensures leq(x, y) && leq(y, z) ==> leq(x, z)
  {
  }

  lemma PrependSorted<T>(leq: (T, T) -> bool, x: T, s: seq<T>)
    requires SortedBy(leq, s) && forall y :: y in s ==> leq(x, y)
    ensures SortedBy(leq, [x] + s)
  {
    var all := [x] + s;
    forall i, j | 0 <= i < j < |all| ensures leq(all[i], all[j]) {
      assert all[j] == s[j - 1] && s[j - 1] in s;
    }
  }

  lemma LeastOfSorted<T(!new)>(leq: (T, T) -> bool, x: T, s: seq<T>)
    requires TotalOrder(leq) && SortedBy(leq, s) && s != [] && leq(x, s[0])
    ensures forall y :: y in s ==> leq(x, y)
  {
    hide TotalOrder;
    forall y | y in s ensures leq(x, y) {
      var j :| 0 <= j < |s| && s[j] == y;
      TotalOrderFacts(leq, x, s[0], y);
    }
  }

  lemma {:induction false} InsertByKeepsOrder<T(!new)>(leq: (T, T) -> bool, x: T, s: seq<T>)
    requires TotalOrder(leq) && SortedBy(leq, s)
    ensures SortedBy(leq, InsertBy(leq, x, s))
    ensures multiset(InsertBy(leq, x, s)) == multiset{x} + multiset(s)
  {
    InsertByKeepsElements(leq, x, s);
    if s != [] && !leq(x, s[0]) {
      TotalOrderFacts(leq, x, s[0], s[0]);
      hide TotalOrder;
      assert s == [s[0]] + s[1..];
      InsertByKeepsOrder(leq, x, s[1..]);
      InsertByKeepsElements(leq, x, s[1..]);
      LeastOfSorted(leq, s[0], s);
      PrependSorted(leq, s[0], InsertBy(leq, x, s[1..]));
    } else if s != [] {
      LeastOfSorted(leq, x, s);
      hide TotalOrder;
      PrependSorted(leq, x, s);
    }
  }

  lemma {:induction false} SortBySorts<T(!new)>(leq: (T, T) -> bool, s: seq<T>)
    requires TotalOrder(leq)
    ensures SortedBy(leq, SortBy(leq, s))
    ensures multiset(SortBy(leq, s)) == multiset(s)
  {
    if s != [] {
      assert s == [s[0]] + s[1..];
      SortBySorts(leq, s[1..]);
      InsertByKeepsOrder(leq, s[0], SortBy(leq, s[1..]));
    }
  }

  /** A sorted sequence is determined by its multiset. */
  lemma {:induction false} SortedIsUnique<T(!new)>(leq: (T, T) -> bool, a: seq<T>, b: seq<T>)
    requires TotalOrder(leq) && SortedBy(leq, a) && SortedBy(leq, b)
    requires multiset(a) == multiset(b)
    ensures a == b
  {
    hide TotalOrder, SortedBy;
    if a == [] {
      assert |multiset(b)| == 0;
    } else {
      assert |multiset(b)| == |a|;
      SameLeast(leq, a, b);
      assert a == [a[0]] + a[1..] && b == [b[0]] + b[1..];
      assert multiset(a[1..]) == multiset(a) - multiset{a[0]};
      assert multiset(b[1..]) == multiset(b) - multiset{b[0]};
      SortedTail(leq, a);
      SortedTail(leq, b);
      SortedIsUnique(leq, a[1..], b[1..]);
    }
  }

  lemma SortedTail<T>(leq: (T, T) -> bool, s: seq<T>)
    requires SortedBy(leq, s) && s != []
    ensures SortedBy(leq, s[1..])
  {
  }

  lemma SameLeast<T(!new)>(leq: (T, T) -> bool, a: seq<T>, b: seq<T>)
    requires TotalOrder(leq) && SortedBy(leq, a) && SortedBy(leq, b)
    requires multiset(a) == multiset(b) && a != [] && b != []
    ensures a[0] == b[0]
  {
    assert a[0] in multiset(b) && b[0] in multiset(a);
    TotalOrderFacts(leq, a[0], b[0], a[0]);
    TotalOrderFacts(leq, b[0], a[0], b[0]);
    LeastOfSorted(leq, a[0], a);
    LeastOfSorted(leq, b[0], b);
  }

  /** The code-point order Python uses on text. */
  predicate LexLeq(a: string, b: string) {
    a == [] || (b != [] && (a[0] < b[0] || (a[0] == b[0] && LexLeq(a[1..], b[1..]))))
  }

  lemma {:induction false} LexAntisymmetric(a: string, b: string)
    requires LexLeq(a, b) && LexLeq(b, a)
    ensures a == b
  {
    if a != [] && b != [] {
      LexAntisymmetric(a[1..], b[1..]);
      assert a == [a[0]] + a[1..] && b == [b[0]] + b[1..];
    }
  }

  lemma {:induction false} LexTotal(a: string, b: string)
    ensures LexLeq(a, b) || LexLeq(b, a)
  {
    if a != [] && b != [] { LexTotal(a[1..], b[1..]); }
  }

  lemma {:induction false} LexTransitive(a: string, b: string, c: string)
    requires LexLeq(a, b) && LexLeq(b, c)
    ensures LexLeq(a, c)
  {
    if a != [] && b != [] && c != [] && a[0] == b[0] == c[0] {
      LexTransitive(a[1..], b[1..], c[1..]);
    }
  }

  lemma LexIsTotalOrder()
    ensures TotalOrder(LexLeq)
  {
    forall x: string ensures LexLeq(x, x) { LexTotal(x, x); }
    forall x: string, y: string ensures LexLeq(x, y) || LexLeq(y, x) { LexTotal(x, y); }
    forall x: string, y: string | LexLeq(x, y) && LexLeq(y, x) ensures x == y { LexAntisymmetric(x, y); }
    forall x: string, y: string, z: string | LexLeq(x, y) && LexLeq(y, z) ensures LexLeq(x, z) {
      LexTransitive(x, y, z);
    }
  }

  /** `sorted(set(...))` over text: inserts only what is not there yet. */
  function SortUnique(s: seq<string>): seq<string> {
    if s == [] then []
    else
      var rest := SortUnique(s[1..]);
      if s[0] in rest then rest else InsertBy(LexLeq, s[0], rest)
  }

  ghost predicate StrictlySorted(s: seq<string>) {
    SortedBy(LexLeq, s) && Distinct(s)
  }

  lemma {:induction false} SortUniqueSorts(s: seq<string>)
    ensures StrictlySorted(SortUnique(s))
    ensures forall x :: x in SortUnique(s) <==> x in s
  {
    if s != [] {
      var rest := SortUnique(s[1..]);
      SortUniqueSorts(s[1..]);
      assert s == [s[0]] + s[1..];
      if s[0] !in rest {
        LexIsTotalOrder();
        InsertByKeepsOrder(LexLeq, s[0], rest);
        var r := InsertBy(LexLeq, s[0], rest);
        forall x ensures x in r <==> x in s {
          assert x in r <==> x in multiset(r);
          assert x in rest <==> x in multiset(rest);
        }
        DistinctFromMultiset(r, s[0], rest);
      }
    }
  }

  lemma DistinctFromMultiset<T>(r: seq<T>, x: T, rest: seq<T>)
    requires multiset(r) == multiset{x} + multiset(rest)
    requires x !in rest && Distinct(rest)
    ensures Distinct(r)
  {
    forall i, j | 0 <= i < j < |r|
      ensures r[i] != r[j]
    {
      if r[i] == r[j] {
        assert r == r[..i] + [r[i]] + r[i + 1..j] + [r[j]] + r[j + 1..];
        assert multiset(r)[r[i]] >= 2;
        DistinctOnce(rest, r[i]);
      }
    }
  }

  lemma {:induction false} DistinctOnce<T>(s: seq<T>, x: T)
    requires Distinct(s)
    ensures multiset(s)[x] <= 1
  {
    if s != [] {
      assert s == [s[0]] + s[1..];
      DistinctOnce(s[1..], x);
      if s[0] == x { assert x !in multiset(s[1..]); }
    }
  }

  /** Strictly sorted text is determined by its set of elements. */
  lemma {:induction false} StrictlySortedIsUnique(a: seq<string>, b: seq<string>)
    requires StrictlySorted(a) && StrictlySorted(b)
    requires forall x :: x in a <==> x in b
    ensures a == b
  {
    LexIsTotalOrder();
    forall x ensures multiset(a)[x] == multiset(b)[x] {
      DistinctOnce(a, x);
      DistinctOnce(b, x);
      assert x in a <==> x in b;
      assert (x in a <==> multiset(a)[x] > 0) && (x in b <==> multiset(b)[x] > 0);
    }
    assert multiset(a) == multiset(b);
    SortedIsUnique(LexLeq, a, b);
  }

  /** Python's `list(dict.fromkeys(s))`: first occurrences, in order. */
  function Dedupe<T(==)>(s: seq<T>): seq<T> {
    if s == [] then []
    else
      var init := Dedupe(s[..|s| - 1]);
      if s[|s| - 1] in init then init else init + [s[|s| - 1]]
  }
}
