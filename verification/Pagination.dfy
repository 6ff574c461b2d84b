/**
 Cursor pagination (src/api/kis_account_snapshot_dual.py and src/api/kis_order.py): both page
 loops return the server's whole chain of pages or raise, never a part of it.
 */
module Pagination {
  import opened Common
  import opened Text

  /** One answer: its `tr_cont` header, its two cursors and its rows. */
  datatype Page = Page(header: string, fk: string, nk: string, rows: seq<string>)

  datatype Request = Request(fk: string, nk: string, cont: string)

  type Server = Request -> Result<Page, string>

  /** How a loop reads an answer. */
  datatype Reader = BalanceReader | OrderReader

  function Header(r: Reader, p: Page): string {
    if r.BalanceReader? then Upper(Strip(p.header)) else Strip(p.header)
  }

  function Cursor(r: Reader, text: string): string {
    if r.BalanceReader? then Strip(text) else text
  }

  predicate Continues(r: Reader, p: Page) { Header(r, p) == "F" || Header(r, p) == "M" }

  predicate HasCursor(r: Reader, p: Page) { Cursor(r, p.fk) != "" || Cursor(r, p.nk) != "" }

  function Next(r: Reader, p: Page): Request { Request(Cursor(r, p.fk), Cursor(r, p.nk), "N") }

  /** The complete list of pages the server has from a request on. */
  predicate FullChain(server: Server, r: Reader, request: Request, pages: seq<Page>)
    decreases |pages|
  {
    && pages != []
    && server(request) == Ok(pages[0])
    && if Continues(r, pages[0])
       then HasCursor(r, pages[0]) && FullChain(server, r, Next(r, pages[0]), pages[1..])
       else |pages| == 1
  }

  /** Following `pages`, all of them continued, leads from one request to the other. */
  predicate Leads(server: Server, r: Reader, request: Request, pages: seq<Page>, current: Request)
    decreases |pages|
  {
    if pages == [] then request == current
    else
      && server(request) == Ok(pages[0])
      && Continues(r, pages[0]) && HasCursor(r, pages[0])
      && Leads(server, r, Next(r, pages[0]), pages[1..], current)
  }

  lemma {:induction false} LeadsOn(
      server: Server, r: Reader, request: Request, pages: seq<Page>, current: Request, p: Page)
    requires Leads(server, r, request, pages, current)
    requires server(current) == Ok(p) && Continues(r, p) && HasCursor(r, p)
    ensures Leads(server, r, request, pages + [p], Next(r, p))
    decreases |pages|
  {
    hide Continues, HasCursor, Next;
    if pages != [] {
      LeadsOn(server, r, Next(r, pages[0]), pages[1..], current, p);
      assert (pages + [p])[1..] == pages[1..] + [p];
    } else {
      assert [p][1..] == [];
    }
  }

  /** A chain from the first request is the pages followed so far and a chain from here. */
  lemma {:induction false} ChainSplits(
      server: Server, r: Reader, request: Request, pages: seq<Page>, current: Request, all: seq<Page>)
    requires Leads(server, r, request, pages, current)
    ensures FullChain(server, r, request, all) <==>
      pages <= all && FullChain(server, r, current, all[|pages|..])
    decreases |pages|
  {
    hide Continues, HasCursor, Next;
    if pages != [] {
      if all != [] {
        ChainSplits(server, r, Next(r, pages[0]), pages[1..], current, all[1..]);
        if pages <= all { assert pages[1..] <= all[1..] && all[1..][|pages| - 1..] == all[|pages|..]; }
        if all[0] == pages[0] && pages[1..] <= all[1..] {
          assert pages == [pages[0]] + pages[1..] && all == [all[0]] + all[1..];
          assert all[1..][|pages| - 1..] == all[|pages|..];
        }
      }
    } else {
      assert all[0..] == all;
    }
  }

  /** The server has at most one complete list. */
  lemma {:induction false} OneChain(server: Server, r: Reader, request: Request, a: seq<Page>, b: seq<Page>)
    requires FullChain(server, r, request, a) && FullChain(server, r, request, b)
    ensures a == b
    decreases |a|
  {
    hide Continues, HasCursor, Next;
    if Continues(r, a[0]) { OneChain(server, r, Next(r, a[0]), a[1..], b[1..]); }
    assert a == [a[0]] + a[1..] && b == [b[0]] + b[1..];
  }

  /** The page that is not continued ends the chain. */
  lemma Ends(server: Server, r: Reader, first: Request, pages: seq<Page>, current: Request, last: Page)
    requires Leads(server, r, first, pages, current) && server(current) == Ok(last) && !Continues(r, last)
    ensures forall all :: FullChain(server, r, first, all) <==> all == pages + [last]
  {
    hide Continues, Leads;
    forall all ensures FullChain(server, r, first, all) <==> all == pages + [last] {
      ChainSplits(server, r, first, pages, current, all);
      if pages <= all && FullChain(server, r, current, all[|pages|..]) {
        assert all == pages + all[|pages|..];
        assert all[|pages|..] == [last];
      }
      assert (pages + [last])[|pages|..] == [last];
    }
  }

  /** An error, or a continuation without a cursor, means there is no complete list. */
  lemma Breaks(server: Server, r: Reader, first: Request, pages: seq<Page>, current: Request)
    requires Leads(server, r, first, pages, current)
    requires server(current).Err? || (Continues(r, server(current).value) && !HasCursor(r, server(current).value))
    ensures forall all :: !FullChain(server, r, first, all)
  {
    hide Continues, HasCursor, Leads;
    forall all ensures !FullChain(server, r, first, all) { ChainSplits(server, r, first, pages, current, all); }
  }

  /** The chain goes on after the pages followed so far. */
  lemma Exceeds(server: Server, r: Reader, first: Request, pages: seq<Page>, current: Request)
    requires Leads(server, r, first, pages, current)
    ensures forall all :: FullChain(server, r, first, all) ==> |all| > |pages|
  {
    hide Continues, HasCursor, Leads;
    forall all | FullChain(server, r, first, all) ensures |all| > |pages| {
      ChainSplits(server, r, first, pages, current, all);
    }
  }

  /** `max(1, max_pages or 20)`. */
  function BalanceLimit(maxPages: Option<int>): int {
    AtLeastOne(if maxPages.None? || maxPages.value == 0 then 20 else maxPages.value)
  }

  function AtLeastOne(n: int): int { if n < 1 then 1 else n }

  /** `_query_balance_pages`: the full chain where it has at most `limit` pages, an error elsewhere. */
  method QueryBalancePages(server: Server, fk: string, nk: string, maxPages: Option<int>)
    returns (result: Result<seq<Page>, string>)
    ensures forall pages :: result == Ok(pages) <==>
      && FullChain(server, BalanceReader, Request(fk, nk, ""), pages)
      && |pages| <= BalanceLimit(maxPages)
  {
    hide Strip, Upper, FullChain, Leads;
    var limit := BalanceLimit(maxPages);
    var first := Request(fk, nk, "");
    var fkValue, nkValue := fk, nk;
    var pages: seq<Page> := [];
    LeadsNowhere(server, BalanceReader, first);
    for index := 0 to limit
      invariant index < limit && |pages| == index
      invariant Leads(server, BalanceReader, first, pages, Request(fkValue, nkValue, if index == 0 then "" else "N"))
    {
      var request := Request(fkValue, nkValue, if index == 0 then "" else "N");
      var answer := server(request);
      if answer.Err? {
        Breaks(server, BalanceReader, first, pages, request);
        return Err(answer.error);
      }
      var data := answer.value;
      var header := Upper(Strip(data.header));
      if header != "F" && header != "M" {
        Ends(server, BalanceReader, first, pages, request, data);
        return Ok(pages + [data]);
      }
      var nextFk, nextNk := Strip(data.fk), Strip(data.nk);
      if nextFk == "" && nextNk == "" {
        Breaks(server, BalanceReader, first, pages, request);
        return Err("continuation was requested without a cursor");
      }
      LeadsOn(server, BalanceReader, first, pages, request, data);
      pages := pages + [data];
      if index + 1 >= limit {
        Exceeds(server, BalanceReader, first, pages, Next(BalanceReader, data));
        return Err("more pages were reported than the limit");
      }
      fkValue, nkValue := nextFk, nextNk;
    }
    assert false;
  }

  /** `_query_pages`: the same, for order inquiries. */
  method QueryOrderPages(server: Server, fk: string, nk: string, maxPages: int)
    returns (result: Result<seq<Page>, string>)
    ensures forall pages :: result == Ok(pages) <==>
      && FullChain(server, OrderReader, Request(fk, nk, ""), pages)
      && |pages| <= AtLeastOne(maxPages)
  {
    hide Strip, Upper, FullChain, Leads;
    var limit := AtLeastOne(maxPages);
    var first := Request(fk, nk, "");
    var current := first;
    var pages: seq<Page> := [];
    LeadsNowhere(server, OrderReader, first);
    for index := 0 to limit
      invariant index < limit && |pages| == index
      invariant Leads(server, OrderReader, first, pages, current)
    {
      var answer := server(current);
      if answer.Err? {
        Breaks(server, OrderReader, first, pages, current);
        return Err(answer.error);
      }
      var data := answer.value;
      var header := Strip(data.header);
      if header != "F" && header != "M" {
        Ends(server, OrderReader, first, pages, current, data);
        return Ok(pages + [data]);
      }
      if data.fk == "" && data.nk == "" {
        Breaks(server, OrderReader, first, pages, current);
        return Err("continuation was requested without a cursor");
      }
      LeadsOn(server, OrderReader, first, pages, current, data);
      pages := pages + [data];
      if index + 1 >= limit {
        Exceeds(server, OrderReader, first, pages, Next(OrderReader, data));
        return Err("more pages were reported than the limit");
      }
      current := Request(data.fk, data.nk, "N");
    }
    assert false;
  }

  lemma LeadsNowhere(server: Server, r: Reader, first: Request)
    ensures Leads(server, r, first, [], first)
  {
  }

  // ---------------------------------------------------------------- what a complete list is

  /** The header of an order page reads F or M, and one of its cursors is not empty. */
  ghost predicate OrderContinued(p: Page) {
    (Strip(p.header) == "F" || Strip(p.header) == "M") && (p.fk != "" || p.nk != "")
  }

  /** Page by page: the first answers the first request, and each other one the cursors of the page before it. */
  lemma {:induction false} OrderChainMeans(server: Server, request: Request, pages: seq<Page>)
    ensures FullChain(server, OrderReader, request, pages) <==>
      && pages != [] && server(request) == Ok(pages[0])
      && Strip(pages[|pages| - 1].header) != "F" && Strip(pages[|pages| - 1].header) != "M"
      && (forall i :: 0 <= i < |pages| - 1 ==> OrderContinued(pages[i]))
      && forall i :: 0 <= i < |pages| - 1 ==> server(Request(pages[i].fk, pages[i].nk, "N")) == Ok(pages[i + 1])
    decreases |pages|
  {
    hide Strip;
    if |pages| > 1 {
      var tail := pages[1..];
      assert forall i :: 0 <= i < |tail| ==> tail[i] == pages[i + 1];
      OrderChainMeans(server, Request(pages[0].fk, pages[0].nk, "N"), tail);
      if forall i :: 0 <= i < |tail| - 1 ==> OrderContinued(tail[i]) {
        assert forall i :: 1 <= i < |pages| - 1 ==> pages[i] == tail[i - 1];
      }
      if forall i :: 0 <= i < |pages| - 1 ==> server(Request(pages[i].fk, pages[i].nk, "N")) == Ok(pages[i + 1]) {
        forall i | 0 <= i < |tail| - 1 ensures server(Request(tail[i].fk, tail[i].nk, "N")) == Ok(tail[i + 1]) {
          assert server(Request(pages[i + 1].fk, pages[i + 1].nk, "N")) == Ok(pages[i + 2]);
        }
      }
    }
  }

  /** The header of a balance page reads F or M in either case, and one of its cursors is not blank. */
  ghost predicate BalanceContinued(p: Page) {
    BalanceHeader(Strip(p.header)) && (Strip(p.fk) != "" || Strip(p.nk) != "")
  }

  ghost predicate BalanceHeader(header: string) { header == "F" || header == "f" || header == "M" || header == "m" }

  lemma EitherCase(header: string)
    ensures BalanceHeader(header) <==> Upper(header) == "F" || Upper(header) == "M"
  {
    if Upper(header) == "F" { assert UpperChar(header[0]) == 'F' && header == [header[0]]; }
    if Upper(header) == "M" { assert UpperChar(header[0]) == 'M' && header == [header[0]]; }
  }

  lemma {:induction false} BalanceChainMeans(server: Server, request: Request, pages: seq<Page>)
    ensures FullChain(server, BalanceReader, request, pages) <==>
      && pages != [] && server(request) == Ok(pages[0])
      && !BalanceHeader(Strip(pages[|pages| - 1].header))
      && (forall i :: 0 <= i < |pages| - 1 ==> BalanceContinued(pages[i]))
      && forall i :: 0 <= i < |pages| - 1 ==>
           server(Request(Strip(pages[i].fk), Strip(pages[i].nk), "N")) == Ok(pages[i + 1])
    decreases |pages|
  {
    hide Strip, Upper, BalanceHeader;
    if pages != [] { EitherCase(Strip(pages[0].header)); }
    if |pages| > 1 {
      var tail := pages[1..];
      assert forall i :: 0 <= i < |tail| ==> tail[i] == pages[i + 1];
      BalanceChainMeans(server, Request(Strip(pages[0].fk), Strip(pages[0].nk), "N"), tail);
      if forall i :: 0 <= i < |tail| - 1 ==> BalanceContinued(tail[i]) {
        assert forall i :: 1 <= i < |pages| - 1 ==> pages[i] == tail[i - 1];
      }
      if forall i :: 0 <= i < |pages| - 1 ==>
           server(Request(Strip(pages[i].fk), Strip(pages[i].nk), "N")) == Ok(pages[i + 1])
      {
        forall i | 0 <= i < |tail| - 1
          ensures server(Request(Strip(tail[i].fk), Strip(tail[i].nk), "N")) == Ok(tail[i + 1])
        {
          assert server(Request(Strip(pages[i + 1].fk), Strip(pages[i + 1].nk), "N")) == Ok(pages[i + 2]);
        }
      }
    }
  }

  // ---------------------------------------------------------------- do the two loops agree?

  /** What the order loop takes for a continuation, the balance loop does too. */
  lemma BalanceContinues(p: Page)
    requires Continues(OrderReader, p)
    ensures Continues(BalanceReader, p)
  {
    UpperFixed(Strip(p.header));
  }

  /** Only the server's answer to a request decides where its chain starts. */
  lemma SameAnswer(server: Server, r: Reader, request: Request, other: Request, pages: seq<Page>)
    requires FullChain(server, r, request, pages)
    ensures FullChain(server, r, other, pages) <==> server(other) == Ok(pages[0])
  {
    hide Continues, HasCursor, Next;
  }

  /** The balance loop, on the cursors of one page with their white space gone, is answered with the other. */
  predicate Follows(server: Server, p: Page, next: Page) {
    HasCursor(BalanceReader, p) && server(Next(BalanceReader, p)) == Ok(next)
  }

  ghost predicate AllFollow(server: Server, pages: seq<Page>) {
    forall i :: 0 <= i < |pages| - 1 ==> Follows(server, pages[i], pages[i + 1])
  }

  lemma AllFollowStep(server: Server, pages: seq<Page>)
    requires |pages| > 1
    ensures AllFollow(server, pages) <==> Follows(server, pages[0], pages[1]) && AllFollow(server, pages[1..])
  {
    hide Follows;
    var tail := pages[1..];
    if Follows(server, pages[0], pages[1]) && AllFollow(server, tail) {
      forall i | 0 <= i < |pages| - 1 ensures Follows(server, pages[i], pages[i + 1]) {
        if i > 0 { assert Follows(server, tail[i - 1], tail[i]); }
      }
    }
    if AllFollow(server, pages) {
      forall i | 0 <= i < |tail| - 1 ensures Follows(server, tail[i], tail[i + 1]) {
        assert Follows(server, pages[i + 1], pages[i + 2]);
      }
    }
  }

  /**
   On every server: the list the order loop takes for complete is complete for the balance loop
   if and only if the balance loop sees no continuation in its last page, and the trimmed cursors
   of the pages before it are there and are answered alike.
   */
  lemma {:induction false} AgreeIff(server: Server, request: Request, pages: seq<Page>)
    requires FullChain(server, OrderReader, request, pages)
    ensures FullChain(server, BalanceReader, request, pages) <==>
      !Continues(BalanceReader, pages[|pages| - 1]) && AllFollow(server, pages)
    decreases |pages|
  {
    var p, tail := pages[0], pages[1..];
    if Continues(OrderReader, p) {
      BalanceContinues(p);
      var here, there := Next(OrderReader, p), Next(BalanceReader, p);
      assert FullChain(server, OrderReader, here, tail);
      assert tail[0] == pages[1] && tail[|tail| - 1] == pages[|pages| - 1];
      AgreeIff(server, here, tail);
      AllFollowStep(server, pages);
      hide Continues, HasCursor, Next, AllFollow;
      if FullChain(server, BalanceReader, here, tail) { SameAnswer(server, BalanceReader, here, there, tail); }
      if FullChain(server, BalanceReader, there, tail) { SameAnswer(server, BalanceReader, there, here, tail); }
    }
  }

  predicate Trimmed(p: Page) { Strip(p.fk) == p.fk && Strip(p.nk) == p.nk }

  /** Every page but the last has cursors without outer white space. */
  ghost predicate TrimmedUpToLast(pages: seq<Page>) {
    forall i :: 0 <= i < |pages| - 1 ==> Trimmed(pages[i])
  }

  lemma TrimmedTail(pages: seq<Page>)
    requires TrimmedUpToLast(pages) && |pages| > 1
    ensures Trimmed(pages[0]) && TrimmedUpToLast(pages[1..])
  {
    hide Trimmed;
    forall i | 0 <= i < |pages[1..]| - 1 ensures Trimmed(pages[1..][i]) { assert Trimmed(pages[i + 1]); }
  }

  lemma {:induction false} TrimmedFollow(server: Server, request: Request, pages: seq<Page>)
    requires FullChain(server, OrderReader, request, pages) && TrimmedUpToLast(pages)
    ensures AllFollow(server, pages)
    decreases |pages|
  {
    if |pages| > 1 {
      hide Strip, Upper, Continues;
      TrimmedTail(pages);
      TrimmedFollow(server, Next(OrderReader, pages[0]), pages[1..]);
      AllFollowStep(server, pages);
    }
  }

  /** Where cursors are trimmed, the header of the last page alone decides. */
  lemma TrimmedAgreeIff(server: Server, request: Request, pages: seq<Page>)
    requires FullChain(server, OrderReader, request, pages) && TrimmedUpToLast(pages)
    ensures FullChain(server, BalanceReader, request, pages) <==> !Continues(BalanceReader, pages[|pages| - 1])
  {
    AgreeIff(server, request, pages);
    TrimmedFollow(server, request, pages);
  }

  /** How many pages of a list the order loop reads: up to the first header it takes for the last. */
  function OrderReads(pages: seq<Page>): (n: nat)
    ensures n <= |pages|
  {
    if |pages| <= 1 || !Continues(OrderReader, pages[0]) then if pages == [] then 0 else 1
    else 1 + OrderReads(pages[1..])
  }

  lemma {:induction false} OrderReadsAll(pages: seq<Page>)
    ensures OrderReads(pages) == |pages| <==>
      forall i :: 0 <= i < |pages| - 1 ==> Continues(OrderReader, pages[i])
  {
    hide Continues;
    if |pages| > 1 {
      var tail := pages[1..];
      OrderReadsAll(tail);
      if forall i :: 0 <= i < |pages| - 1 ==> Continues(OrderReader, pages[i]) {
        forall i | 0 <= i < |tail| - 1 ensures Continues(OrderReader, tail[i]) {
          assert Continues(OrderReader, pages[i + 1]);
        }
      }
      if OrderReads(pages) == |pages| {
        forall i | 0 <= i < |pages| - 1 ensures Continues(OrderReader, pages[i]) {
          if i > 0 { assert Continues(OrderReader, tail[i - 1]); }
        }
      }
    }
  }

  /** On trimmed cursors, where the order loop sees a continuation both loops go on alike. */
  lemma BothGoOn(server: Server, request: Request, pages: seq<Page>)
    requires pages != [] && Trimmed(pages[0]) && Continues(OrderReader, pages[0])
    requires FullChain(server, BalanceReader, request, pages)
    ensures |pages| > 1 && FullChain(server, BalanceReader, Next(OrderReader, pages[0]), pages[1..])
    ensures HasCursor(OrderReader, pages[0]) && server(request) == Ok(pages[0])
  {
    BalanceContinues(pages[0]);
    hide Strip, Upper, Continues;
  }

  lemma OrderStops(server: Server, request: Request, p: Page)
    requires server(request) == Ok(p) && !Continues(OrderReader, p)
    ensures FullChain(server, OrderReader, request, [p])
  {
  }

  lemma OrderGoesOn(server: Server, request: Request, p: Page, more: seq<Page>)
    requires server(request) == Ok(p) && Continues(OrderReader, p) && HasCursor(OrderReader, p)
    requires FullChain(server, OrderReader, Next(OrderReader, p), more)
    ensures FullChain(server, OrderReader, request, [p] + more)
  {
    hide Continues, HasCursor, Next;
    assert ([p] + more)[1..] == more;
  }

  /** Of a complete list with trimmed cursors the order loop returns a prefix, as far as it reads the headers. */
  lemma {:induction false} OrderTakesPrefix(server: Server, request: Request, pages: seq<Page>)
    requires FullChain(server, BalanceReader, request, pages) && TrimmedUpToLast(pages)
    ensures FullChain(server, OrderReader, request, pages[..OrderReads(pages)])
    decreases |pages|
  {
    var p, n := pages[0], OrderReads(pages);
    if Continues(OrderReader, p) {
      BalanceContinues(p);
      assert |pages| > 1;
      hide Continues, HasCursor, Next, FullChain, Trimmed;
      TrimmedTail(pages);
      BothGoOn(server, request, pages);
      var tail := pages[1..];
      OrderTakesPrefix(server, Next(OrderReader, p), tail);
      OrderGoesOn(server, request, p, tail[..n - 1]);
      assert pages[..n] == [p] + tail[..n - 1];
    } else {
      OrderStops(server, request, p);
      hide Continues, FullChain;
      assert pages[..n] == [p];
    }
  }

  /** A lower-case header ends the order loop's list where the balance loop goes on. */
  lemma LowerCaseHeader(server: Server, request: Request, p: Page)
    requires server(request) == Ok(p) && (p.header == "m" || p.header == "f")
    ensures FullChain(server, OrderReader, request, [p]) && !FullChain(server, BalanceReader, request, [p])
  {
    StripFixed(p.header);
    assert Continues(BalanceReader, p) && !Continues(OrderReader, p);
    hide Continues, Next;
  }

  lemma OneSpace()
    ensures Strip(" ") == "" && Strip("") == ""
  {
    assert " "[1..] == "";
  }

  /** A blank cursor leads the order loop on, and stops the balance loop with an error. */
  lemma BlankCursor(server: Server, request: Request, p: Page, last: Page)
    requires server(request) == Ok(p) && p.header == "M" && p.fk == " " && p.nk == ""
    requires server(Request(" ", "", "N")) == Ok(last) && !Continues(OrderReader, last)
    ensures FullChain(server, OrderReader, request, [p, last])
    ensures forall pages :: !FullChain(server, BalanceReader, request, pages)
  {
    OneSpace();
    StripFixed(p.header);
    UpperFixed(p.header);
    assert Continues(OrderReader, p) && Continues(BalanceReader, p);
    assert Next(OrderReader, p) == Request(" ", "", "N") && HasCursor(OrderReader, p) && !HasCursor(BalanceReader, p);
    hide Continues, HasCursor, Next;
    assert [p, last][1..] == [last];
    assert FullChain(server, OrderReader, Next(OrderReader, p), [last]);
  }
}
