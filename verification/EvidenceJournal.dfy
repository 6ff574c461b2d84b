/**
 Tamper-evident append-only evidence (activation_gates/journal.py).

 A journal file is a sequence of lines. A line is blank, unreadable, or a row: a body
 and the digest recorded for it. The digest of a body, the encoded length of a line and
 the times the file system stamps are parameters. So is the encoded text of kind, identifier,
 time and payload: the encoding escapes ASCII line ends, but leaves U+0085, U+2028 and U+2029 as
 they are. `K` is the type of event kinds and `P` the type of payloads.
 */
module EvidenceJournal {
  import opened Common
  import opened Text

  const ZERO_SHA256: string := "0000000000000000000000000000000000000000000000000000000000000000"

  datatype Body<K, P> = Body(
    schemaVersion: int, eventId: string, gate: string, commitSha: string,
    eventType: K, observedAt: string, previous: string, payload: P)

  datatype Event<K, P> = Event(body: Body<K, P>, sha: string)

  datatype Line<K, P> = Blank | Garbage(text: string) | Row(event: Event<K, P>)

  datatype Config<!K(==), !P> = Config(
    gate: string, commitSha: string, allowed: set<K>,
    digest: Body<K, P> -> string, encodedLength: Line<K, P> -> nat,
    encode: (K, string, string, P) -> string)

  // ---------------------------------------------------------------- rows and soundness

  function Rows<K, P>(lines: seq<Line<K, P>>): seq<Event<K, P>> {
    if lines == [] then []
    else
      var init := Rows(lines[..|lines| - 1]);
      match lines[|lines| - 1]
      case Row(e) => init + [e]
      case _ => init
  }

  function Tail<K, P>(rows: seq<Event<K, P>>): string {
    if rows == [] then ZERO_SHA256 else rows[|rows| - 1].sha
  }

  /** What one row can be at fault for. */
  datatype Fault = DuplicateId | BrokenLink | BadDigest | ForeignIdentity | UnknownKind

  ghost predicate Faulty<K, P>(cfg: Config<K, P>, rows: seq<Event<K, P>>, f: Fault, j: int)
    requires 0 <= j < |rows|
  {
    var body := rows[j].body;
    match f
    case DuplicateId => exists i :: 0 <= i < j && rows[i].body.eventId == body.eventId
    case BrokenLink => body.previous != if j == 0 then ZERO_SHA256 else rows[j - 1].sha
    case BadDigest => rows[j].sha != cfg.digest(body)
    case ForeignIdentity => body.gate != cfg.gate || body.commitSha != cfg.commitSha
    case UnknownKind => body.eventType !in cfg.allowed
  }

  ghost function Faults<K, P>(cfg: Config<K, P>, rows: seq<Event<K, P>>, f: Fault): set<int> {
    set j | 0 <= j < |rows| && Faulty(cfg, rows, f, j)
  }

  ghost function Ids<K, P>(rows: seq<Event<K, P>>): set<string> {
    set i | 0 <= i < |rows| :: rows[i].body.eventId
  }

  ghost function Unreadable<K, P>(lines: seq<Line<K, P>>): set<int> {
    set j | 0 <= j < |lines| && lines[j].Garbage?
  }

  ghost function OfKind<K, P>(rows: seq<Event<K, P>>, k: K): set<int> {
    set j | 0 <= j < |rows| && rows[j].body.eventType == k
  }

  /** The chain, identity and uniqueness property an auditor wants, said without counters. */
  ghost predicate Sound<K, P>(cfg: Config<K, P>, rows: seq<Event<K, P>>) {
    && (forall i :: 0 <= i < |rows| ==> rows[i].sha == cfg.digest(rows[i].body))
    && (|rows| > 0 ==> rows[0].body.previous == ZERO_SHA256)
    && (forall i :: 0 < i < |rows| ==> rows[i].body.previous == rows[i - 1].sha)
    && (forall i, j :: 0 <= i < j < |rows| ==> rows[i].body.eventId != rows[j].body.eventId)
    && (forall i :: 0 <= i < |rows| ==> rows[i].body.gate == cfg.gate && rows[i].body.commitSha == cfg.commitSha)
    && (forall i :: 0 <= i < |rows| ==> rows[i].body.eventType in cfg.allowed)
  }

  ghost predicate SoundFile<K, P>(cfg: Config<K, P>, lines: seq<Line<K, P>>) {
    (forall i :: 0 <= i < |lines| ==> !lines[i].Garbage?) && Sound(cfg, Rows(lines))
  }

  datatype AuditCounts<K> = AuditCounts(
    rowCount: nat, eventCounts: map<K, nat>, parseErrors: nat, duplicateIds: nat,
    chainErrors: nat, identityMismatches: nat, unknownKinds: nat)
  {
    predicate Passed() {
      parseErrors == 0 && duplicateIds == 0 && chainErrors == 0 && identityMismatches == 0 && unknownKinds == 0
    }
  }

  /** What the counters of an audit mean, for the rows and for the unreadable lines. */
  ghost predicate CountsRows<K, P>(cfg: Config<K, P>, rows: seq<Event<K, P>>, a: AuditCounts<K>) {
    && a.rowCount == |rows|
    && a.eventCounts.Keys == cfg.allowed
    && (forall k :: k in cfg.allowed ==> a.eventCounts[k] == |OfKind(rows, k)|)
    && a.duplicateIds == |Faults(cfg, rows, DuplicateId)|
    && a.chainErrors == |Faults(cfg, rows, BrokenLink)| + |Faults(cfg, rows, BadDigest)|
    && a.identityMismatches == |Faults(cfg, rows, ForeignIdentity)|
    && a.unknownKinds == |Faults(cfg, rows, UnknownKind)|
  }

  ghost predicate AuditOf<K, P>(cfg: Config<K, P>, lines: seq<Line<K, P>>, a: AuditCounts<K>) {
    CountsRows(cfg, Rows(lines), a) && a.parseErrors == |Unreadable(lines)|
  }

  lemma RowsOfPrefix<K, P>(lines: seq<Line<K, P>>, i: nat)
    requires i < |lines|
    ensures lines[i].Row? ==> Rows(lines[..i + 1]) == Rows(lines[..i]) + [lines[i].event]
    ensures !lines[i].Row? ==> Rows(lines[..i + 1]) == Rows(lines[..i])
  {
    assert lines[..i + 1][..i] == lines[..i];
  }

  /** Whether a row is at fault depends on nothing that comes after it. */
  lemma FaultIgnoresLaterRows<K, P>(cfg: Config<K, P>, rows: seq<Event<K, P>>, e: Event<K, P>, f: Fault, j: int)
    requires 0 <= j < |rows|
    ensures Faulty(cfg, rows + [e], f, j) <==> Faulty(cfg, rows, f, j)
  {
    var more := rows + [e];
    assert forall i :: 0 <= i < |rows| ==> more[i] == rows[i];
    match f
    case DuplicateId =>
      assert forall i :: 0 <= i < j ==> more[i].body.eventId == rows[i].body.eventId;
    case _ =>
  }

  lemma FaultsGrow<K, P>(cfg: Config<K, P>, rows: seq<Event<K, P>>, e: Event<K, P>, f: Fault)
    ensures |Faults(cfg, rows + [e], f)|
         == |Faults(cfg, rows, f)| + if Faulty(cfg, rows + [e], f, |rows|) then 1 else 0
  {
    hide Faulty;
    var n := |rows|;
    var more := rows + [e];
    forall j | 0 <= j < n ensures Faulty(cfg, more, f, j) <==> Faulty(cfg, rows, f, j) {
      FaultIgnoresLaterRows(cfg, rows, e, f, j);
    }
    assert Faults(cfg, more, f) == Faults(cfg, rows, f) + if Faulty(cfg, more, f, n) then {n} else {};
  }

  lemma NoFaultsMeansSound<K, P>(cfg: Config<K, P>, rows: seq<Event<K, P>>)
    requires forall f :: Faults(cfg, rows, f) == {}
    ensures Sound(cfg, rows)
  {
    forall f: Fault, i | 0 <= i < |rows| ensures !Faulty(cfg, rows, f, i) {
      assert i !in Faults(cfg, rows, f);
    }
    forall i | 0 <= i < |rows|
      ensures rows[i].sha == cfg.digest(rows[i].body)
      ensures i == 0 ==> rows[i].body.previous == ZERO_SHA256
      ensures i > 0 ==> rows[i].body.previous == rows[i - 1].sha
      ensures rows[i].body.gate == cfg.gate && rows[i].body.commitSha == cfg.commitSha
      ensures rows[i].body.eventType in cfg.allowed
    {
      assert !Faulty(cfg, rows, BadDigest, i) && !Faulty(cfg, rows, BrokenLink, i);
      assert !Faulty(cfg, rows, ForeignIdentity, i) && !Faulty(cfg, rows, UnknownKind, i);
    }
    forall i, j | 0 <= i < j < |rows| ensures rows[i].body.eventId != rows[j].body.eventId {
      assert !Faulty(cfg, rows, DuplicateId, j);
    }
  }

  lemma SoundMeansNoFaults<K, P>(cfg: Config<K, P>, rows: seq<Event<K, P>>, f: Fault)
    requires Sound(cfg, rows)
    ensures Faults(cfg, rows, f) == {}
  {
    forall i | 0 <= i < |rows| ensures !Faulty(cfg, rows, f, i) { match f { case _ => } }
  }

  /** "Audit passed" is exactly the chain, identity and uniqueness property. */
  lemma PassedIffSound<K, P>(cfg: Config<K, P>, lines: seq<Line<K, P>>, a: AuditCounts<K>)
    requires AuditOf(cfg, lines, a)
    ensures a.Passed() <==> SoundFile(cfg, lines)
  {
    var rows := Rows(lines);
    if a.Passed() {
      forall f ensures Faults(cfg, rows, f) == {} { match f { case _ => } }
      NoFaultsMeansSound(cfg, rows);
      forall i | 0 <= i < |lines| ensures !lines[i].Garbage? { assert i !in Unreadable(lines); }
    }
    if SoundFile(cfg, lines) {
      assert Unreadable(lines) == {};
      forall f ensures Faults(cfg, rows, f) == {} { SoundMeansNoFaults(cfg, rows, f); }
    }
  }

  // ---------------------------------------------------------------- what the tail commits to

  lemma SoundPrefix<K, P>(cfg: Config<K, P>, rows: seq<Event<K, P>>, k: nat)
    requires Sound(cfg, rows) && k <= |rows|
    ensures Sound(cfg, rows[..k])
  {
  }

  lemma LastLink<K, P>(cfg: Config<K, P>, rows: seq<Event<K, P>>)
    requires Sound(cfg, rows) && rows != []
    ensures var m := |rows| - 1;
      Tail(rows) == rows[m].sha == cfg.digest(rows[m].body) && rows[m].body.previous == Tail(rows[..m])
  {
  }

  /** Two sound histories that end in the same digest are the same history. */
  lemma {:induction false} TailCommitsToHistory<K(!new), P(!new)>(
      cfg1: Config<K, P>, cfg2: Config<K, P>, a: seq<Event<K, P>>, b: seq<Event<K, P>>)
    requires cfg1.digest == cfg2.digest
    requires forall x, y :: cfg1.digest(x) == cfg1.digest(y) ==> x == y
    requires forall x :: cfg1.digest(x) != ZERO_SHA256
    requires Sound(cfg1, a) && Sound(cfg2, b)
    requires Tail(a) == Tail(b)
    ensures a == b
  {
    hide Sound;
    if a != [] { LastLink(cfg1, a); }
    if b != [] { LastLink(cfg2, b); }
    if a != [] && b != [] {
      var m, n := |a| - 1, |b| - 1;
      assert a[m].body == b[n].body;
      assert a[m] == b[n];
      SoundPrefix(cfg1, a, m);
      SoundPrefix(cfg2, b, n);
      TailCommitsToHistory(cfg1, cfg2, a[..m], b[..n]);
      assert a == a[..m] + [a[m]] && b == b[..n] + [b[n]];
    }
  }

  // ---------------------------------------------------------------- one append, on values

  /** What `stat` reports: size and the two time stamps. */
  datatype FileIdentity = FileIdentity(size: nat, mtime: int, ctime: int)

  datatype File<K, P> = File(present: bool, lines: seq<Line<K, P>>, mtime: int, ctime: int)

  datatype Cache = Cache(initialized: bool, identity: Option<FileIdentity>, tail: string)

  datatype Request<K, P> = Request(
    eventType: K, payload: P, observedAt: string, timezoneAware: bool, eventId: string, mtime: int, ctime: int)

  datatype Refusal = UnsupportedKind | NaiveTimestamp | CorruptJournal

  function Size<K, P>(cfg: Config<K, P>, lines: seq<Line<K, P>>): nat {
    if lines == [] then 0
    else Size(cfg, lines[..|lines| - 1]) + cfg.encodedLength(lines[|lines| - 1]) + 1
  }

  function IdentityOf<K, P>(cfg: Config<K, P>, file: File<K, P>): Option<FileIdentity> {
    if file.present then Some(FileIdentity(Size(cfg, file.lines), file.mtime, file.ctime)) else None
  }

  ghost predicate ValidFile<K, P>(file: File<K, P>) {
    !file.present ==> file.lines == []
  }

  /** The row an append writes after the tail it was given. */
  function NewRow<K, P>(cfg: Config<K, P>, r: Request<K, P>, tail: string): Event<K, P> {
    var body := Body(1, r.eventId, cfg.gate, cfg.commitSha, r.eventType, r.observedAt, tail, r.payload);
    Event(body, cfg.digest(body))
  }

  /** The line ends of `splitlines` that the encoding leaves in a row. */
  predicate EndsLine(c: char) { c as int == 0x85 || c as int == 0x2028 || c as int == 0x2029 }

  /** `splitlines`, on encoded text. */
  function SplitLines(text: string): (pieces: seq<string>)
    ensures pieces != []
  {
    if text == [] then [[]]
    else
      var rest := SplitLines(text[1..]);
      if EndsLine(text[0]) then [[]] + rest else [[text[0]] + rest[0]] + rest[1..]
  }

  lemma {:induction false} OnePieceIff(text: string)
    ensures |SplitLines(text)| == 1 <==> forall i :: 0 <= i < |text| ==> !EndsLine(text[i])
  {
    if text != [] {
      OnePieceIff(text[1..]);
      assert forall i :: 0 < i < |text| ==> text[i] == text[1..][i - 1];
    }
  }

  /** The encoded row holds no raw line separator. */
  predicate OneLine<K, P>(cfg: Config<K, P>, r: Request<K, P>) {
    forall c :: c in cfg.encode(r.eventType, r.eventId, r.observedAt, r.payload) ==> !EndsLine(c)
  }

  /** What follows the first piece of a row that is cut: white space, or text that does not parse. */
  function PieceLines<K, P>(pieces: seq<string>): (lines: seq<Line<K, P>>)
    ensures |lines| == |pieces| && forall i :: 0 <= i < |lines| ==> !lines[i].Row?
  {
    seq(|pieces|, i requires 0 <= i < |pieces| => if Strip(pieces[i]) == "" then Blank else Garbage(pieces[i]))
  }

  lemma {:induction false} FirstPiece(text: string)
    ensures var pieces := SplitLines(text);
      pieces[0] <= text && (|pieces| > 1 ==> |pieces[0]| < |text| && EndsLine(text[|pieces[0]|]))
  {
    if text != [] { FirstPiece(text[1..]); }
  }

  /** What a reader finds first where a row is cut: its text up to the first separator. */
  lemma CutRowBegins<K, P>(cfg: Config<K, P>, e: Event<K, P>)
    requires TextLines(cfg, e) != [Row(e)]
    ensures var text := cfg.encode(e.body.eventType, e.body.eventId, e.body.observedAt, e.body.payload);
      && TextLines(cfg, e)[0].Garbage? && TextLines(cfg, e)[0].text <= text
      && |TextLines(cfg, e)[0].text| < |text| && EndsLine(text[|TextLines(cfg, e)[0].text|])
  {
    FirstPiece(cfg.encode(e.body.eventType, e.body.eventId, e.body.observedAt, e.body.payload));
  }

  /** The lines a reader finds where a row was written; a piece that opens an object does not parse. */
  function TextLines<K, P>(cfg: Config<K, P>, e: Event<K, P>): seq<Line<K, P>> {
    var pieces := SplitLines(cfg.encode(e.body.eventType, e.body.eventId, e.body.observedAt, e.body.payload));
    if |pieces| == 1 then [Row(e)] else [Garbage(pieces[0])] + PieceLines(pieces[1..])
  }

  /** Of what follows, a reader passes over a piece of white space, and does not parse any other. */
  lemma PiecesRead<K, P>(cfg: Config<K, P>, e: Event<K, P>, i: nat)
    requires 0 < i < |TextLines(cfg, e)|
    ensures var pieces := SplitLines(cfg.encode(e.body.eventType, e.body.eventId, e.body.observedAt, e.body.payload));
      && |pieces| == |TextLines(cfg, e)|
      && TextLines(cfg, e)[i] == if forall c :: c in pieces[i] ==> IsSpace(c) then Blank else Garbage(pieces[i])
  {
    var pieces := SplitLines(cfg.encode(e.body.eventType, e.body.eventId, e.body.observedAt, e.body.payload));
    var piece := pieces[i];
    assert TextLines(cfg, e)[i] == PieceLines(pieces[1..])[i - 1];
    BlankIff(piece);
    assert (forall c :: c in piece ==> IsSpace(c)) <==> forall j :: 0 <= j < |piece| ==> IsSpace(piece[j]);
    hide SplitLines, Strip, IsSpace;
  }

  lemma OneLineIff<K, P>(cfg: Config<K, P>, r: Request<K, P>, tail: string)
    ensures OneLine(cfg, r) <==> TextLines(cfg, NewRow(cfg, r, tail)) == [Row(NewRow(cfg, r, tail))]
    ensures OneLine(cfg, r) <==> forall c :: c in cfg.encode(r.eventType, r.eventId, r.observedAt, r.payload) ==>
      c as int != 0x85 && c as int != 0x2028 && c as int != 0x2029
  {
    var text := cfg.encode(r.eventType, r.eventId, r.observedAt, r.payload);
    OnePieceIff(text);
    assert OneLine(cfg, r) <==> forall i :: 0 <= i < |text| ==> !EndsLine(text[i]);
  }

  function Written<K, P>(cfg: Config<K, P>, file: File<K, P>, r: Request<K, P>, e: Event<K, P>): File<K, P> {
    File(true, file.lines + TextLines(cfg, e), r.mtime, r.ctime)
  }

  /** An audit that fails poisons the cache; one that passes leaves it alone. */
  ghost function AfterAudit<K, P>(cfg: Config<K, P>, file: File<K, P>, cache: Cache): Cache {
    if SoundFile(cfg, file.lines) then cache else cache.(initialized := false, identity := None)
  }

  datatype Appended<K, P> = Appended(file: File<K, P>, cache: Cache, result: Result<Event<K, P>, Refusal>)

  /** One whole append: fast path on an unchanged identity, full audit otherwise. */
  ghost function AppendStep<K, P>(
      cfg: Config<K, P>, file: File<K, P>, cache: Cache, r: Request<K, P>): Appended<K, P>
  {
    if r.eventType !in cfg.allowed then Appended(file, cache, Err(UnsupportedKind))
    else if !r.timezoneAware then Appended(file, cache, Err(NaiveTimestamp))
    else
      var fast := cache.initialized && IdentityOf(cfg, file) == cache.identity;
      if !fast && !SoundFile(cfg, file.lines) then
        Appended(file, AfterAudit(cfg, file, cache), Err(CorruptJournal))
      else
        var e := NewRow(cfg, r, if fast then cache.tail else Tail(Rows(file.lines)));
        var written := Written(cfg, file, r, e);
        Appended(written, Cache(true, IdentityOf(cfg, written), e.sha), Ok(e))
  }

  /** A cache is faithful when it describes some earlier state of the same growing file. */
  ghost predicate Faithful<K, P>(cfg: Config<K, P>, file: File<K, P>, cache: Cache) {
    cache.initialized ==>
      exists k :: 0 <= k <= |file.lines| && Describes(cfg, cache, file.lines[..k])
  }

  ghost predicate Describes<K, P>(cfg: Config<K, P>, cache: Cache, lines: seq<Line<K, P>>) {
    && cache.tail == Tail(Rows(lines))
    && SoundFile(cfg, lines)
    && (cache.identity.Some? ==> cache.identity.value.size == Size(cfg, lines))
    && (cache.identity.None? ==> lines == [])
  }

  lemma {:induction false} SizeGrows<K, P>(cfg: Config<K, P>, lines: seq<Line<K, P>>, k: nat)
    requires k <= |lines|
    ensures Size(cfg, lines[..k]) <= Size(cfg, lines)
    ensures Size(cfg, lines[..k]) == Size(cfg, lines) ==> k == |lines|
  {
    if k < |lines| {
      var m := |lines| - 1;
      SizeGrows(cfg, lines[..m], k);
      assert lines[..m][..k] == lines[..k];
    } else {
      assert lines[..k] == lines;
    }
  }

  /**
   On a file that only grows, the constant-time path returns exactly the tail a full
   re-audit would return, and takes it only where that re-audit would pass.
   */
  lemma FastPathEqualsReaudit<K, P>(cfg: Config<K, P>, file: File<K, P>, cache: Cache)
    requires ValidFile(file) && Faithful(cfg, file, cache)
    requires cache.initialized && IdentityOf(cfg, file) == cache.identity
    ensures cache.tail == Tail(Rows(file.lines)) && SoundFile(cfg, file.lines)
  {
    var k :| 0 <= k <= |file.lines| && Describes(cfg, cache, file.lines[..k]);
    if file.present {
      SizeGrows(cfg, file.lines, k);
    }
    assert file.lines[..k] == file.lines;
  }

  /**
   A passing journal still passes after an append exactly where the identifier is new and the
   row is one line; `append` checks neither.
   */
  lemma AppendKeepsSoundIff<K, P>(cfg: Config<K, P>, file: File<K, P>, cache: Cache, r: Request<K, P>)
    requires ValidFile(file) && Faithful(cfg, file, cache) && SoundFile(cfg, file.lines)
    requires r.eventType in cfg.allowed && r.timezoneAware
    ensures var out := AppendStep(cfg, file, cache, r);
      && out.result == Ok(NewRow(cfg, r, Tail(Rows(file.lines))))
      && out.file.lines == file.lines + TextLines(cfg, out.result.value)
      && (SoundFile(cfg, out.file.lines) <==> r.eventId !in Ids(Rows(file.lines)) && OneLine(cfg, r))
  {
    if cache.initialized && IdentityOf(cfg, file) == cache.identity {
      FastPathEqualsReaudit(cfg, file, cache);
    }
    var e := NewRow(cfg, r, Tail(Rows(file.lines)));
    assert AppendStep(cfg, file, cache, r).result == Ok(e);
    OneLineIff(cfg, r, Tail(Rows(file.lines)));
    hide OneLine;
    if OneLine(cfg, r) {
      OneLineAppended(cfg, file.lines, e);
      SoundPlusRow(cfg, Rows(file.lines), e);
    } else {
      CutRowAppended(cfg, file.lines, e);
    }
  }

  lemma OneLineAppended<K, P>(cfg: Config<K, P>, lines: seq<Line<K, P>>, e: Event<K, P>)
    requires TextLines(cfg, e) == [Row(e)]
    ensures Rows(lines + TextLines(cfg, e)) == Rows(lines) + [e]
    ensures SoundFile(cfg, lines) ==> (SoundFile(cfg, lines + TextLines(cfg, e)) <==> Sound(cfg, Rows(lines) + [e]))
  {
    hide Sound;
    RowsPlusRow(lines, e);
  }

  lemma CutRowAppended<K, P>(cfg: Config<K, P>, lines: seq<Line<K, P>>, e: Event<K, P>)
    requires TextLines(cfg, e) != [Row(e)]
    ensures Rows(lines + TextLines(cfg, e)) == Rows(lines)
    ensures !SoundFile(cfg, lines + TextLines(cfg, e))
  {
    hide Sound;
    var cut := TextLines(cfg, e);
    NoRows(cut);
    RowsAppend(lines, cut);
    assert (lines + cut)[|lines|].Garbage?;
  }

  lemma {:induction false} NoRows<K, P>(lines: seq<Line<K, P>>)
    requires forall i :: 0 <= i < |lines| ==> !lines[i].Row?
    ensures Rows(lines) == []
  {
    if lines != [] { NoRows(lines[..|lines| - 1]); }
  }

  /** The same condition decides whether the cached tail stays one that a re-audit would return. */
  lemma CacheStaysFaithfulIff<K, P>(cfg: Config<K, P>, file: File<K, P>, cache: Cache, r: Request<K, P>)
    requires ValidFile(file) && Faithful(cfg, file, cache) && SoundFile(cfg, file.lines)
    requires r.eventType in cfg.allowed && r.timezoneAware
    ensures var out := AppendStep(cfg, file, cache, r);
      Faithful(cfg, out.file, out.cache) <==> r.eventId !in Ids(Rows(file.lines)) && OneLine(cfg, r)
  {
    AppendKeepsSoundIff(cfg, file, cache, r);
    var out := AppendStep(cfg, file, cache, r);
    OneLineIff(cfg, r, Tail(Rows(file.lines)));
    if OneLine(cfg, r) { OneLineAppended(cfg, file.lines, out.result.value); }
    hide Faithful, SoundFile, Rows, Ids, OneLine, ValidFile;
    assert ValidFile(out.file) by { WrittenIsValid(cfg, file, r, out.result.value); }
    assert out.cache.initialized && IdentityOf(cfg, out.file) == out.cache.identity;
    if Faithful(cfg, out.file, out.cache) {
      FastPathEqualsReaudit(cfg, out.file, out.cache);
    } else if SoundFile(cfg, out.file.lines) {
      CurrentCacheIsFaithful(cfg, out.file, out.cache);
    }
  }

  lemma WrittenIsValid<K, P>(cfg: Config<K, P>, file: File<K, P>, r: Request<K, P>, e: Event<K, P>)
    ensures ValidFile(Written(cfg, file, r, e))
  {
  }

  lemma CurrentCacheIsFaithful<K, P>(cfg: Config<K, P>, file: File<K, P>, cache: Cache)
    requires ValidFile(file) && SoundFile(cfg, file.lines)
    requires cache == Cache(true, IdentityOf(cfg, file), Tail(Rows(file.lines)))
    ensures Faithful(cfg, file, cache)
  {
    hide SoundFile, Rows;
    assert file.lines[..|file.lines|] == file.lines;
    assert Describes(cfg, cache, file.lines[..|file.lines|]);
  }

  /**
   A row that is cut: the journal fails from then on, and yet the same object goes on appending
   on its cached tail, which no re-audit would return.
   */
  lemma CutRowIsNotNoticed<K, P>(
      cfg: Config<K, P>, file: File<K, P>, cache: Cache, r: Request<K, P>, next: Request<K, P>)
    requires ValidFile(file) && Faithful(cfg, file, cache) && SoundFile(cfg, file.lines)
    requires r.eventType in cfg.allowed && r.timezoneAware && !OneLine(cfg, r)
    requires next.eventType in cfg.allowed && next.timezoneAware
    ensures var out := AppendStep(cfg, file, cache, r);
      var again := AppendStep(cfg, out.file, out.cache, next);
      && !SoundFile(cfg, out.file.lines) && again.result.Ok? && !SoundFile(cfg, again.file.lines)
      && again.result.value.body.previous == out.result.value.sha
  {
    AppendKeepsSoundIff(cfg, file, cache, r);
    hide SoundFile, Sound, Rows;
    var out := AppendStep(cfg, file, cache, r);
    var again := AppendStep(cfg, out.file, out.cache, next);
    if SoundFile(cfg, again.file.lines) {
      CorruptionNeverHeals(cfg, out.file.lines, TextLines(cfg, again.result.value));
    }
  }

  lemma RowsPlusRow<K, P>(lines: seq<Line<K, P>>, e: Event<K, P>)
    ensures Rows(lines + [Row(e)]) == Rows(lines) + [e]
  {
    assert (lines + [Row(e)])[..|lines|] == lines;
  }

  /** A correctly linked row keeps a sound history sound exactly when its identifier is new. */
  lemma SoundPlusRow<K, P>(cfg: Config<K, P>, rows: seq<Event<K, P>>, e: Event<K, P>)
    requires Sound(cfg, rows)
    requires e.sha == cfg.digest(e.body) && e.body.previous == Tail(rows)
    requires e.body.gate == cfg.gate && e.body.commitSha == cfg.commitSha && e.body.eventType in cfg.allowed
    ensures Sound(cfg, rows + [e]) <==> e.body.eventId !in Ids(rows)
  {
    if e.body.eventId !in Ids(rows) {
      FreshRowIsSound(cfg, rows, e);
    } else {
      var i :| 0 <= i < |rows| && rows[i].body.eventId == e.body.eventId;
      RepeatedRowIsUnsound(cfg, rows, e, i);
    }
    hide Sound;
  }

  lemma RepeatedRowIsUnsound<K, P>(cfg: Config<K, P>, rows: seq<Event<K, P>>, e: Event<K, P>, i: nat)
    requires i < |rows| && rows[i].body.eventId == e.body.eventId
    ensures !Sound(cfg, rows + [e])
  {
    var all := rows + [e];
    assert all[i] == rows[i] && all[|rows|] == e;
  }

  lemma FreshRowIsSound<K, P>(cfg: Config<K, P>, rows: seq<Event<K, P>>, e: Event<K, P>)
    requires Sound(cfg, rows)
    requires e.sha == cfg.digest(e.body) && e.body.previous == Tail(rows)
    requires e.body.gate == cfg.gate && e.body.commitSha == cfg.commitSha && e.body.eventType in cfg.allowed
    requires e.body.eventId !in Ids(rows)
    ensures Sound(cfg, rows + [e])
  {
    var all := rows + [e];
    assert all[|rows|] == e;
    forall i | 0 <= i < |rows| ensures all[i] == rows[i] && rows[i].body.eventId != e.body.eventId {}
  }

  /** Once an audit has failed, nothing appended later makes the journal pass again. */
  lemma CorruptionNeverHeals<K, P>(cfg: Config<K, P>, lines: seq<Line<K, P>>, more: seq<Line<K, P>>)
    requires SoundFile(cfg, lines + more)
    ensures SoundFile(cfg, lines)
  {
    RowsAppend(lines, more);
    var all := Rows(lines + more);
    var rows := Rows(lines);
    assert forall i :: 0 <= i < |rows| ==> all[i] == rows[i];
    assert forall i :: 0 <= i < |lines| ==> (lines + more)[i] == lines[i];
  }

  lemma {:induction false} RowsAppend<K, P>(a: seq<Line<K, P>>, b: seq<Line<K, P>>)
    ensures Rows(a + b) == Rows(a) + Rows(b)
  {
    if b == [] {
      assert a + b == a;
    } else {
      var m := |b| - 1;
      assert (a + b)[..|a + b| - 1] == a + b[..m];
      RowsAppend(a, b[..m]);
    }
  }

  /** After a failed audit of an unchanged file, the next append refuses and writes nothing. */
  lemma FailedAuditBlocksAppend<K, P>(cfg: Config<K, P>, file: File<K, P>, cache: Cache, r: Request<K, P>)
    requires !SoundFile(cfg, file.lines)
    ensures var out := AppendStep(cfg, file, AfterAudit(cfg, file, cache), r);
      out.result.Err? && out.file == file && !out.cache.initialized
  {
  }

  // ---------------------------------------------------------------- many writers, one file

  datatype System<K, P> = System(file: File<K, P>, caches: seq<Cache>)

  datatype Op<K, P> = Append(writer: nat, request: Request<K, P>) | AuditBy(writer: nat)

  ghost predicate ValidOps<K, P>(writers: nat, ops: seq<Op<K, P>>) {
    forall i :: 0 <= i < |ops| ==> ops[i].writer < writers
  }

  ghost function Step<K, P>(cfg: Config<K, P>, s: System<K, P>, op: Op<K, P>): System<K, P>
    requires op.writer < |s.caches|
    ensures |Step(cfg, s, op).caches| == |s.caches|
  {
    match op
    case Append(w, r) =>
      var out := AppendStep(cfg, s.file, s.caches[w], r);
      System(out.file, s.caches[w := out.cache])
    case AuditBy(w) =>
      s.(caches := s.caches[w := AfterAudit(cfg, s.file, s.caches[w])])
  }

  ghost function Run<K, P>(cfg: Config<K, P>, s: System<K, P>, ops: seq<Op<K, P>>): System<K, P>
    requires ValidOps(|s.caches|, ops)
    ensures |Run(cfg, s, ops).caches| == |s.caches|
  {
    if ops == [] then s
    else Step(cfg, Run(cfg, s, ops[..|ops| - 1]), ops[|ops| - 1])
  }

  ghost predicate Consistent<K, P>(cfg: Config<K, P>, s: System<K, P>) {
    && ValidFile(s.file)
    && SoundFile(cfg, s.file.lines)
    && (forall w :: 0 <= w < |s.caches| ==> Faithful(cfg, s.file, s.caches[w]))
  }

  /** Writers that have not appended yet, on any journal that audits as passed. */
  ghost predicate Starting<K, P>(cfg: Config<K, P>, s: System<K, P>) {
    && ValidFile(s.file)
    && SoundFile(cfg, s.file.lines)
    && (forall w :: 0 <= w < |s.caches| ==> !s.caches[w].initialized)
  }

  function Accepts<K(==), P>(cfg: Config<K, P>, op: Op<K, P>): bool {
    op.Append? && op.request.eventType in cfg.allowed && op.request.timezoneAware
  }

  /** The requests of a run that a journal does not refuse, in order. */
  function AcceptedRequests<K(==), P>(cfg: Config<K, P>, ops: seq<Op<K, P>>): seq<Request<K, P>> {
    if ops == [] then []
    else
      var op := ops[|ops| - 1];
      AcceptedRequests(cfg, ops[..|ops| - 1]) + if Accepts(cfg, op) then [op.request] else []
  }

  lemma FaithfulSurvivesGrowth<K, P>(cfg: Config<K, P>, file: File<K, P>, grown: File<K, P>, cache: Cache)
    requires Faithful(cfg, file, cache)
    requires |file.lines| <= |grown.lines| && grown.lines[..|file.lines|] == file.lines
    ensures Faithful(cfg, grown, cache)
  {
    hide Describes;
    if cache.initialized {
      var k :| 0 <= k <= |file.lines| && Describes(cfg, cache, file.lines[..k]);
      assert grown.lines[..k] == file.lines[..k];
    }
  }

  lemma AppendKeepsFaithful<K, P>(
      cfg: Config<K, P>, file: File<K, P>, cache: Cache, r: Request<K, P>, other: Cache)
    requires ValidFile(file) && SoundFile(cfg, file.lines)
    requires Faithful(cfg, file, cache) && Faithful(cfg, file, other)
    requires r.eventType in cfg.allowed && r.timezoneAware
    ensures Faithful(cfg, AppendStep(cfg, file, cache, r).file, other)
  {
    AppendKeepsSoundIff(cfg, file, cache, r);
    var out := AppendStep(cfg, file, cache, r);
    hide Faithful, SoundFile;
    assert out.file.lines[..|file.lines|] == file.lines;
    FaithfulSurvivesGrowth(cfg, file, out.file, other);
  }

  /** What one operation on a consistent system leads to. */
  lemma StepKeepsConsistentIff<K, P>(cfg: Config<K, P>, s: System<K, P>, op: Op<K, P>)
    requires Consistent(cfg, s) && op.writer < |s.caches|
    ensures var next := Step(cfg, s, op);
      && (!Accepts(cfg, op) ==> next.file == s.file && Consistent(cfg, next))
      && (Accepts(cfg, op) ==>
            && next.file.lines == s.file.lines + TextLines(cfg, NewRow(cfg, op.request, Tail(Rows(s.file.lines))))
            && (SoundFile(cfg, next.file.lines) <==> Harmless(cfg, Ids(Rows(s.file.lines)), op.request))
            && (Harmless(cfg, Ids(Rows(s.file.lines)), op.request) ==> Consistent(cfg, next)))
  {
    hide Faithful, Sound, Rows;
    var next := Step(cfg, s, op);
    if Accepts(cfg, op) {
      var cache := s.caches[op.writer];
      AppendKeepsSoundIff(cfg, s.file, cache, op.request);
      CacheStaysFaithfulIff(cfg, s.file, cache, op.request);
      forall w | 0 <= w < |s.caches| && w != op.writer ensures Faithful(cfg, next.file, next.caches[w]) {
        AppendKeepsFaithful(cfg, s.file, cache, op.request, s.caches[w]);
      }
    } else {
      assert next.file == s.file && next.caches == s.caches;
    }
  }

  /** A request whose identifier is new and whose row is one line. */
  predicate Harmless<K, P>(cfg: Config<K, P>, ids: set<string>, r: Request<K, P>) {
    r.eventId !in ids && OneLine(cfg, r)
  }

  function RequestIds<K, P>(requests: seq<Request<K, P>>): set<string> {
    set i | 0 <= i < |requests| :: requests[i].eventId
  }

  /** All rows are one line, and no identifier is used twice, in the run or in the rows it started from. */
  ghost predicate AllHarmless<K, P>(cfg: Config<K, P>, ids: set<string>, requests: seq<Request<K, P>>) {
    && (forall i :: 0 <= i < |requests| ==> Harmless(cfg, ids, requests[i]))
    && (forall i, j :: 0 <= i < j < |requests| ==> requests[i].eventId != requests[j].eventId)
  }

  lemma HarmlessStep<K, P>(cfg: Config<K, P>, ids: set<string>, requests: seq<Request<K, P>>, r: Request<K, P>)
    ensures AllHarmless(cfg, ids, requests + [r]) <==>
      AllHarmless(cfg, ids, requests) && Harmless(cfg, ids + RequestIds(requests), r)
  {
    var all := requests + [r];
    assert all[|requests|] == r && forall i :: 0 <= i < |requests| ==> all[i] == requests[i];
    assert r.eventId in RequestIds(requests) <==> exists i :: 0 <= i < |requests| && requests[i].eventId == r.eventId;
  }

  lemma RequestIdsStep<K, P>(requests: seq<Request<K, P>>, r: Request<K, P>)
    ensures RequestIds(requests + [r]) == RequestIds(requests) + {r.eventId}
  {
    var all := requests + [r];
    assert all[|requests|] == r;
    forall x | x in RequestIds(requests) ensures x in RequestIds(all) {
      var i :| 0 <= i < |requests| && requests[i].eventId == x;
      assert all[i].eventId == x;
    }
  }

  /** The old lines, and then one row for each request, in order, linked to the rows before it. */
  ghost predicate GrownBy<K, P>(
      cfg: Config<K, P>, start: seq<Line<K, P>>, requests: seq<Request<K, P>>, lines: seq<Line<K, P>>)
  {
    && |lines| == |start| + |requests| && lines[..|start|] == start
    && forall k :: 0 <= k < |requests| ==>
      lines[|start| + k] == Row(NewRow(cfg, requests[k], Tail(Rows(lines[..|start| + k]))))
  }

  lemma GrownByOne<K, P>(
      cfg: Config<K, P>, start: seq<Line<K, P>>, requests: seq<Request<K, P>>, lines: seq<Line<K, P>>, r: Request<K, P>)
    requires GrownBy(cfg, start, requests, lines)
    ensures GrownBy(cfg, start, requests + [r], lines + [Row(NewRow(cfg, r, Tail(Rows(lines))))])
  {
    hide NewRow, Tail, Rows;
    var more := lines + [Row(NewRow(cfg, r, Tail(Rows(lines))))];
    forall k | 0 <= k < |requests| + 1
      ensures more[|start| + k] == Row(NewRow(cfg, (requests + [r])[k], Tail(Rows(more[..|start| + k]))))
    {
      assert more[..|start| + k] == lines[..|start| + k];
      if k == |requests| { assert lines[..|start| + k] == lines; }
    }
  }

  /** While every accepted request was harmless, the run has gone as intended. */
  ghost predicate OnTrack<K, P>(
      cfg: Config<K, P>, start: System<K, P>, requests: seq<Request<K, P>>, s: System<K, P>)
  {
    && Consistent(cfg, s)
    && GrownBy(cfg, start.file.lines, requests, s.file.lines)
    && Ids(Rows(s.file.lines)) == Ids(Rows(start.file.lines)) + RequestIds(requests)
  }

  lemma OnTrackStep<K, P>(
      cfg: Config<K, P>, start: System<K, P>, requests: seq<Request<K, P>>, s: System<K, P>, op: Op<K, P>)
    requires OnTrack(cfg, start, requests, s) && op.writer < |s.caches| && Accepts(cfg, op)
    requires Harmless(cfg, Ids(Rows(s.file.lines)), op.request)
    ensures OnTrack(cfg, start, requests + [op.request], Step(cfg, s, op))
  {
    hide GrownBy, Consistent, Step;
    StepKeepsConsistentIff(cfg, s, op);
    var lines := s.file.lines;
    var e := NewRow(cfg, op.request, Tail(Rows(lines)));
    OneLineIff(cfg, op.request, Tail(Rows(lines)));
    hide OneLine, TextLines, NewRow;
    GrownByOne(cfg, start.file.lines, requests, lines, op.request);
    RowsPlusRow(lines, e);
    IdsGrow(Rows(lines), e);
    RequestIdsStep(requests, op.request);
  }

  lemma StepExtends<K, P>(cfg: Config<K, P>, s: System<K, P>, op: Op<K, P>)
    requires op.writer < |s.caches| && SoundFile(cfg, Step(cfg, s, op).file.lines)
    ensures SoundFile(cfg, s.file.lines)
  {
    hide SoundFile, Rows;
    var lines, next := s.file.lines, Step(cfg, s, op).file.lines;
    assert lines <= next;
    assert next == lines + next[|lines|..];
    CorruptionNeverHeals(cfg, lines, next[|lines|..]);
  }

  /**
   Any interleaving of whole appends and audits by any number of journal objects on one file:
   the file passes if and only if every accepted request had a new identifier and a row of one
   line. Then every cache is faithful, the lines it started from are untouched, and what is added
   is the row of each accepted request, in order, linked to the row before it.
   */
  lemma {:induction false} InterleavingSoundIff<K, P>(cfg: Config<K, P>, s: System<K, P>, ops: seq<Op<K, P>>)
    requires Starting(cfg, s) && ValidOps(|s.caches|, ops)
    ensures var accepted, t := AcceptedRequests(cfg, ops), Run(cfg, s, ops);
      && (SoundFile(cfg, t.file.lines) <==> AllHarmless(cfg, Ids(Rows(s.file.lines)), accepted))
      && (AllHarmless(cfg, Ids(Rows(s.file.lines)), accepted) ==> OnTrack(cfg, s, accepted, t))
  {
    if ops == [] {
      assert s.file.lines[..|s.file.lines|] == s.file.lines;
      assert AcceptedRequests(cfg, ops) == [];
    } else {
      var op, before := ops[|ops| - 1], ops[..|ops| - 1];
      InterleavingSoundIff(cfg, s, before);
      var accepted, mid := AcceptedRequests(cfg, before), Run(cfg, s, before);
      var ids := Ids(Rows(s.file.lines));
      RunStep(cfg, s, ops);
      hide Starting, SoundFile, AllHarmless, Step, Harmless, Consistent, GrownBy, Run, AcceptedRequests, ValidOps;
      if !AllHarmless(cfg, ids, accepted) {
        if SoundFile(cfg, Step(cfg, mid, op).file.lines) { StepExtends(cfg, mid, op); }
      } else {
        StepKeepsConsistentIff(cfg, mid, op);
        if Accepts(cfg, op) && Harmless(cfg, Ids(Rows(mid.file.lines)), op.request) {
          OnTrackStep(cfg, s, accepted, mid, op);
        }
      }
    }
  }

  lemma RunStep<K, P>(cfg: Config<K, P>, s: System<K, P>, ops: seq<Op<K, P>>)
    requires ValidOps(|s.caches|, ops) && ops != []
    ensures var op, before := ops[|ops| - 1], ops[..|ops| - 1];
      var ids, accepted := Ids(Rows(s.file.lines)), AcceptedRequests(cfg, before);
      && op.writer < |Run(cfg, s, before).caches|
      && Run(cfg, s, ops) == Step(cfg, Run(cfg, s, before), op)
      && (!Accepts(cfg, op) ==> AcceptedRequests(cfg, ops) == accepted)
      && (Accepts(cfg, op) ==>
            && AcceptedRequests(cfg, ops) == accepted + [op.request]
            && (AllHarmless(cfg, ids, AcceptedRequests(cfg, ops)) <==>
                  AllHarmless(cfg, ids, accepted) && Harmless(cfg, ids + RequestIds(accepted), op.request)))
  {
    var op, before := ops[|ops| - 1], ops[..|ops| - 1];
    if Accepts(cfg, op) { HarmlessStep(cfg, Ids(Rows(s.file.lines)), AcceptedRequests(cfg, before), op.request); }
  }

  // ---------------------------------------------------------------- the journal object

  /** How the audit loop counts one row, given the digest and the identifiers before it. */
  function CountRow<K(==), P>(
      cfg: Config<K, P>, a: AuditCounts<K>, e: Event<K, P>, previous: string, seen: bool): AuditCounts<K>
    requires a.eventCounts.Keys == cfg.allowed
  {
    var body := e.body;
    AuditCounts(
      a.rowCount + 1,
      if body.eventType in cfg.allowed then a.eventCounts[body.eventType := a.eventCounts[body.eventType] + 1]
      else a.eventCounts,
      a.parseErrors,
      a.duplicateIds + (if seen then 1 else 0),
      a.chainErrors + (if body.previous != previous then 1 else 0) + (if e.sha != cfg.digest(body) then 1 else 0),
      a.identityMismatches + (if body.gate != cfg.gate || body.commitSha != cfg.commitSha then 1 else 0),
      a.unknownKinds + (if body.eventType !in cfg.allowed then 1 else 0))
  }

  /** What the audit loop knows after `i` lines. */
  ghost predicate Scanned<K, P>(
      cfg: Config<K, P>, lines: seq<Line<K, P>>, a: AuditCounts<K>, previous: string, seen: set<string>)
  {
    AuditOf(cfg, lines, a) && previous == Tail(Rows(lines)) && seen == Ids(Rows(lines))
  }

  /** The audit loop. */
  method ScanLines<K(==), P>(cfg: Config<K, P>, lines: seq<Line<K, P>>) returns (a: AuditCounts<K>)
    ensures AuditOf(cfg, lines, a)
  {
    var counts: map<K, nat> := map k | k in cfg.allowed :: 0;
    a := AuditCounts(0, counts, 0, 0, 0, 0, 0);
    var previous := ZERO_SHA256;
    var seen: set<string> := {};
    EmptyAudit(cfg, a);
    assert lines[..0] == [];
    for i := 0 to |lines|
      invariant Scanned(cfg, lines[..i], a, previous, seen)
    {
      LineScanned(cfg, lines, i, a, previous, seen);
      match lines[i] {
        case Blank =>
        case Garbage(_) =>
          a := a.(parseErrors := a.parseErrors + 1);
        case Row(event) =>
          a := CountRow(cfg, a, event, previous, event.body.eventId in seen);
          seen := seen + {event.body.eventId};
          previous := event.sha;
      }
    }
    assert lines[..|lines|] == lines;
  }

  lemma LineScanned<K, P>(
      cfg: Config<K, P>, lines: seq<Line<K, P>>, i: nat, a: AuditCounts<K>, previous: string, seen: set<string>)
    requires i < |lines| && Scanned(cfg, lines[..i], a, previous, seen)
    ensures lines[i].Blank? ==> Scanned(cfg, lines[..i + 1], a, previous, seen)
    ensures lines[i].Garbage? ==>
      Scanned(cfg, lines[..i + 1], a.(parseErrors := a.parseErrors + 1), previous, seen)
    ensures lines[i].Row? ==>
      var e := lines[i].event;
      Scanned(cfg, lines[..i + 1], CountRow(cfg, a, e, previous, e.body.eventId in seen), e.sha,
              seen + {e.body.eventId})
  {
    RowsOfPrefix(lines, i);
    UnreadableGrows(lines, i);
    if lines[i].Row? {
      IdsGrow(Rows(lines[..i]), lines[i].event);
      RowCounted(cfg, Rows(lines[..i]), lines[i].event, a);
    }
  }

  /** The cache is in use, and size and both time stamps of the file are the ones it remembers. */
  ghost predicate Untouched<K, P>(cfg: Config<K, P>, file: File<K, P>, cache: Cache) {
    && cache.initialized && (file.present <==> cache.identity.Some?)
    && (file.present ==>
          && cache.identity.value.size == Size(cfg, file.lines)
          && cache.identity.value.mtime == file.mtime && cache.identity.value.ctime == file.ctime)
  }

  /** The file several journal objects may share. */
  class JournalFile<!K(==), !P> {
    var content: File<K, P>

    constructor ()
      ensures content == File(false, [], 0, 0)
    {
      content := File(false, [], 0, 0);
    }
  }

  class AppendOnlyEvidenceJournal<!K(==), !P> {
    const cfg: Config<K, P>
    const file: JournalFile<K, P>
    var cache: Cache

    constructor (cfg: Config<K, P>, file: JournalFile<K, P>)
      ensures this.cfg == cfg && this.file == file
      ensures cache == Cache(false, None, ZERO_SHA256)
    {
      this.cfg, this.file := cfg, file;
      cache := Cache(false, None, ZERO_SHA256);
    }

    /** Rows of the file, or an error where a line does not parse. */
    method ReadAll() returns (r: Result<seq<Event<K, P>>, Refusal>)
      ensures r.Ok? <==> forall i :: 0 <= i < |file.content.lines| ==> !file.content.lines[i].Garbage?
      ensures r.Ok? ==> r.value == Rows(file.content.lines)
    {
      var lines := file.content.lines;
      var events: seq<Event<K, P>> := [];
      for i := 0 to |lines|
        invariant events == Rows(lines[..i])
        invariant forall j :: 0 <= j < i ==> !lines[j].Garbage?
      {
        RowsOfPrefix(lines, i);
        match lines[i] {
          case Blank =>
          case Garbage(_) => return Err(CorruptJournal);
          case Row(e) => events := events + [e];
        }
      }
      assert lines[..|lines|] == lines;
      r := Ok(events);
    }

    method Audit() returns (a: AuditCounts<K>)
      modifies this
      ensures AuditOf(cfg, file.content.lines, a)
      ensures a.Passed() <==> SoundFile(cfg, file.content.lines)
      ensures cache == AfterAudit(cfg, file.content, old(cache))
    {
      a := ScanLines(cfg, file.content.lines);
      PassedIffSound(cfg, file.content.lines, a);
      if !a.Passed() {
        cache := cache.(initialized := false, identity := None);
      }
    }

    method ValidatedAppendTail() returns (r: Result<string, Refusal>)
      modifies this
      ensures var fast := old(cache).initialized && IdentityOf(cfg, file.content) == old(cache).identity;
        && (r.Err? <==> !fast && !SoundFile(cfg, file.content.lines))
        && (r.Ok? ==> r.value == if fast then old(cache).tail else Tail(Rows(file.content.lines)))
        && (r.Ok? ==> cache == Cache(true, IdentityOf(cfg, file.content), r.value))
        && (r.Err? ==> r.error == CorruptJournal && cache == AfterAudit(cfg, file.content, old(cache)))
    {
      var identity := IdentityOf(cfg, file.content);
      if cache.initialized && identity == cache.identity {
        return Ok(cache.tail);
      }
      var audit := Audit();
      if !audit.Passed() {
        return Err(CorruptJournal);
      }
      var rows := ReadAll();
      if rows.Err? {
        return Err(CorruptJournal);
      }
      cache := Cache(true, identity, Tail(rows.value));
      r := Ok(cache.tail);
    }

    method Append(request: Request<K, P>) returns (r: Result<Event<K, P>, Refusal>)
      modifies this, file
      ensures Appended(file.content, cache, r) == AppendStep(cfg, old(file.content), old(cache), request)
      ensures r.Err? ==> file.content == old(file.content)
      ensures request.eventType !in cfg.allowed || !request.timezoneAware ==> r.Err? && cache == old(cache)
      ensures r.Ok? ==> file.content.lines == old(file.content).lines + TextLines(cfg, r.value)
      ensures r.Ok? ==>
        var body := r.value.body;
        && body.schemaVersion == 1 && body.gate == cfg.gate && body.commitSha == cfg.commitSha
        && body.eventId == request.eventId && body.eventType == request.eventType
        && body.observedAt == request.observedAt && body.payload == request.payload
        && r.value.sha == cfg.digest(body) == cache.tail
      ensures r.Ok? && !Untouched(cfg, old(file.content), old(cache)) ==>
        SoundFile(cfg, old(file.content).lines) && r.value.body.previous == Tail(Rows(old(file.content).lines))
      ensures r.Ok? && ValidFile(old(file.content)) && Faithful(cfg, old(file.content), old(cache)) ==>
        && r.value.body.previous == Tail(Rows(old(file.content).lines))
        && SoundFile(cfg, old(file.content).lines)
      ensures !SoundFile(cfg, old(file.content).lines) && !old(cache).initialized ==> r.Err?
    {
      if ValidFile(file.content) && Faithful(cfg, file.content, cache)
        && cache.initialized && IdentityOf(cfg, file.content) == cache.identity {
        FastPathEqualsReaudit(cfg, file.content, cache);
      }
      if request.eventType !in cfg.allowed { return Err(UnsupportedKind); }
      if !request.timezoneAware { return Err(NaiveTimestamp); }
      var previous := ValidatedAppendTail();
      if previous.Err? { return Err(previous.error); }
      var event := NewRow(cfg, request, previous.value);
      file.content := Written(cfg, file.content, request, event);
      cache := cache.(tail := event.sha, identity := IdentityOf(cfg, file.content));
      r := Ok(event);
    }
  }

  lemma IdsGrow<K, P>(rows: seq<Event<K, P>>, e: Event<K, P>)
    ensures Ids(rows + [e]) == Ids(rows) + {e.body.eventId}
  {
    var all := rows + [e];
    assert all[|rows|] == e;
    forall x | x in Ids(rows) + {e.body.eventId} ensures x in Ids(all) {
      if x in Ids(rows) {
        var i :| 0 <= i < |rows| && rows[i].body.eventId == x;
        assert all[i].body.eventId == x;
      }
    }
  }

  lemma EmptyAudit<K, P>(cfg: Config<K, P>, a: AuditCounts<K>)
    requires a == AuditCounts(0, map k | k in cfg.allowed :: 0, 0, 0, 0, 0, 0)
    ensures AuditOf(cfg, [], a)
  {
    var none: seq<Event<K, P>> := [];
    var noLines: seq<Line<K, P>> := [];
    assert Unreadable(noLines) == {};
    forall f: Fault ensures Faults(cfg, none, f) == {} {}
    forall k ensures OfKind(none, k) == {} {}
  }

  /** One more row moves each counter by what that row adds to its set. */
  lemma RowCounted<K, P>(cfg: Config<K, P>, rows: seq<Event<K, P>>, e: Event<K, P>, a: AuditCounts<K>)
    requires CountsRows(cfg, rows, a)
    ensures CountsRows(cfg, rows + [e], CountRow(cfg, a, e, Tail(rows), e.body.eventId in Ids(rows)))
  {
    var b := CountRow(cfg, a, e, Tail(rows), e.body.eventId in Ids(rows));
    assert (rows + [e])[|rows|] == e;
    DuplicateIffSeen(cfg, rows, e);
    FaultsGrow(cfg, rows, e, DuplicateId);
    FaultsGrow(cfg, rows, e, BrokenLink);
    FaultsGrow(cfg, rows, e, BadDigest);
    FaultsGrow(cfg, rows, e, ForeignIdentity);
    FaultsGrow(cfg, rows, e, UnknownKind);
    forall k | k in cfg.allowed ensures b.eventCounts[k] == |OfKind(rows + [e], k)| {
      OfKindGrows(rows, e, k);
    }
  }

  lemma DuplicateIffSeen<K, P>(cfg: Config<K, P>, rows: seq<Event<K, P>>, e: Event<K, P>)
    ensures Faulty(cfg, rows + [e], DuplicateId, |rows|) <==> e.body.eventId in Ids(rows)
  {
    var all := rows + [e];
    assert all[|rows|] == e;
    if e.body.eventId in Ids(rows) {
      var i :| 0 <= i < |rows| && rows[i].body.eventId == e.body.eventId;
      assert all[i].body.eventId == e.body.eventId;
    }
    if Faulty(cfg, all, DuplicateId, |rows|) {
      var i :| 0 <= i < |rows| && all[i].body.eventId == e.body.eventId;
      assert rows[i].body.eventId == e.body.eventId;
    }
  }

  lemma UnreadableGrows<K, P>(lines: seq<Line<K, P>>, i: nat)
    requires i < |lines|
    ensures |Unreadable(lines[..i + 1])| == |Unreadable(lines[..i])| + if lines[i].Garbage? then 1 else 0
  {
    assert Unreadable(lines[..i + 1]) == Unreadable(lines[..i]) + if lines[i].Garbage? then {i as int} else {};
  }

  lemma OfKindGrows<K, P>(rows: seq<Event<K, P>>, e: Event<K, P>, k: K)
    ensures |OfKind(rows + [e], k)| == |OfKind(rows, k)| + if e.body.eventType == k then 1 else 0
  {
    assert OfKind(rows + [e], k) == OfKind(rows, k) + if e.body.eventType == k then {|rows|} else {};
  }
}
