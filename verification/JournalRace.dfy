/**
 Journal objects that do not share a lock. Each object holds its own, so between processes the
 tail an append links to is read in one step and its row is written in another.
 */
module JournalRace {
  import opened Common
  import opened EvidenceJournal

  /** A row linked to the tail that was read when the file had `seen` lines. */
  datatype Waiting<K, P> = Waiting(request: Request<K, P>, event: Event<K, P>, seen: nat)

  datatype Racing<K, P> = Racing(file: File<K, P>, caches: seq<Cache>, waiting: seq<Option<Waiting<K, P>>>)

  datatype Move<K, P> = ReadTail(writer: nat, request: Request<K, P>) | WriteRow(writer: nat)

  ghost predicate Enabled<K, P>(cfg: Config<K, P>, s: Racing<K, P>, m: Move<K, P>) {
    && |s.waiting| == |s.caches| && m.writer < |s.caches|
    && match m
       case ReadTail(w, r) => s.waiting[w].None? && r.eventType in cfg.allowed && r.timezoneAware
       case WriteRow(w) => s.waiting[w].Some?
  }

  ghost predicate OnFastPath<K, P>(cfg: Config<K, P>, s: Racing<K, P>, w: nat)
    requires w < |s.caches|
  {
    s.caches[w].initialized && IdentityOf(cfg, s.file) == s.caches[w].identity
  }

  ghost function TailRead<K, P>(cfg: Config<K, P>, s: Racing<K, P>, w: nat): string
    requires w < |s.caches|
  {
    if OnFastPath(cfg, s, w) then s.caches[w].tail else Tail(Rows(s.file.lines))
  }

  ghost function Moved<K, P>(cfg: Config<K, P>, s: Racing<K, P>, m: Move<K, P>): Racing<K, P>
    requires Enabled(cfg, s, m)
  {
    match m
    case ReadTail(w, r) =>
      if !OnFastPath(cfg, s, w) && !SoundFile(cfg, s.file.lines) then
        s.(caches := s.caches[w := AfterAudit(cfg, s.file, s.caches[w])])
      else
        var tail := TailRead(cfg, s, w);
        s.(caches := s.caches[w := Cache(true, IdentityOf(cfg, s.file), tail)],
           waiting := s.waiting[w := Some(Waiting(r, NewRow(cfg, r, tail), |s.file.lines|))])
    case WriteRow(w) =>
      var x := s.waiting[w].value;
      var written := Written(cfg, s.file, x.request, x.event);
      Racing(written, s.caches[w := Cache(true, IdentityOf(cfg, written), x.event.sha)], s.waiting[w := None])
  }

  ghost predicate Run<K, P>(cfg: Config<K, P>, states: seq<Racing<K, P>>, moves: seq<Move<K, P>>) {
    && |states| == |moves| + 1
    && forall k :: 0 <= k < |moves| ==>
      Enabled(cfg, states[k], moves[k]) && states[k + 1] == Moved(cfg, states[k], moves[k])
  }

  /** Objects that have not appended yet, on a journal that audits as passed. */
  ghost predicate Initial<K, P>(cfg: Config<K, P>, s: Racing<K, P>) {
    && |s.waiting| == |s.caches|
    && Starting(cfg, System(s.file, s.caches))
    && forall w :: 0 <= w < |s.waiting| ==> s.waiting[w].None?
  }

  /** The row is written before anybody else has written, under a new identifier and in one line. */
  ghost predicate CleanWrite<K, P>(cfg: Config<K, P>, s: Racing<K, P>, m: Move<K, P>)
    requires Enabled(cfg, s, m)
  {
    m.WriteRow? ==>
      var x := s.waiting[m.writer].value;
      |s.file.lines| == x.seen && Harmless(cfg, Ids(Rows(s.file.lines)), x.request)
  }

  // ---------------------------------------------------------------- while every write is clean

  ghost predicate WaitingSound<K, P>(cfg: Config<K, P>, start: nat, lines: seq<Line<K, P>>, x: Waiting<K, P>) {
    && start <= x.seen <= |lines|
    && x.event == NewRow(cfg, x.request, Tail(Rows(lines[..x.seen])))
    && x.request.eventType in cfg.allowed
  }

  ghost predicate RowsFrom<K, P>(start: nat, lines: seq<Line<K, P>>) {
    start <= |lines| && forall i :: start <= i < |lines| ==> lines[i].Row?
  }

  /** `start` is the number of lines the run began with. */
  ghost predicate Orderly<K, P>(cfg: Config<K, P>, start: nat, s: Racing<K, P>) {
    && |s.waiting| == |s.caches|
    && Consistent(cfg, System(s.file, s.caches))
    && RowsFrom(start, s.file.lines)
    && forall w :: 0 <= w < |s.waiting| && s.waiting[w].Some? ==>
      WaitingSound(cfg, start, s.file.lines, s.waiting[w].value)
  }

  lemma ReadTailKeepsOrderly<K, P>(cfg: Config<K, P>, start: nat, s: Racing<K, P>, m: Move<K, P>)
    requires Orderly(cfg, start, s) && Enabled(cfg, s, m) && m.ReadTail?
    ensures Orderly(cfg, start, Moved(cfg, s, m))
  {
    var w, lines := m.writer, s.file.lines;
    if OnFastPath(cfg, s, w) { FastPathEqualsReaudit(cfg, s.file, s.caches[w]); }
    assert lines[..|lines|] == lines;
    var t := Moved(cfg, s, m);
    CurrentCacheIsFaithful(cfg, s.file, t.caches[w]);
    hide Faithful, SoundFile, Rows, RowsFrom, NewRow;
  }

  lemma PrefixWaits<K, P>(
      cfg: Config<K, P>, start: nat, lines: seq<Line<K, P>>, more: seq<Line<K, P>>, x: Waiting<K, P>)
    requires WaitingSound(cfg, start, lines, x) && lines <= more
    ensures WaitingSound(cfg, start, more, x)
  {
    assert more[..x.seen] == lines[..x.seen];
  }

  lemma CleanRowIsSound<K, P>(cfg: Config<K, P>, start: nat, lines: seq<Line<K, P>>, x: Waiting<K, P>)
    requires SoundFile(cfg, lines) && WaitingSound(cfg, start, lines, x) && x.seen == |lines|
    requires Harmless(cfg, Ids(Rows(lines)), x.request)
    ensures var more := lines + TextLines(cfg, x.event);
      more == lines + [Row(x.event)] && SoundFile(cfg, more) && Tail(Rows(more)) == x.event.sha
  {
    assert lines[..|lines|] == lines;
    OneLineIff(cfg, x.request, Tail(Rows(lines)));
    OneLineAppended(cfg, lines, x.event);
    SoundPlusRow(cfg, Rows(lines), x.event);
    hide Sound, OneLine, Rows, TextLines, Ids;
  }

  /** A file that grew by rows, and one cache that describes it, keep everything in order. */
  lemma GrownIsOrderly<K, P>(cfg: Config<K, P>, start: nat, s: Racing<K, P>, t: Racing<K, P>, w: nat)
    requires Orderly(cfg, start, s) && w < |s.caches| == |t.caches|
    requires t.caches == s.caches[w := t.caches[w]] && t.waiting == s.waiting[w := None]
    requires s.file.lines <= t.file.lines && RowsFrom(start, t.file.lines)
    requires ValidFile(t.file) && SoundFile(cfg, t.file.lines) && Faithful(cfg, t.file, t.caches[w])
    ensures Orderly(cfg, start, t)
  {
    hide SoundFile, Faithful, WaitingSound, ValidFile, RowsFrom;
    forall v | 0 <= v < |s.caches| && v != w
      ensures Faithful(cfg, t.file, t.caches[v])
      ensures t.waiting[v].Some? ==> WaitingSound(cfg, start, t.file.lines, t.waiting[v].value)
    {
      FaithfulSurvivesGrowth(cfg, s.file, t.file, s.caches[v]);
      if s.waiting[v].Some? { PrefixWaits(cfg, start, s.file.lines, t.file.lines, s.waiting[v].value); }
    }
  }

  lemma CleanWriteKeepsOrderly<K, P>(cfg: Config<K, P>, start: nat, s: Racing<K, P>, m: Move<K, P>)
    requires Orderly(cfg, start, s) && Enabled(cfg, s, m) && m.WriteRow? && CleanWrite(cfg, s, m)
    ensures Orderly(cfg, start, Moved(cfg, s, m))
  {
    var t, x := Moved(cfg, s, m), s.waiting[m.writer].value;
    hide SoundFile, Faithful, Rows, Harmless, TextLines, Ids, WaitingSound, Tail;
    WrittenIsValid(cfg, s.file, x.request, x.event);
    CleanRowIsSound(cfg, start, s.file.lines, x);
    CurrentCacheIsFaithful(cfg, t.file, t.caches[m.writer]);
    hide ValidFile, IdentityOf, Orderly;
    GrownIsOrderly(cfg, start, s, t, m.writer);
  }

  // ---------------------------------------------------------------- what an unclean write does

  ghost predicate Injective<K(!new), P(!new)>(cfg: Config<K, P>) {
    && (forall x, y :: cfg.digest(x) == cfg.digest(y) ==> x == y)
    && (forall x :: cfg.digest(x) != ZERO_SHA256)
  }

  lemma {:induction false} AllRows<K, P>(lines: seq<Line<K, P>>)
    requires forall i :: 0 <= i < |lines| ==> lines[i].Row?
    ensures |Rows(lines)| == |lines|
  {
    if lines != [] { AllRows(lines[..|lines| - 1]); }
  }

  lemma SoundFilePrefix<K, P>(cfg: Config<K, P>, lines: seq<Line<K, P>>, k: nat)
    requires k <= |lines| && SoundFile(cfg, lines)
    ensures SoundFile(cfg, lines[..k])
  {
    assert lines == lines[..k] + lines[k..];
    CorruptionNeverHeals(cfg, lines[..k], lines[k..]);
  }

  lemma MoreRowsSince<K, P>(start: nat, lines: seq<Line<K, P>>, seen: nat)
    requires RowsFrom(start, lines) && start <= seen < |lines|
    ensures |Rows(lines)| > |Rows(lines[..seen])|
  {
    var since := lines[seen..];
    assert lines == lines[..seen] + since;
    RowsAppend(lines[..seen], since);
    AllRows(since);
  }

  lemma TailsDiffer<K(!new), P(!new)>(cfg: Config<K, P>, rows: seq<Event<K, P>>, early: seq<Event<K, P>>)
    requires Injective(cfg) && Sound(cfg, rows) && Sound(cfg, early) && |rows| > |early|
    ensures Tail(rows) != Tail(early)
  {
    hide Sound, Tail;
    if Tail(rows) == Tail(early) { TailCommitsToHistory(cfg, cfg, rows, early); }
  }

  /** A row linked to a tail that is no longer the last one breaks the chain. */
  lemma StaleRowBreaks<K(!new), P(!new)>(cfg: Config<K, P>, start: nat, lines: seq<Line<K, P>>, x: Waiting<K, P>)
    requires Injective(cfg) && SoundFile(cfg, lines) && RowsFrom(start, lines)
    requires WaitingSound(cfg, start, lines, x) && x.seen < |lines|
    ensures !Sound(cfg, Rows(lines) + [x.event])
  {
    hide Rows, RowsFrom, Injective, Tail, Sound;
    var rows, early := Rows(lines), Rows(lines[..x.seen]);
    SoundFilePrefix(cfg, lines, x.seen);
    MoreRowsSince(start, lines, x.seen);
    TailsDiffer(cfg, rows, early);
    BrokenLinkIsUnsound(cfg, rows, x.event);
  }

  lemma BrokenLinkIsUnsound<K, P>(cfg: Config<K, P>, rows: seq<Event<K, P>>, e: Event<K, P>)
    requires e.body.previous != Tail(rows)
    ensures !Sound(cfg, rows + [e])
  {
    assert (rows + [e])[|rows|] == e;
    assert rows != [] ==> (rows + [e])[|rows| - 1] == rows[|rows| - 1];
  }

  lemma UncleanWriteBreaks<K(!new), P(!new)>(cfg: Config<K, P>, start: nat, s: Racing<K, P>, m: Move<K, P>)
    requires Injective(cfg) && Orderly(cfg, start, s) && Enabled(cfg, s, m) && !CleanWrite(cfg, s, m)
    ensures !SoundFile(cfg, Moved(cfg, s, m).file.lines)
  {
    var lines, x := s.file.lines, s.waiting[m.writer].value;
    OneLineIff(cfg, x.request, Tail(Rows(lines[..x.seen])));
    if !OneLine(cfg, x.request) {
      CutRowAppended(cfg, lines, x.event);
    } else {
      OneLineAppended(cfg, lines, x.event);
      hide OneLine, TextLines, SoundFile, Rows;
      if x.seen < |lines| {
        StaleRowBreaks(cfg, start, lines, x);
      } else {
        assert lines[..|lines|] == lines;
        var rows := Rows(lines);
        var i :| 0 <= i < |rows| && rows[i].body.eventId == x.request.eventId;
        RepeatedRowIsUnsound(cfg, rows, x.event, i);
      }
    }
  }

  lemma MoveExtends<K, P>(cfg: Config<K, P>, s: Racing<K, P>, m: Move<K, P>)
    requires Enabled(cfg, s, m) && SoundFile(cfg, Moved(cfg, s, m).file.lines)
    ensures SoundFile(cfg, s.file.lines)
  {
    hide SoundFile;
    if m.WriteRow? { CorruptionNeverHeals(cfg, s.file.lines, TextLines(cfg, s.waiting[m.writer].value.event)); }
  }

  /**
   At every point of every run the journal passes if and only if each row was written before any
   other object wrote after its tail was read, under an identifier new at that moment, and in one
   line.
   */
  lemma {:induction false} PassesIffCleanWrites<K(!new), P(!new)>(
      cfg: Config<K, P>, states: seq<Racing<K, P>>, moves: seq<Move<K, P>>, n: nat)
    requires Injective(cfg) && Run(cfg, states, moves) && Initial(cfg, states[0]) && n <= |moves|
    ensures SoundFile(cfg, states[n].file.lines) <==> forall k :: 0 <= k < n ==> CleanWrite(cfg, states[k], moves[k])
    ensures SoundFile(cfg, states[n].file.lines) ==> Orderly(cfg, |states[0].file.lines|, states[n])
  {
    if n > 0 {
      hide Initial, SoundFile, CleanWrite, Orderly, Enabled, Moved, Injective;
      PassesIffCleanWrites(cfg, states, moves, n - 1);
      OneMove(cfg, |states[0].file.lines|, states[n - 1], moves[n - 1]);
      assert states[n] == Moved(cfg, states[n - 1], moves[n - 1]);
    }
  }

  lemma OneMove<K(!new), P(!new)>(cfg: Config<K, P>, start: nat, s: Racing<K, P>, m: Move<K, P>)
    requires Injective(cfg) && Enabled(cfg, s, m) && (SoundFile(cfg, s.file.lines) ==> Orderly(cfg, start, s))
    ensures var t := Moved(cfg, s, m);
      && (SoundFile(cfg, t.file.lines) <==> SoundFile(cfg, s.file.lines) && CleanWrite(cfg, s, m))
      && (SoundFile(cfg, t.file.lines) ==> Orderly(cfg, start, t))
  {
    hide Injective, SoundFile, Orderly, Moved;
    if SoundFile(cfg, Moved(cfg, s, m).file.lines) { MoveExtends(cfg, s, m); }
    if SoundFile(cfg, s.file.lines) {
      if m.ReadTail? {
        ReadTailKeepsOrderly(cfg, start, s, m);
        SoundIfOrderly(cfg, start, Moved(cfg, s, m));
      } else if CleanWrite(cfg, s, m) {
        CleanWriteKeepsOrderly(cfg, start, s, m);
        SoundIfOrderly(cfg, start, Moved(cfg, s, m));
      } else {
        UncleanWriteBreaks(cfg, start, s, m);
      }
    }
  }

  lemma SoundIfOrderly<K, P>(cfg: Config<K, P>, start: nat, s: Racing<K, P>)
    requires Orderly(cfg, start, s)
    ensures SoundFile(cfg, s.file.lines)
  {
  }
}
