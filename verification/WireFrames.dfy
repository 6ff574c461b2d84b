/**
 The text forms of a realtime frame: the four-field envelope (src/api/kis_websocket.py) and
 the records in its payload (scripts/capture_kis_ws_event_evidence.py).
 */
module WireFrames {
  import opened Common
  import opened Ordering
  import opened Text

  datatype Frame = Frame(trId: string, recordCount: int, payload: string, encrypted: bool)

  // ---------------------------------------------------------------- numbers

  predicate IsDigit(c: char) { '0' <= c <= '9' }

  function DigitOf(c: char): nat
    requires IsDigit(c)
  {
    c as int - '0' as int
  }

  function DigitsValue(s: string): (n: nat)
    requires forall i :: 0 <= i < |s| ==> IsDigit(s[i])
  {
    if s == [] then 0 else 10 * DigitsValue(s[..|s| - 1]) + DigitOf(s[|s| - 1])
  }

  /** `int(text)`: optional white space and sign around decimal digits. */
  function ParseInt(text: string): Option<int> { ParseSigned(Strip(text)) }

  function ParseSigned(s: string): Option<int> {
    var digits := if s != [] && (s[0] == '+' || s[0] == '-') then s[1..] else s;
    if digits == [] || exists i :: 0 <= i < |digits| && !IsDigit(digits[i]) then None
    else
      var value: int := DigitsValue(digits);
      Some(if s[0] == '-' then -value else value)
  }

  function Decimal(n: nat): (s: string)
    ensures s != [] && forall i :: 0 <= i < |s| ==> IsDigit(s[i])
  {
    if n < 10 then [('0' as int + n) as char] else Decimal(n / 10) + [('0' as int + n % 10) as char]
  }

  lemma PlainDigits(digits: string)
    requires digits != [] && forall i :: 0 <= i < |digits| ==> IsDigit(digits[i])
    ensures ParseSigned(digits).Some? && ParseSigned(digits).value == DigitsValue(digits)
  {
    assert IsDigit(digits[0]) && digits[0] != '+' && digits[0] != '-';
    hide IsDigit, DigitsValue;
  }

  lemma AfterSign(sign: char, digits: string)
    requires digits != [] && forall i :: 0 <= i < |digits| ==> IsDigit(digits[i])
    requires sign == '+' || sign == '-'
    ensures ParseSigned([sign] + digits).Some?
    ensures sign == '+' ==> ParseSigned([sign] + digits).value == DigitsValue(digits)
    ensures sign == '-' ==> ParseSigned([sign] + digits).value == 0 - DigitsValue(digits)
  {
    assert ([sign] + digits)[1..] == digits && ([sign] + digits)[0] == sign;
    hide IsDigit, DigitsValue;
  }

  /** A sign may precede the digits. */
  lemma SignedIntegers(digits: string)
    requires digits != [] && forall i :: 0 <= i < |digits| ==> IsDigit(digits[i])
    ensures ParseInt(digits) == ParseInt(['+'] + digits) && ParseInt(digits).Some?
    ensures ParseInt(['-'] + digits).Some? && ParseInt(['-'] + digits).value == -ParseInt(digits).value
    ensures ParseInt(digits).value == DigitsValue(digits)
  {
    EndsInDigit(digits);
    EndsInDigit(['+'] + digits);
    EndsInDigit(['-'] + digits);
    PlainDigits(digits);
    AfterSign('+', digits);
    AfterSign('-', digits);
    hide Strip, IsSpace, DigitsValue, ParseSigned, IsDigit;
  }

  /** White space around a number does not matter. */
  lemma SurroundingSpace(text: string)
    ensures ParseInt(text) == ParseInt(Strip(text))
  {
    LeftStripFirst(text);
    RightStripEnds(LeftStrip(text));
    StripFixed(Strip(text));
    assert Strip(Strip(text)) == Strip(text);
    hide Strip, ParseSigned;
  }

  lemma EndsInDigit(s: string)
    requires s != [] && (s[0] == '+' || s[0] == '-' || IsDigit(s[0])) && IsDigit(s[|s| - 1])
    ensures Strip(s) == s
  {
    StripFixed(s);
  }

  lemma {:induction false} DecimalValue(n: nat)
    ensures DigitsValue(Decimal(n)) == n
  {
    if n < 10 {
      assert Decimal(n)[..0] == [];
    } else {
      DecimalValue(n / 10);
      assert Decimal(n)[..|Decimal(n)| - 1] == Decimal(n / 10);
    }
  }

  lemma ParseDecimal(n: nat)
    ensures ParseInt(Decimal(n)) == Some(n)
  {
    StripFixed(Decimal(n));
    DecimalValue(n);
  }

  // ---------------------------------------------------------------- the envelope

  /** `s.split(sep, most)`. */
  function SplitAtMost(s: string, sep: char, most: nat): (parts: seq<string>)
    ensures parts != []
  {
    if most == 0 || sep !in s then [s]
    else
      var i := IndexOf(s, sep);
      [s[..i]] + SplitAtMost(s[i + 1..], sep, most - 1)
  }

  function IndexOf(s: string, sep: char): (i: nat)
    requires sep in s
    ensures i < |s| && s[i] == sep && sep !in s[..i]
  {
    if s[0] == sep then 0
    else
      var i := 1 + IndexOf(s[1..], sep);
      assert s[..i] == [s[0]] + s[1..][..i - 1];
      i
  }

  /** The envelope branch of `parse_kis_ws_frame`; `None` for text that is not a realtime envelope. */
  function Parse(raw: string): Result<Option<Frame>, string> {
    if raw == [] then Err("empty KIS WebSocket frame")
    else if raw[0] != '0' && raw[0] != '1' then Ok(None)
    else
      var parts := SplitAtMost(raw, '|', 3);
      if |parts| != 4 then Err("realtime frame must contain four pipe-delimited fields")
      else
        var count := ParseInt(parts[2]);
        if count.None? then Err("realtime frame record count is not an integer")
        else if count.value <= 0 || parts[1] == "" || parts[3] == "" then
          Err("realtime frame has an empty TR ID, count, or payload")
        else Ok(Some(Frame(parts[1], count.value, parts[3], parts[0] == "1")))
  }

  function Field(head: string, rest: string): string { head + ['|'] + rest }

  function Envelope(flag: string, trId: string, count: string, payload: string): string {
    Field(flag, Field(trId, Field(count, payload)))
  }

  function Printed(f: Frame): string
    requires f.recordCount > 0
  {
    Envelope(if f.encrypted then "1" else "0", f.trId, Decimal(f.recordCount), f.payload)
  }

  lemma {:induction false} IndexIs(s: string, sep: char, k: nat)
    requires k < |s| && s[k] == sep && sep !in s[..k]
    ensures IndexOf(s, sep) == k
  {
    if k > 0 {
      assert s[..k][0] == s[0];
      assert s[1..][..k - 1] == s[..k][1..];
      IndexIs(s[1..], sep, k - 1);
    }
  }

  lemma SplitHead(head: string, rest: string, most: nat)
    requires '|' !in head && most > 0
    ensures SplitAtMost(Field(head, rest), '|', most) == [head] + SplitAtMost(rest, '|', most - 1)
  {
    var s := Field(head, rest);
    assert s[|head|] == '|' && s[..|head|] == head && s[|head| + 1..] == rest;
    IndexIs(s, '|', |head|);
  }

  /** Splitting an envelope with three plain fields at most three times gives its four fields. */
  lemma FourParts(flag: string, trId: string, count: string, payload: string)
    requires '|' !in flag && '|' !in trId && '|' !in count
    ensures SplitAtMost(Envelope(flag, trId, count, payload), '|', 3) == [flag, trId, count, payload]
  {
    hide SplitAtMost, Field;
    SplitHead(flag, Field(trId, Field(count, payload)), 3);
    SplitHead(trId, Field(count, payload), 2);
    SplitHead(count, payload, 1);
    NoSplit(payload);
  }

  lemma NoSplit(s: string)
    ensures SplitAtMost(s, '|', 0) == [s]
  {
  }

  lemma JoinFirst(first: string, rest: seq<string>)
    requires rest != []
    ensures Join([first] + rest, '|') == Field(first, Join(rest, '|'))
  {
    assert ([first] + rest)[1..] == rest;
  }

  lemma {:induction false} SplitParts(s: string, most: nat)
    ensures |SplitAtMost(s, '|', most)| <= most + 1
    ensures forall i :: 0 <= i < |SplitAtMost(s, '|', most)| - 1 ==> '|' !in SplitAtMost(s, '|', most)[i]
    ensures Join(SplitAtMost(s, '|', most), '|') == s
    decreases most
  {
    hide SplitAtMost, IndexOf, Join, Field;
    if most > 0 && '|' in s {
      var head, tail := SplitFirst(s, most);
      SplitParts(tail, most - 1);
      JoinFirst(head, SplitAtMost(tail, '|', most - 1));
    } else {
      Unsplit(s, most);
    }
  }

  lemma SplitFirst(s: string, most: nat) returns (head: string, tail: string)
    requires most > 0 && '|' in s
    ensures SplitAtMost(s, '|', most) == [head] + SplitAtMost(tail, '|', most - 1)
    ensures s == Field(head, tail) && '|' !in head && |tail| < |s|
  {
    var i := IndexOf(s, '|');
    head, tail := s[..i], s[i + 1..];
    SplitUnfolds(s, most);
    hide SplitAtMost, IndexOf;
    assert s == s[..i] + [s[i]] + s[i + 1..];
  }

  lemma SplitUnfolds(s: string, most: nat)
    requires most > 0 && '|' in s
    ensures var i := IndexOf(s, '|');
      SplitAtMost(s, '|', most) == [s[..i]] + SplitAtMost(s[i + 1..], '|', most - 1)
  {
    hide IndexOf;
  }

  lemma Unsplit(s: string, most: nat)
    requires most == 0 || '|' !in s
    ensures SplitAtMost(s, '|', most) == [s] && Join([s], '|') == s
  {
  }

  /** Parsing a printed frame gives the frame back, whatever is in its payload. */
  lemma ParsePrinted(f: Frame)
    requires f.trId != "" && '|' !in f.trId && f.recordCount > 0 && f.payload != ""
    ensures Parse(Printed(f)) == Ok(Some(f))
  {
    hide SplitAtMost, ParseInt, Decimal, Field;
    var flag := if f.encrypted then "1" else "0";
    FlagFirst(flag, Field(f.trId, Field(Decimal(f.recordCount), f.payload)));
    FourParts(flag, f.trId, Decimal(f.recordCount), f.payload);
    ParseDecimal(f.recordCount);
  }

  /** An envelope is accepted exactly where its fields say so; its flag need only begin with 0 or 1. */
  ghost predicate Envelopes(raw: string, f: Frame) {
    exists flag, count ::
      && raw == Envelope(flag, f.trId, count, f.payload)
      && '|' !in flag && '|' !in f.trId && '|' !in count
      && flag != "" && (flag[0] == '0' || flag[0] == '1') && (f.encrypted <==> flag == "1")
      && ParseInt(count) == Some(f.recordCount) && f.recordCount > 0 && f.trId != "" && f.payload != ""
  }

  lemma ParsedIsEnvelope(raw: string, f: Frame)
    requires Parse(raw) == Ok(Some(f))
    ensures Envelopes(raw, f)
  {
    var parts := SplitAtMost(raw, '|', 3);
    SplitParts(raw, 3);
    hide SplitAtMost, ParseInt;
    assert |parts| == 4;
    var flag, trId, count, payload := parts[0], parts[1], parts[2], parts[3];
    assert parts == [flag, trId, count, payload];
    JoinedFour(flag, trId, count, payload);
    FlagFirst(flag, Field(trId, Field(count, payload)));
    hide Envelope;
  }

  lemma FlagFirst(flag: string, rest: string)
    ensures Field(flag, rest) != [] && Field(flag, rest)[0] == if flag == "" then '|' else flag[0]
  {
  }

  lemma EnvelopeIsParsed(raw: string, f: Frame)
    requires Envelopes(raw, f)
    ensures Parse(raw) == Ok(Some(f))
  {
    hide ParseInt, SplitAtMost, Field;
    var flag, count :| && raw == Envelope(flag, f.trId, count, f.payload)
      && '|' !in flag && '|' !in f.trId && '|' !in count
      && flag != "" && (flag[0] == '0' || flag[0] == '1') && (f.encrypted <==> flag == "1")
      && ParseInt(count) == Some(f.recordCount) && f.recordCount > 0 && f.trId != "" && f.payload != "";
    FourParts(flag, f.trId, count, f.payload);
    FlagFirst(flag, Field(f.trId, Field(count, f.payload)));
  }

  lemma ParsedIffEnvelope(raw: string, f: Frame)
    ensures Parse(raw) == Ok(Some(f)) <==> Envelopes(raw, f)
  {
    if Parse(raw) == Ok(Some(f)) { ParsedIsEnvelope(raw, f); }
    if Envelopes(raw, f) { EnvelopeIsParsed(raw, f); }
  }

  lemma JoinedFour(a: string, b: string, c: string, d: string)
    ensures Join([a, b, c, d], '|') == Envelope(a, b, c, d)
  {
    assert [a, b, c, d][1..] == [b, c, d] && [b, c, d][1..] == [c, d] && [c, d][1..] == [d];
    assert Join([d], '|') == d;
    assert Join([c, d], '|') == Field(c, d);
    assert Join([b, c, d], '|') == Field(b, Field(c, d));
  }

  // ---------------------------------------------------------------- records

  /** `dict(zip(columns, values))`. */
  function Zip(columns: seq<string>, values: seq<string>): map<string, string>
    requires |columns| == |values|
  {
    if columns == [] then map[]
    else Zip(columns[..|columns| - 1], values[..|values| - 1])[columns[|columns| - 1] := values[|values| - 1]]
  }

  function Rows(values: seq<string>, columns: seq<string>, count: nat): seq<map<string, string>>
    requires |values| == count * |columns|
  {
    if count == 0 then []
    else
      OneRowLess(count, |columns|);
      [Zip(columns, values[..|columns|])] + Rows(values[|columns|..], columns, count - 1)
  }

  lemma OneRowLess(count: nat, width: nat)
    requires count > 0
    ensures count * width == width + (count - 1) * width
    ensures count * width >= width
  {
    assert (count - 1) * width >= 0;
  }

  /** `_split_records`. */
  function SplitRecords(payload: string, columns: seq<string>, count: nat): Result<seq<map<string, string>>, string> {
    var values := Split(payload, '^');
    if |values| != count * |columns| then Err("payload width mismatch") else Ok(Rows(values, columns, count))
  }

  function RowFields(r: map<string, string>, columns: seq<string>): seq<string>
    requires r.Keys == Columns(columns)
  {
    seq(|columns|, i requires 0 <= i < |columns| => ColumnOf(r, columns, i))
  }

  /** The fields of the records, in column order. */
  function Fields(records: seq<map<string, string>>, columns: seq<string>): seq<string>
    requires forall r :: r in records ==> r.Keys == Columns(columns)
  {
    if records == [] then []
    else
      RowFields(records[0], columns) + Fields(records[1..], columns)
  }

  function Columns(columns: seq<string>): set<string> { set i | 0 <= i < |columns| :: columns[i] }

  function ColumnOf(r: map<string, string>, columns: seq<string>, i: nat): string
    requires r.Keys == Columns(columns) && i < |columns|
  {
    assert columns[i] in Columns(columns);
    r[columns[i]]
  }

  lemma {:induction false} ZipKeys(columns: seq<string>, values: seq<string>)
    requires |columns| == |values|
    ensures Zip(columns, values).Keys == Columns(columns)
    ensures Distinct(columns) ==> forall i :: 0 <= i < |columns| ==> Zip(columns, values)[columns[i]] == values[i]
  {
    if columns != [] {
      var init := columns[..|columns| - 1];
      ZipKeys(init, values[..|values| - 1]);
      assert Columns(columns) == Columns(init) + {columns[|columns| - 1]} by {
        forall c | c in Columns(columns) ensures c in Columns(init) + {columns[|columns| - 1]} {
          var i :| 0 <= i < |columns| && columns[i] == c;
          if i < |init| { assert init[i] == c; }
        }
        forall c | c in Columns(init) ensures c in Columns(columns) {
          var i :| 0 <= i < |init| && init[i] == c;
          assert columns[i] == c;
        }
      }
    }
  }

  lemma FirstRow(columns: seq<string>, values: seq<string>)
    requires |columns| == |values| && Distinct(columns)
    ensures Zip(columns, values).Keys == Columns(columns)
    ensures RowFields(Zip(columns, values), columns) == values
  {
    ZipKeys(columns, values);
  }

  lemma {:induction false} RowsKeepFields(values: seq<string>, columns: seq<string>, count: nat)
    requires |values| == count * |columns| && Distinct(columns)
    ensures |Rows(values, columns, count)| == count
    ensures forall r :: r in Rows(values, columns, count) ==> r.Keys == Columns(columns)
    ensures Fields(Rows(values, columns, count), columns) == values
  {
    if count > 0 {
      OneRowLess(count, |columns|);
      var first, rest := values[..|columns|], values[|columns|..];
      FirstRow(columns, first);
      hide Zip, RowFields, Columns, Distinct;
      RowsKeepFields(rest, columns, count - 1);
      assert values == first + rest;
      assert Rows(values, columns, count)[1..] == Rows(rest, columns, count - 1);
    }
  }

  /** Accepted exactly at the full width, and then the records, rejoined, are the payload. */
  lemma RecordsRejoin(payload: string, columns: seq<string>, count: nat)
    requires Distinct(columns)
    ensures SplitRecords(payload, columns, count).Ok? <==> |Split(payload, '^')| == count * |columns|
    ensures SplitRecords(payload, columns, count).Ok? ==>
      var records := SplitRecords(payload, columns, count).value;
      && |records| == count
      && (forall r :: r in records ==> r.Keys == Columns(columns))
      && Join(Fields(records, columns), '^') == payload
  {
    JoinSplit(payload, '^');
    var values := Split(payload, '^');
    if |values| == count * |columns| { RowsKeepFields(values, columns, count); }
  }
}
