/** The Python string operations the gates use, over ASCII text. */
module Text {

  predicate IsSpace(c: char) {
    c == ' ' || '\t' <= c <= '\r' || c as int == 0x1c || c as int == 0x1d || c as int == 0x1e || c as int == 0x1f
  }

  function LeftStrip(s: string): (r: string)
    ensures |r| <= |s|
  {
    if s != [] && IsSpace(s[0]) then LeftStrip(s[1..]) else s
  }

  function RightStrip(s: string): (r: string)
    ensures |r| <= |s|
  {
    if s != [] && IsSpace(s[|s| - 1]) then RightStrip(s[..|s| - 1]) else s
  }

  function Strip(s: string): string { RightStrip(LeftStrip(s)) }

  function LowerChar(c: char): char {
    if 'A' <= c <= 'Z' then (c as int + 32) as char else c
  }

  function UpperChar(c: char): char {
    if 'a' <= c <= 'z' then (c as int - 32) as char else c
  }

  function Lower(s: string): (r: string)
    ensures |r| == |s|
  {
    seq(|s|, i requires 0 <= i < |s| => LowerChar(s[i]))
  }

  function Upper(s: string): (r: string)
    ensures |r| == |s|
  {
    seq(|s|, i requires 0 <= i < |s| => UpperChar(s[i]))
  }

  predicate StartsWith(s: string, prefix: string) {
    |prefix| <= |s| && s[..|prefix|] == prefix
  }

  predicate EndsWith(s: string, suffix: string) {
    |suffix| <= |s| && s[|s| - |suffix|..] == suffix
  }

  function RemovePrefix(s: string, prefix: string): string {
    if StartsWith(s, prefix) then s[|prefix|..] else s
  }

  predicate IsLowerHex(s: string) {
    forall i :: 0 <= i < |s| ==> '0' <= s[i] <= '9' || 'a' <= s[i] <= 'f'
  }

  /** `str.split(sep)` for a one-character separator. */
  function Split(s: string, sep: char): (parts: seq<string>)
    ensures parts != []
  {
    if s == [] then [[]]
    else
      var rest := Split(s[1..], sep);
      if s[0] == sep then [[]] + rest else [[s[0]] + rest[0]] + rest[1..]
  }

  /** `sep.join(parts)`. */
  function Join(parts: seq<string>, sep: char): string {
    if parts == [] then []
    else if |parts| == 1 then parts[0]
    else parts[0] + [sep] + Join(parts[1..], sep)
  }

  /** Text without white space at its ends is its own `strip()`. */
  lemma StripFixed(s: string)
    requires s == [] || (!IsSpace(s[0]) && !IsSpace(s[|s| - 1]))
    ensures Strip(s) == s
  {
  }

  lemma {:induction false} JoinSplit(s: string, sep: char)
    ensures Join(Split(s, sep), sep) == s
    ensures forall i :: 0 <= i < |Split(s, sep)| ==> sep !in Split(s, sep)[i]
  {
    if s != [] {
      JoinSplit(s[1..], sep);
      var rest := Split(s[1..], sep);
      var parts := Split(s, sep);
      if s[0] == sep {
        assert parts[1..] == rest;
      } else if |rest| > 1 {
        assert parts[1..] == rest[1..];
      }
      assert s == [s[0]] + s[1..];
      forall i | 0 <= i < |parts| ensures sep !in parts[i] {
        if s[0] == sep {
          if i > 0 { assert parts[i] == rest[i - 1]; }
        } else if i > 0 {
          assert parts[i] == rest[i];
        }
      }
    }
  }

  lemma {:induction false} SplitJoin(parts: seq<string>, sep: char)
    requires parts != [] && forall i :: 0 <= i < |parts| ==> sep !in parts[i]
    ensures Split(Join(parts, sep), sep) == parts
    decreases |parts|, |parts[0]|
  {
    var s := Join(parts, sep);
    if parts[0] == [] {
      if |parts| > 1 {
        SplitJoin(parts[1..], sep);
        assert s == [sep] + Join(parts[1..], sep);
        assert parts == [[]] + parts[1..];
      } else {
        assert parts == [[]];
      }
    } else {
      var shorter := [parts[0][1..]] + parts[1..];
      assert shorter[1..] == parts[1..];
      assert forall i :: 1 <= i < |parts| ==> shorter[i] == parts[i];
      SplitJoin(shorter, sep);
      assert parts[0] == [parts[0][0]] + parts[0][1..];
      assert s == [parts[0][0]] + Join(shorter, sep);
      assert parts[0][0] != sep;
      assert parts == [parts[0]] + parts[1..];
    }
  }

  lemma {:induction false} LeftStripFirst(s: string)
    ensures LeftStrip(s) == [] || !IsSpace(LeftStrip(s)[0])
  {
    if s != [] && IsSpace(s[0]) { LeftStripFirst(s[1..]); }
  }

  lemma {:induction false} RightStripEnds(s: string)
    ensures RightStrip(s) == [] || !IsSpace(RightStrip(s)[|RightStrip(s)| - 1])
    ensures RightStrip(s) != [] ==> RightStrip(s)[0] == s[0]
  {
    if s != [] && IsSpace(s[|s| - 1]) { RightStripEnds(s[..|s| - 1]); }
  }

  lemma {:induction false} LeftStripLast(s: string)
    requires s != [] && !IsSpace(s[|s| - 1])
    ensures LeftStrip(s) != [] && LeftStrip(s)[|LeftStrip(s)| - 1] == s[|s| - 1]
  {
    if IsSpace(s[0]) { LeftStripLast(s[1..]); }
  }

  lemma NotBlank(s: string)
    requires s != [] && !IsSpace(s[|s| - 1])
    ensures Strip(s) != []
  {
    LeftStripLast(s);
  }

  /** `strip()` leaves nothing of white space, and something of everything else. */
  lemma BlankIff(s: string)
    ensures Strip(s) == [] <==> forall i :: 0 <= i < |s| ==> IsSpace(s[i])
  {
    if forall i :: 0 <= i < |s| ==> IsSpace(s[i]) { AllBlank(s); }
    if i :| 0 <= i < |s| && !IsSpace(s[i]) {
      KeepsMark(s, i);
      RightKeepsMark(LeftStrip(s), LeftMark(s, i));
    }
  }

  lemma {:induction false} AllBlank(s: string)
    requires forall i :: 0 <= i < |s| ==> IsSpace(s[i])
    ensures LeftStrip(s) == []
  {
    if s != [] { AllBlank(s[1..]); }
  }

  /** Where a character that is no white space stands once the text is stripped on the left. */
  function LeftMark(s: string, i: nat): nat
    requires i < |s| && !IsSpace(s[i])
  {
    if IsSpace(s[0]) then LeftMark(s[1..], i - 1) else i
  }

  lemma {:induction false} KeepsMark(s: string, i: nat)
    requires i < |s| && !IsSpace(s[i])
    ensures LeftMark(s, i) < |LeftStrip(s)| && LeftStrip(s)[LeftMark(s, i)] == s[i]
  {
    if IsSpace(s[0]) { KeepsMark(s[1..], i - 1); }
  }

  lemma {:induction false} RightKeepsMark(s: string, i: nat)
    requires i < |s| && !IsSpace(s[i])
    ensures RightStrip(s) != []
  {
    if IsSpace(s[|s| - 1]) { RightKeepsMark(s[..|s| - 1], i); }
  }

  lemma UpperFixed(s: string)
    requires forall i :: 0 <= i < |s| ==> !('a' <= s[i] <= 'z')
    ensures Upper(s) == s
  {
  }

  /** `strip().lower()` done twice is `strip().lower()`. */
  lemma StripLowerIdempotent(s: string)
    ensures Lower(Strip(Lower(Strip(s)))) == Lower(Strip(s))
  {
    LeftStripFirst(s);
    RightStripEnds(LeftStrip(s));
    var once := Strip(s);
    StripFixed(Lower(once));
    assert Lower(Lower(once)) == Lower(once);
  }

  /** `strip().upper()` done twice is `strip().upper()`. */
  lemma StripUpperIdempotent(s: string)
    ensures Upper(Strip(Upper(Strip(s)))) == Upper(Strip(s))
  {
    LeftStripFirst(s);
    RightStripEnds(LeftStrip(s));
    var once := Strip(s);
    StripFixed(Upper(once));
    assert Upper(Upper(once)) == Upper(once);
  }

  /** Lower-case hexadecimal text is left alone by `strip()` and `lower()`. */
  lemma HexIsFixed(s: string)
    requires IsLowerHex(s)
    ensures Strip(s) == s && Lower(s) == s
  {
    StripFixed(s);
  }
}
