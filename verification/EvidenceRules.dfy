/** Evidence-chain rules shared by the gates (activation_gates/evidence.py). */
module EvidenceRules {
  import opened Common
  import opened Ordering
  import opened Text
  import opened Gate4Evidence

  /** Date arithmetic, the NYSE calendar and time stamps come from elsewhere; a day is its ordinal number. */
  datatype Outside = Outside(
    parseDate: string -> Option<int>, isoFormat: int -> string,
    isTradingDay: int -> bool, nextTradingDay: int -> int,
    isAwareTimestamp: string -> bool)

  predicate ValidSha256(value: string) {
    var digest := Lower(Strip(value));
    |digest| == 64 && IsLowerHex(digest)
  }

  predicate ValidGitCommitSha(value: string) {
    var commit := Lower(Strip(value));
    (|commit| == 40 || |commit| == 64) && IsLowerHex(commit)
  }

  predicate ReviewApproved(r: Review, o: Outside) {
    && Upper(Strip(r.status)) == "APPROVED"
    && Strip(r.author) != "" && Strip(r.reviewer) != ""
    && Lower(Strip(r.author)) != Lower(Strip(r.reviewer))
    && o.isAwareTimestamp(Strip(r.reviewedAt))
    && ValidSha256(RemovePrefix(Strip(r.reference), "sha256:"))
  }

  /** One violation per requirement that does not hold. */
  method Require(violations: seq<string>, holds: bool, name: string) returns (r: seq<string>)
    ensures r == [] <==> violations == [] && holds
  {
    r := if holds then violations else violations + [name];
  }

  method ValidateIndependentReview(r: Review, o: Outside) returns (violations: seq<string>)
    ensures violations == [] <==> ReviewApproved(r, o)
  {
    var author, reviewer := Strip(r.author), Strip(r.reviewer);
    var reference := Strip(r.reference);
    if Upper(Strip(r.status)) == "APPROVED" && author != "" && reviewer != "" && Lower(author) != Lower(reviewer)
      && o.isAwareTimestamp(Strip(r.reviewedAt)) && ValidSha256(RemovePrefix(reference, "sha256:"))
    {
      return [];
    }
    return ["independent_review_approved"];
  }

  /** A review without outer white space and case, its reference the bare digest. */
  function Tidied(r: Review): Review {
    Review(
      Lower(Strip(r.author)), Lower(Strip(r.reviewer)), Upper(Strip(r.status)), Strip(r.reviewedAt),
      Lower(Strip(RemovePrefix(Strip(r.reference), "sha256:"))))
  }

  lemma StripTwice(s: string)
    ensures Strip(Strip(s)) == Strip(s)
  {
    LeftStripFirst(s);
    RightStripEnds(LeftStrip(s));
    StripFixed(Strip(s));
  }

  lemma TidiedText(s: string)
    ensures Strip(Lower(Strip(s))) == Lower(Strip(s)) && Lower(Lower(Strip(s))) == Lower(Strip(s))
    ensures Lower(Strip(s)) == "" <==> Strip(s) == ""
  {
    LeftStripFirst(s);
    RightStripEnds(LeftStrip(s));
    StripFixed(Lower(Strip(s)));
  }

  lemma NoDigestHasPrefix(s: string)
    requires StartsWith(s, "sha256:")
    ensures !IsLowerHex(s)
  {
    assert s[0] == 's';
  }

  /**
   The verdict on a review does not depend on letter case, outer white space or the prefix of the
   digest: tidying changes it exactly where the reference carries the prefix twice.
   */
  lemma ReviewTidied(r: Review, o: Outside)
    ensures ReviewApproved(r, o) <==>
      ReviewApproved(Tidied(r), o) && !StartsWith(Tidied(r).reference, "sha256:")
  {
    TidiedText(r.author);
    TidiedText(r.reviewer);
    StripUpperIdempotent(r.status);
    StripTwice(r.reviewedAt);
    TidiedText(RemovePrefix(Strip(r.reference), "sha256:"));
    hide Strip, Upper, Lower, StartsWith, IsLowerHex;
    if StartsWith(Tidied(r).reference, "sha256:") { NoDigestHasPrefix(Tidied(r).reference); }
  }

  /** An upstream report, with its own canonical digest. */
  datatype Upstream = Upstream(gate: string, result: string, commitSha: string, digest: string)

  predicate UpstreamAccepted(u: Upstream, gate: string, expectedDigest: string, commit: string) {
    && ValidGitCommitSha(commit)
    && u.gate == gate
    && Upper(u.result) == "PASSED"
    && Lower(Strip(u.commitSha)) == Lower(Strip(commit))
    && ValidSha256(expectedDigest) && Lower(expectedDigest) == u.digest
  }

  method ValidateUpstream(u: Upstream, gate: string, expectedDigest: string, commit: string)
    returns (violations: seq<string>)
    ensures violations == [] <==> UpstreamAccepted(u, gate, expectedDigest, commit)
  {
    violations := [];
    if !ValidGitCommitSha(commit) { violations := violations + ["exact_commit_identity"]; }
    if u.gate != gate { violations := violations + ["compatible_upstream_gate"]; }
    if Upper(u.result) != "PASSED" { violations := violations + ["compatible_upstream_gate"]; }
    if Lower(Strip(u.commitSha)) != Lower(Strip(commit)) { violations := violations + ["compatible_upstream_gate"]; }
    if !ValidSha256(expectedDigest) || Lower(expectedDigest) != u.digest {
      violations := violations + ["compatible_upstream_gate"];
    }
  }

  function Stripped(dates: seq<string>): seq<string> {
    seq(|dates|, i requires 0 <= i < |dates| => Strip(dates[i]))
  }

  /** A canonical ISO date of a trading day. */
  predicate SessionDay(text: string, o: Outside) {
    var day := o.parseDate(text);
    day.Some? && o.isoFormat(day.value) == text && o.isTradingDay(day.value)
  }

  function DayOf(text: string, o: Outside): int {
    var day := o.parseDate(text);
    if day.Some? then day.value else 0
  }

  /** How many session dates a gate wants, and whether they follow each other without a gap. */
  datatype DateRule = DateRule(count: int, consecutive: bool, exact: bool)

  predicate CountAccepted(n: nat, rule: DateRule) {
    if rule.exact then n == rule.count else n >= rule.count
  }

  /** Trading days in canonical form, strictly increasing, as many as wanted, without a gap where that is wanted. */
  ghost predicate DatesAccepted(dates: seq<string>, rule: DateRule, o: Outside) {
    && CountAccepted(|dates|, rule)
    && (forall i :: 0 <= i < |dates| ==> SessionDay(Strip(dates[i]), o))
    && (forall i, j :: 0 <= i < j < |dates| ==> DayOf(Strip(dates[i]), o) < DayOf(Strip(dates[j]), o))
    && (rule.consecutive ==> forall i, j :: 0 <= i && j == i + 1 && j < |dates| ==>
          DayOf(Strip(dates[j]), o) == o.nextTradingDay(DayOf(Strip(dates[i]), o) + 1))
  }

  ghost predicate SessionDatesAccepted(dates: seq<string>, count: int, o: Outside) {
    DatesAccepted(dates, DateRule(count, false, false), o)
  }

  /** The days of a list of texts that are all session days. */
  function Days(raw: seq<string>, o: Outside): seq<int> {
    seq(|raw|, i requires 0 <= i < |raw| => DayOf(raw[i], o))
  }

  predicate Gapless(days: seq<int>, o: Outside) {
    forall i :: 0 <= i && i + 1 < |days| ==> days[i + 1] == o.nextTradingDay(days[i] + 1)
  }

  lemma AcceptedAreSessionDays(dates: seq<string>, raw: seq<string>, rule: DateRule, o: Outside)
    requires raw == Stripped(dates) && DatesAccepted(dates, rule, o)
    ensures CountAccepted(|raw|, rule) && Distinct(raw) && forall i :: 0 <= i < |raw| ==> SessionDay(raw[i], o)
  {
    hide Strip, SessionDay;
    assert forall i :: 0 <= i < |raw| ==> raw[i] == Strip(dates[i]);
  }

  /** Distinct session days in order are increasing, since a day has one canonical text. */
  lemma DatesAcceptedIff(dates: seq<string>, raw: seq<string>, rule: DateRule, o: Outside)
    requires raw == Stripped(dates) && forall i :: 0 <= i < |raw| ==> SessionDay(raw[i], o)
    requires CountAccepted(|raw|, rule) && Distinct(raw)
    ensures DatesAccepted(dates, rule, o) <==>
      Increasing(Days(raw, o)) && (rule.consecutive ==> Gapless(Days(raw, o), o))
  {
    hide Strip;
    var days := Days(raw, o);
    assert forall i :: 0 <= i < |raw| ==> raw[i] == Strip(dates[i]) && days[i] == DayOf(raw[i], o);
    if Increasing(days) {
      forall i, j | 0 <= i < j < |raw| ensures days[i] < days[j] {
        assert o.isoFormat(days[i]) == raw[i] && o.isoFormat(days[j]) == raw[j];
      }
    }
  }

  /** `parsed == sorted(parsed)`. */
  predicate Increasing(days: seq<int>) {
    forall i, j :: 0 <= i < j < |days| ==> days[i] <= days[j]
  }

  /** `len(set(raw)) == len(raw)`. */
  predicate AllDistinct(s: seq<string>)
    ensures AllDistinct(s) <==> Distinct(s)
  {
    forall i :: 0 <= i < |s| ==> forall j :: i < j < |s| ==> s[i] != s[j]
  }

  method ParseDates(raw: seq<string>, o: Outside) returns (parsed: Option<seq<int>>)
    ensures parsed.Some? <==> forall i :: 0 <= i < |raw| ==> SessionDay(raw[i], o)
    ensures parsed.Some? ==> parsed.value == Days(raw, o)
  {
    var days: seq<int> := [];
    for i := 0 to |raw|
      invariant days == Days(raw[..i], o) && forall j :: 0 <= j < i ==> SessionDay(raw[j], o)
    {
      var day := o.parseDate(raw[i]);
      if day.None? { return None; }
      if raw[i] != o.isoFormat(day.value) || !o.isTradingDay(day.value) { return None; }
      days := days + [day.value];
    }
    assert raw[..|raw|] == raw;
    return Some(days);
  }

  method CheckGapless(days: seq<int>, o: Outside) returns (ok: bool)
    ensures ok <==> Gapless(days, o)
  {
    var i := 0;
    while i + 1 < |days|
      invariant 0 <= i && forall j :: 0 <= j < i && j + 1 < |days| ==> days[j + 1] == o.nextTradingDay(days[j] + 1)
    {
      if days[i + 1] != o.nextTradingDay(days[i] + 1) { return false; }
      i := i + 1;
    }
    return true;
  }

  /** `validate_nyse_session_dates`. */
  method ValidateSessionDates(dates: seq<string>, rule: DateRule, o: Outside) returns (violations: seq<string>)
    ensures violations == [] <==> DatesAccepted(dates, rule, o)
  {
    var name := if rule.consecutive then "five_consecutive_sessions" else "supervised_session_count";
    var raw := Stripped(dates);
    if DatesAccepted(dates, rule, o) { AcceptedAreSessionDays(dates, raw, rule, o); }
    hide DatesAccepted, Stripped, SessionDay, Days, Gapless, Increasing, Distinct;
    if !CountAccepted(|raw|, rule) || !AllDistinct(raw) { return [name]; }
    var parsed := ParseDates(raw, o);
    if parsed.None? { return [name]; }
    DatesAcceptedIff(dates, raw, rule, o);
    if !Increasing(parsed.value) { return [name]; }
    if rule.consecutive {
      var gapless := CheckGapless(parsed.value, o);
      if !gapless { return [name]; }
    }
    return [];
  }

  lemma SortedFixedPoint(s: seq<string>)
    ensures s == SortBy(LexLeq, s) <==> SortedBy(LexLeq, s)
  {
    LexIsTotalOrder();
    hide TotalOrder;
    SortBySorts(LexLeq, s);
    if SortedBy(LexLeq, s) { SortedIsUnique(LexLeq, s, SortBy(LexLeq, s)); }
  }

  // ---------------------------------------------------------------- the rules written out

  /** Without case and outer white space, n hexadecimal digits. */
  ghost predicate Hex(value: string, n: nat) {
    var x := Lower(Strip(value));
    |x| == n && forall i :: 0 <= i < n ==> '0' <= x[i] <= '9' || 'a' <= x[i] <= 'f'
  }

  ghost function Bare(reference: string): string {
    if |reference| >= 7 && reference[..7] == "sha256:" then reference[7..] else reference
  }

  /** Approved, at a stated time, by a named reviewer who is not the author, for a digest. */
  ghost predicate Reviewed(r: Review, o: Outside) {
    && Upper(Strip(r.status)) == "APPROVED"
    && Strip(r.author) != "" && Strip(r.reviewer) != "" && Lower(Strip(r.author)) != Lower(Strip(r.reviewer))
    && o.isAwareTimestamp(Strip(r.reviewedAt)) && Hex(Bare(Strip(r.reference)), 64)
  }

  /** A canonical date of a trading day. */
  ghost predicate TradingDate(d: string, o: Outside) {
    && o.parseDate(Strip(d)).Some?
    && o.isoFormat(o.parseDate(Strip(d)).value) == Strip(d) && o.isTradingDay(o.parseDate(Strip(d)).value)
  }

  ghost predicate InTime(d: string, d': string, o: Outside) {
    && o.parseDate(Strip(d)).Some? && o.parseDate(Strip(d')).Some?
    && o.parseDate(Strip(d)).value < o.parseDate(Strip(d')).value
  }

  lemma HexIff(value: string)
    ensures ValidSha256(value) <==> Hex(value, 64)
    ensures ValidGitCommitSha(value) <==> Hex(value, 40) || Hex(value, 64)
  {
    hide Strip, Lower;
  }

  lemma BareIff(reference: string)
    ensures Bare(reference) == RemovePrefix(reference, "sha256:")
  {
  }

  lemma ReviewedIff(r: Review, o: Outside)
    ensures ReviewApproved(r, o) <==> Reviewed(r, o)
  {
    BareIff(Strip(r.reference));
    HexIff(Bare(Strip(r.reference)));
    hide Strip, Lower, Upper, Hex, Bare, RemovePrefix, ValidSha256;
  }

  lemma TradingDatesIff(dates: seq<string>, n: int, o: Outside)
    ensures SessionDatesAccepted(dates, n, o) <==>
      && |dates| >= n
      && (forall i :: 0 <= i < |dates| ==> TradingDate(dates[i], o))
      && forall i, j :: 0 <= i < j < |dates| ==> InTime(dates[i], dates[j], o)
  {
    hide Strip;
    if SessionDatesAccepted(dates, n, o) {
      assert forall i :: 0 <= i < |dates| ==> SessionDay(Strip(dates[i]), o);
    } else if forall i :: 0 <= i < |dates| ==> TradingDate(dates[i], o) {
      assert forall i :: 0 <= i < |dates| ==> SessionDay(Strip(dates[i]), o);
    }
  }
}
