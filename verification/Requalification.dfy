/** Which changed paths may preserve qualification evidence (activation_gates/requalification.py). */
module Requalification {
  import opened Ordering
  import opened Text

  const EVIDENCE_ONLY_PREFIXES :=
    [".github/", "docs/", "tests/", "gate2/", "gate3/", "gate5/", "activation_gates/"]

  const EVIDENCE_ONLY_FILES := {
    "gate4/collector.py",
    "gate4/reporting.py",
    "gate4/runner.py",
    "scripts/" + "build_gate4_requalification_manifest.py",
    "scripts/check_gate2_readiness.py",
    "scripts/manage_gate2_session.py",
    "scripts/manage_gate4_session.py",
    "scripts/build_qualification_carryforward.py",
    "scripts/run_gate1.py",
    "scripts/run_gate2_soak.py",
    "scripts/run_gate3_shadow.py",
    "scripts/validate_activation_gate.py",
    "scripts/validate_activation_promotion.py"
  }

  const STATIC_SUFFIXES := [".css", ".ico", ".jpg", ".jpeg", ".png", ".webp"]
  const STATIC_PREFIXES := ["src/web/static/", "src/ui/assets/"]
  const REVIEW_PREFIXES := ["src/ui/", "src/web/static/"]
  const REVIEW_SUFFIXES := [".html", ".js", ".py", ".svg"]

  const BEHAVIOR_INVARIANTS := {
    "no_execution_command_target_change",
    "no_command_payload_change",
    "no_enablement_or_permission_change",
    "no_confirmation_or_safety_interlock_change",
    "no_quantity_price_risk_or_default_change",
    "no_persistence_or_runtime_state_change",
    "no_operator_control_or_lease_change",
    "no_execution_state_interpretation_change",
    "no_dependency_or_configuration_change"
  }

  // ---------------------------------------------------------------- normal paths

  /** `replace("\\", "/")`. */
  function Slashed(s: string): (r: string)
    ensures |r| == |s| && '\\' !in r
    ensures '\\' !in s ==> r == s
  {
    seq(|s|, i requires 0 <= i < |s| => if s[i] == '\\' then '/' else s[i])
  }

  function CleanPath(path: string): string { Slashed(Strip(path)) }

  /** White space, back-slashes and one leading `./` are removed. */
  function NormalPath(path: string): string { RemovePrefix(CleanPath(path), "./") }

  predicate Usable(path: string) { path != "" && ".." !in Split(path, '/') }

  /** Cut at its slashes, a usable path has no part that leads up; and it is not empty. */
  lemma UsableMeans(path: string, parts: seq<string>)
    requires parts != [] && (forall i :: 0 <= i < |parts| ==> '/' !in parts[i]) && Join(parts, '/') == path
    ensures Usable(path) <==> |path| > 0 && forall i :: 0 <= i < |parts| ==> parts[i] != ".."
  {
    SplitJoin(parts, '/');
  }

  function UsablePaths(paths: seq<string>): seq<string> {
    if paths == [] then []
    else (if Usable(NormalPath(paths[0])) then [NormalPath(paths[0])] else []) + UsablePaths(paths[1..])
  }

  /** `normalized_changed_paths`. */
  function NormalizedPaths(paths: seq<string>): seq<string> { SortUnique(UsablePaths(paths)) }

  lemma {:induction false} UsablePathsMembers(paths: seq<string>)
    ensures forall p :: p in UsablePaths(paths) <==> Usable(p) && exists q :: q in paths && NormalPath(q) == p
  {
    if paths != [] {
      var first, rest := paths[0], paths[1..];
      hide NormalPath, Usable;
      UsablePathsMembers(rest);
      forall p ensures p in UsablePaths(paths) <==> Usable(p) && exists q :: q in paths && NormalPath(q) == p {
        if Usable(p) && exists q :: q in paths && NormalPath(q) == p {
          var q :| q in paths && NormalPath(q) == p;
          assert q == first || q in rest;
        }
        if p in UsablePaths(rest) {
          var q :| q in rest && NormalPath(q) == p;
          assert q in paths;
        }
        assert first in paths;
      }
    }
  }

  /** The result lists, in order and without repetition, the usable normal forms. */
  lemma NormalizedPathsMeans(paths: seq<string>)
    ensures StrictlySorted(NormalizedPaths(paths))
    ensures forall p :: p in NormalizedPaths(paths) <==> Usable(p) && exists q :: q in paths && NormalPath(q) == p
  {
    hide NormalPath, Usable, StrictlySorted;
    UsablePathsMembers(paths);
    SortUniqueSorts(UsablePaths(paths));
  }

  /** Paths as Git prints them: usable, without back-slash, outer white space or leading `./`. */
  predicate Settled(path: string) {
    && Usable(path)
    && '\\' !in path && !IsSpace(path[0]) && !IsSpace(path[|path| - 1])
    && !StartsWith(path, "./")
  }

  lemma NormalPathShrinks(path: string)
    ensures |NormalPath(path)| <= |path| && '\\' !in NormalPath(path)
    ensures |NormalPath(path)| == |path| ==>
      CleanPath(path) == NormalPath(path) && (NormalPath(path) == path || '\\' in path)
  {
    StripLength(path);
  }

  lemma StripLength(s: string)
    ensures |Strip(s)| <= |s| && (|Strip(s)| == |s| ==> Strip(s) == s)
  {
    LeftStripLength(s);
    RightStripLength(LeftStrip(s));
  }

  lemma {:induction false} LeftStripLength(s: string)
    ensures |LeftStrip(s)| <= |s| && (|LeftStrip(s)| == |s| ==> LeftStrip(s) == s)
  {
    if s != [] { LeftStripLength(s[1..]); }
  }

  lemma {:induction false} RightStripLength(s: string)
    ensures |RightStrip(s)| <= |s| && (|RightStrip(s)| == |s| ==> RightStrip(s) == s)
  {
    if s != [] { RightStripLength(s[..|s| - 1]); }
  }

  function Longest(paths: seq<string>): (n: nat)
    ensures forall p :: p in paths ==> |p| <= n
  {
    if paths == [] then 0
    else
      var rest := Longest(paths[1..]);
      assert forall p :: p in paths ==> p == paths[0] || p in paths[1..];
      if |paths[0]| > rest then |paths[0]| else rest
  }

  lemma Preimage(paths: seq<string>, p: string) returns (q: string)
    requires NormalizedPaths(paths) == paths && p in paths
    ensures q in paths && NormalPath(q) == p && Usable(p) && '\\' !in p
  {
    NormalizedPathsMeans(paths);
    hide NormalPath, Usable, NormalizedPaths;
    q :| q in paths && NormalPath(q) == p;
    NormalPathShrinks(q);
  }

  /** An unsettled path of a list that normalises to itself would come from a longer unsettled one. */
  lemma {:induction false} NoneUnsettled(paths: seq<string>, p: string)
    requires NormalizedPaths(paths) == paths && p in paths
    ensures Settled(p)
    decreases Longest(paths) - |p|
  {
    hide NormalPath, Usable, NormalizedPaths, Settled;
    var q := Preimage(paths, p);
    if q != p {
      var x := Preimage(paths, q);
      NormalPathShrinks(q);
      NoneUnsettled(paths, q);
      SettledIsFixed(q);
    } else {
      FixedIsSettled(p);
    }
  }

  lemma SettledIsFixed(p: string)
    requires Settled(p)
    ensures NormalPath(p) == p
  {
    StripFixed(p);
  }

  lemma FixedIsSettled(p: string)
    requires NormalPath(p) == p && Usable(p)
    ensures Settled(p)
  {
    NormalPathShrinks(p);
    StripLength(p);
    LeftStripFirst(p);
    RightStripEnds(LeftStrip(p));
    assert CleanPath(p) == p && Strip(p) == p;
    hide IsSpace, Usable;
  }

  /** The settled paths are exactly the usable ones that normalising leaves alone. */
  lemma SettledIff(p: string)
    ensures Settled(p) <==> Usable(p) && NormalPath(p) == p
  {
    if Settled(p) { SettledIsFixed(p); } else if Usable(p) && NormalPath(p) == p { FixedIsSettled(p); }
  }

  /** Normalising twice is normalising once exactly where every path is settled. */
  lemma IdempotentIffSettled(paths: seq<string>)
    requires StrictlySorted(paths)
    ensures NormalizedPaths(paths) == paths <==> forall p :: p in paths ==> Settled(p)
  {
    if NormalizedPaths(paths) == paths {
      forall p | p in paths ensures Settled(p) { NoneUnsettled(paths, p); }
    }
    if forall p :: p in paths ==> Settled(p) {
      NormalizedPathsMeans(paths);
      forall p ensures p in NormalizedPaths(paths) <==> p in paths { SettledMember(paths, p); }
      StrictlySortedIsUnique(NormalizedPaths(paths), paths);
    }
  }

  lemma SettledMember(paths: seq<string>, p: string)
    requires forall q :: q in paths ==> Settled(q)
    ensures p in NormalizedPaths(paths) <==> p in paths
  {
    NormalizedPathsMeans(paths);
    if p in paths { SettledIsFixed(p); }
    if p in NormalizedPaths(paths) {
      var q :| q in paths && NormalPath(q) == p;
      SettledIsFixed(q);
    }
  }

  /** Only one leading `./` is removed. */
  lemma NormalisingIsNotIdempotent()
    ensures NormalPath("././a") == "./a" && NormalPath("./a") == "a"
  {
    StripFixed("././a");
    StripFixed("./a");
  }

  /** A settled path is its own key in the review table. */
  lemma SettledIsClean(path: string)
    requires Settled(path)
    ensures CleanPath(path) == path
  {
    StripFixed(path);
  }

  // ---------------------------------------------------------------- the classifier

  predicate StartsWithAny(s: string, prefixes: seq<string>) {
    exists i :: 0 <= i < |prefixes| && StartsWith(s, prefixes[i])
  }

  predicate EndsWithAny(s: string, suffixes: seq<string>) {
    exists i :: 0 <= i < |suffixes| && EndsWith(s, suffixes[i])
  }

  predicate EvidenceOnlyPath(path: string) {
    path in EVIDENCE_ONLY_FILES || StartsWithAny(path, EVIDENCE_ONLY_PREFIXES)
  }

  predicate StaticPresentationPath(path: string) {
    StartsWithAny(Lower(path), STATIC_PREFIXES) && EndsWithAny(Lower(path), STATIC_SUFFIXES)
  }

  predicate ReviewablePath(path: string) {
    StartsWithAny(Lower(path), REVIEW_PREFIXES) && EndsWithAny(Lower(path), REVIEW_SUFFIXES)
  }

  /** The kind of a path that is already normal. */
  function KindOf(path: string): string {
    if EvidenceOnlyPath(path) then "EVIDENCE_ONLY"
    else if StaticPresentationPath(path) then "STATIC_PRESENTATION"
    else if ReviewablePath(path) then "REVIEWED_EXECUTABLE_UI"
    else "PRODUCTION_OR_UNKNOWN"
  }

  /** `presentation_path_kind`. */
  function PathKind(path: string): string {
    var normalized := NormalizedPaths([path]);
    if |normalized| != 1 then "PRODUCTION_OR_UNKNOWN" else KindOf(normalized[0])
  }

  /** `gate4_change_impact`. */
  function ChangeImpact(changed: seq<string>, reviewedPaths: seq<string>): string {
    var paths, reviewed := NormalizedPaths(changed), NormalizedPaths(reviewedPaths);
    if paths != [] && (forall i :: 0 <= i < |paths| ==> EvidenceOnlyPath(paths[i])) then "EVIDENCE_ONLY"
    else if paths != [] && (forall i :: 0 <= i < |paths| ==>
              EvidenceOnlyPath(paths[i]) || StaticPresentationPath(paths[i])
              || (paths[i] in reviewed && ReviewablePath(paths[i]))) then "PRESENTATION_ONLY"
    else "PRODUCTION_OR_UNKNOWN"
  }

  function RequiredSessions(impact: string): int {
    if Upper(impact) == "PRESENTATION_ONLY" then 0
    else if Upper(impact) == "EVIDENCE_ONLY" then 1
    else 3
  }

  /** The number of sessions does not depend on the letter case of the impact. */
  lemma AnyCase(impact: string)
    ensures RequiredSessions(impact) == RequiredSessions(Upper(impact)) == RequiredSessions(Lower(impact))
  {
    assert Upper(Upper(impact)) == Upper(impact) == Upper(Lower(impact));
  }

  /** On settled paths whose executable UI is all reviewed, one unknown path is enough to fail closed. */
  lemma ImpactFailsClosed(changed: seq<string>, reviewed: seq<string>)
    requires NormalizedPaths(changed) == changed && NormalizedPaths(reviewed) == reviewed && changed != []
    requires forall p :: p in reviewed <==> p in changed && PathKind(p) == "REVIEWED_EXECUTABLE_UI"
    ensures ChangeImpact(changed, reviewed) == "PRODUCTION_OR_UNKNOWN" <==>
      exists p :: p in changed && PathKind(p) == "PRODUCTION_OR_UNKNOWN"
    ensures ChangeImpact(changed, reviewed) == "EVIDENCE_ONLY" <==>
      forall p :: p in changed ==> PathKind(p) == "EVIDENCE_ONLY"
  {
    hide EvidenceOnlyPath, StaticPresentationPath, ReviewablePath, NormalizedPaths;
    forall p | p in changed ensures PathKind(p) == KindOf(p) {
      NoneUnsettled(changed, p);
      KindOfSettled(p);
    }
    hide PathKind;
    forall i | 0 <= i < |changed| ensures changed[i] in changed && PathKind(changed[i]) == KindOf(changed[i]) {}
  }

  lemma KindOfSettled(path: string)
    requires Settled(path)
    ensures PathKind(path) == KindOf(path)
  {
    SettledIsFixed(path);
    hide EvidenceOnlyPath, StaticPresentationPath, ReviewablePath, StrictlySorted, NormalPath;
    assert forall p :: p in [path] <==> p == path;
    assert UsablePaths([path]) == [path];
    assert SortUnique([path]) == [path];
  }

  // ---------------------------------------------------------------- the kinds written out

  /** Evidence tooling, documentation and tests. */
  ghost predicate Tooling(p: string) {
    || StartsWith(p, ".github/") || StartsWith(p, "docs/") || StartsWith(p, "tests/")
    || StartsWith(p, "gate2/") || StartsWith(p, "gate3/") || StartsWith(p, "gate5/")
    || StartsWith(p, "activation_gates/")
    || p == "gate4/collector.py" || p == "gate4/reporting.py" || p == "gate4/runner.py"
    || p == "scripts/" + "build_gate4_requalification_manifest.py"
    || p == "scripts/check_gate2_readiness.py" || p == "scripts/manage_gate2_session.py"
    || p == "scripts/manage_gate4_session.py" || p == "scripts/build_qualification_carryforward.py"
    || p == "scripts/run_gate1.py" || p == "scripts/run_gate2_soak.py" || p == "scripts/run_gate3_shadow.py"
    || p == "scripts/validate_activation_gate.py" || p == "scripts/validate_activation_promotion.py"
  }

  /** Style sheets and pictures of the two user interfaces. */
  ghost predicate StaticAsset(p: string) {
    var l := Lower(p);
    && (StartsWith(l, "src/web/static/") || StartsWith(l, "src/ui/assets/"))
    && (|| EndsWith(l, ".css") || EndsWith(l, ".ico") || EndsWith(l, ".jpg")
        || EndsWith(l, ".jpeg") || EndsWith(l, ".png") || EndsWith(l, ".webp"))
  }

  /** Code of the two user interfaces: nothing but its review can keep it from needing three sessions. */
  ghost predicate UiCode(p: string) {
    var l := Lower(p);
    && (StartsWith(l, "src/ui/") || StartsWith(l, "src/web/static/"))
    && (EndsWith(l, ".html") || EndsWith(l, ".js") || EndsWith(l, ".py") || EndsWith(l, ".svg"))
  }

  lemma EvidenceOnlyInText(p: string)
    ensures EvidenceOnlyPath(p) <==> Tooling(p)
  {
    var prefixes := EVIDENCE_ONLY_PREFIXES;
    hide StartsWith;
    assert StartsWithAny(p, prefixes) <==>
      || StartsWith(p, prefixes[0]) || StartsWith(p, prefixes[1]) || StartsWith(p, prefixes[2])
      || StartsWith(p, prefixes[3]) || StartsWith(p, prefixes[4]) || StartsWith(p, prefixes[5])
      || StartsWith(p, prefixes[6]);
  }

  lemma StaticInText(p: string)
    ensures StaticPresentationPath(p) <==> StaticAsset(p)
  {
    var l, prefixes, suffixes := Lower(p), STATIC_PREFIXES, STATIC_SUFFIXES;
    hide StartsWith, EndsWith, Lower;
    assert StartsWithAny(l, prefixes) <==> StartsWith(l, prefixes[0]) || StartsWith(l, prefixes[1]);
    assert EndsWithAny(l, suffixes) <==>
      || EndsWith(l, suffixes[0]) || EndsWith(l, suffixes[1]) || EndsWith(l, suffixes[2])
      || EndsWith(l, suffixes[3]) || EndsWith(l, suffixes[4]) || EndsWith(l, suffixes[5]);
  }

  lemma ReviewableInText(p: string)
    ensures ReviewablePath(p) <==> UiCode(p)
  {
    var l, prefixes, suffixes := Lower(p), REVIEW_PREFIXES, REVIEW_SUFFIXES;
    hide StartsWith, EndsWith, Lower;
    assert StartsWithAny(l, prefixes) <==> StartsWith(l, prefixes[0]) || StartsWith(l, prefixes[1]);
    assert EndsWithAny(l, suffixes) <==>
      EndsWith(l, suffixes[0]) || EndsWith(l, suffixes[1]) || EndsWith(l, suffixes[2]) || EndsWith(l, suffixes[3]);
  }

  lemma FirstCharacter(p: string, prefix: string)
    requires prefix != []
    ensures StartsWith(p, prefix) ==> p != [] && p[0] == prefix[0]
  {
    if StartsWith(p, prefix) { assert p[0] == p[..|prefix|][0]; }
  }

  lemma NoToolingPrefix(p: string)
    requires p != [] && (p[0] == 's' || p[0] == 'S')
    ensures !StartsWith(p, ".github/") && !StartsWith(p, "docs/") && !StartsWith(p, "tests/")
    ensures !StartsWith(p, "gate2/") && !StartsWith(p, "gate3/") && !StartsWith(p, "gate5/")
    ensures !StartsWith(p, "activation_gates/")
  {
    hide StartsWith;
    FirstCharacter(p, ".github/");
    FirstCharacter(p, "docs/");
    FirstCharacter(p, "tests/");
    FirstCharacter(p, "gate2/");
    FirstCharacter(p, "gate3/");
    FirstCharacter(p, "gate5/");
    FirstCharacter(p, "activation_gates/");
  }

  lemma NoToolingModule(p: string)
    requires |p| >= 2 && p[1] != 'a'
    ensures p != "gate4/collector.py" && p != "gate4/reporting.py" && p != "gate4/runner.py"
  {
  }

  lemma SecondCharacter(p: string, first: string, second: string)
    requires |p| >= 2 && |first| >= 2 && p[1] != first[1]
    ensures p != first + second
  {
  }

  lemma NoToolingScript(p: string)
    requires |p| >= 2 && p[1] != 'c'
    ensures p != "scripts/check_gate2_readiness.py" && p != "scripts/manage_gate2_session.py"
    ensures p != "scripts/manage_gate4_session.py" && p != "scripts/build_qualification_carryforward.py"
  {
  }

  lemma NoLaterScript(p: string)
    requires |p| >= 2 && p[1] != 'c'
    ensures p != "scripts/run_gate1.py" && p != "scripts/run_gate2_soak.py" && p != "scripts/run_gate3_shadow.py"
    ensures p != "scripts/validate_activation_gate.py" && p != "scripts/validate_activation_promotion.py"
  {
  }

  /** Nothing under `src/` is evidence tooling. */
  lemma SourceIsNotTooling(p: string)
    requires StartsWith(Lower(p), "src/")
    ensures !Tooling(p)
  {
    FirstTwo(p);
    NoToolingPrefix(p);
    NoToolingModule(p);
    NoToolingScript(p);
    SecondCharacter(p, "scripts/", "build_gate4_requalification_manifest.py");
    NoLaterScript(p);
    hide StartsWith, Lower;
  }

  lemma FirstTwo(p: string)
    requires StartsWith(Lower(p), "src/")
    ensures |p| >= 2 && (p[0] == 's' || p[0] == 'S') && (p[1] == 'r' || p[1] == 'R')
  {
    var l := Lower(p);
    assert l[0] == l[..4][0] && l[1] == l[..4][1];
    assert LowerChar(p[0]) == 's' && LowerChar(p[1]) == 'r';
  }

  lemma UiIsSource(l: string)
    ensures (StartsWith(l, "src/ui/") ==> StartsWith(l, "src/"))
    ensures (StartsWith(l, "src/ui/assets/") ==> StartsWith(l, "src/ui/"))
    ensures (StartsWith(l, "src/web/static/") ==> StartsWith(l, "src/"))
  {
    if StartsWith(l, "src/ui/") { assert l[..4] == l[..7][..4] == "src/"; }
    if StartsWith(l, "src/ui/assets/") { assert l[..7] == l[..14][..7] == "src/ui/"; }
    if StartsWith(l, "src/web/static/") { assert l[..4] == l[..15][..4] == "src/"; }
  }

  lemma LastTwo(l: string, suffix: string)
    requires |suffix| >= 2
    ensures EndsWith(l, suffix) ==> |l| >= 2 && l[|l| - 2..] == suffix[|suffix| - 2..]
  {
    if EndsWith(l, suffix) { assert l[|l| - 2..] == l[|l| - |suffix|..][|suffix| - 2..]; }
  }

  /** Text that ends like code or markup does not end like a picture or a style sheet. */
  lemma SuffixesDiffer(l: string)
    requires EndsWith(l, ".html") || EndsWith(l, ".js") || EndsWith(l, ".py") || EndsWith(l, ".svg")
    ensures !EndsWith(l, ".css") && !EndsWith(l, ".ico") && !EndsWith(l, ".jpg")
    ensures !EndsWith(l, ".jpeg") && !EndsWith(l, ".png") && !EndsWith(l, ".webp")
  {
    LastTwo(l, ".html");
    LastTwo(l, ".js");
    LastTwo(l, ".py");
    LastTwo(l, ".svg");
    LastTwo(l, ".css");
    LastTwo(l, ".ico");
    LastTwo(l, ".jpg");
    LastTwo(l, ".jpeg");
    LastTwo(l, ".png");
    LastTwo(l, ".webp");
    hide EndsWith;
  }

  lemma CodeIsNotStatic(p: string)
    ensures UiCode(p) ==> !StaticAsset(p)
  {
    if UiCode(p) { SuffixesDiffer(Lower(p)); }
    hide Lower, StartsWith, EndsWith;
  }

  lemma KindOfInText(p: string)
    ensures KindOf(p) == "EVIDENCE_ONLY" <==> Tooling(p)
    ensures KindOf(p) == "STATIC_PRESENTATION" <==> StaticAsset(p)
    ensures KindOf(p) == "REVIEWED_EXECUTABLE_UI" <==> UiCode(p)
    ensures KindOf(p) == "PRODUCTION_OR_UNKNOWN" <==> !Tooling(p) && !StaticAsset(p) && !UiCode(p)
  {
    EvidenceOnlyInText(p);
    StaticInText(p);
    ReviewableInText(p);
    UiIsSource(Lower(p));
    if StartsWith(Lower(p), "src/") { SourceIsNotTooling(p); }
    CodeIsNotStatic(p);
    hide EvidenceOnlyPath, StaticPresentationPath, ReviewablePath, Tooling, StartsWith, EndsWith, Lower;
  }

  lemma NormalizedSingle(path: string)
    ensures NormalizedPaths([path]) == if Usable(NormalPath(path)) then [NormalPath(path)] else []
  {
    hide NormalPath, Usable;
    assert UsablePaths([path]) == if Usable(NormalPath(path)) then [NormalPath(path)] else [];
    assert SortUnique([NormalPath(path)]) == [NormalPath(path)];
  }

  /**
   The kind of any path in its own text. The three lists exclude each other, so the order in which
   the classifier asks for them does not matter.
   */
  lemma KindInText(path: string)
    ensures var p := NormalPath(path);
      && (PathKind(path) == "EVIDENCE_ONLY" <==> Usable(p) && Tooling(p))
      && (PathKind(path) == "STATIC_PRESENTATION" <==> Usable(p) && StaticAsset(p))
      && (PathKind(path) == "REVIEWED_EXECUTABLE_UI" <==> Usable(p) && UiCode(p))
      && (PathKind(path) == "PRODUCTION_OR_UNKNOWN" <==>
            !Usable(p) || (!Tooling(p) && !StaticAsset(p) && !UiCode(p)))
  {
    NormalizedSingle(path);
    KindOfInText(NormalPath(path));
    hide KindOf, Tooling, StaticAsset, UiCode, NormalPath, Usable, NormalizedPaths;
  }

  lemma SessionsOf(impact: string)
    ensures impact == "EVIDENCE_ONLY" ==> RequiredSessions(impact) == 1
    ensures impact == "PRESENTATION_ONLY" ==> RequiredSessions(impact) == 0
    ensures impact == "PRODUCTION_OR_UNKNOWN" ==> RequiredSessions(impact) == 3
  {
    if impact == "EVIDENCE_ONLY" || impact == "PRESENTATION_ONLY" || impact == "PRODUCTION_OR_UNKNOWN" {
      UpperFixed(impact);
    }
  }

  /** A change that keeps the evidence: a static asset, tooling, or reviewed code of a user interface. */
  ghost predicate Harmless(p: string, reviewed: seq<string>) {
    Tooling(p) || StaticAsset(p) || (UiCode(p) && p in reviewed)
  }

  /** One session if there are paths and all are tooling, none if they are harmless otherwise, and else three. */
  ghost function SessionsByText(changed: seq<string>, reviewedPaths: seq<string>): int {
    var paths, reviewed := NormalizedPaths(changed), NormalizedPaths(reviewedPaths);
    if paths == [] || exists p :: p in paths && !Harmless(p, reviewed) then 3
    else if forall p :: p in paths ==> Tooling(p) then 1
    else 0
  }

  /** The sessions and the impact of any list of changed paths, read off the text of the paths. */
  lemma SessionsInText(changed: seq<string>, reviewedPaths: seq<string>)
    ensures var n := SessionsByText(changed, reviewedPaths);
      && RequiredSessions(ChangeImpact(changed, reviewedPaths)) == n
      && ChangeImpact(changed, reviewedPaths) ==
         if n == 0 then "PRESENTATION_ONLY" else if n == 1 then "EVIDENCE_ONLY" else "PRODUCTION_OR_UNKNOWN"
  {
    var paths, reviewed := NormalizedPaths(changed), NormalizedPaths(reviewedPaths);
    forall p
      ensures EvidenceOnlyPath(p) <==> Tooling(p)
      ensures EvidenceOnlyPath(p) || StaticPresentationPath(p) || (p in reviewed && ReviewablePath(p)) <==>
        Harmless(p, reviewed)
    {
      EvidenceOnlyInText(p);
      StaticInText(p);
      ReviewableInText(p);
    }
    SessionsOf(ChangeImpact(changed, reviewedPaths));
    hide EvidenceOnlyPath, StaticPresentationPath, ReviewablePath, Tooling, Harmless, RequiredSessions, NormalizedPaths;
    assert forall i :: 0 <= i < |paths| ==> paths[i] in paths;
  }

  /** One changed path of code or markup that is not tooling and not reviewed asks for three sessions. */
  lemma UnreviewedCodeNeedsThree(changed: seq<string>, reviewedPaths: seq<string>, p: string)
    requires p in NormalizedPaths(changed) && p !in NormalizedPaths(reviewedPaths) && !Tooling(p)
    requires EndsWith(Lower(p), ".html") || EndsWith(Lower(p), ".js")
             || EndsWith(Lower(p), ".py") || EndsWith(Lower(p), ".svg")
    ensures RequiredSessions(ChangeImpact(changed, reviewedPaths)) == 3
  {
    SessionsInText(changed, reviewedPaths);
    SuffixesDiffer(Lower(p));
    hide Tooling, UiCode, Lower, EndsWith, StartsWith, RequiredSessions, ChangeImpact, NormalizedPaths;
    assert !Harmless(p, NormalizedPaths(reviewedPaths));
  }

  /** One changed path under `src/`, but under neither user interface, asks for three sessions, reviewed or not. */
  lemma SourceNeedsThree(changed: seq<string>, reviewedPaths: seq<string>, p: string)
    requires p in NormalizedPaths(changed) && StartsWith(Lower(p), "src/")
    requires !StartsWith(Lower(p), "src/ui/") && !StartsWith(Lower(p), "src/web/static/")
    ensures RequiredSessions(ChangeImpact(changed, reviewedPaths)) == 3
    ensures Settled(p) ==> PathKind(p) == "PRODUCTION_OR_UNKNOWN"
  {
    hide Tooling, Lower, EndsWith, StartsWith, RequiredSessions, ChangeImpact, NormalizedPaths, PathKind, NormalPath,
         Usable;
    SessionsInText(changed, reviewedPaths);
    SourceIsNotTooling(p);
    UiIsSource(Lower(p));
    KindInText(p);
    if Settled(p) { SettledIsFixed(p); }
    assert !Harmless(p, NormalizedPaths(reviewedPaths));
  }

  lemma JoinFirst(part: string, rest: seq<string>)
    requires rest != []
    ensures Join([part] + rest, '/') == part + "/" + Join(rest, '/')
  {
    assert ([part] + rest)[1..] == rest;
  }

  lemma StaticText()
    ensures Join(["static", "app.js"], '/') == "static/app.js"
  {
    JoinFirst("static", ["app.js"]);
    assert Join(["app.js"], '/') == "app.js";
    hide Join;
    assert ["static"] + ["app.js"] == ["static", "app.js"];
  }

  lemma WebText()
    ensures Join(["web", "static", "app.js"], '/') == "web/static/app.js"
  {
    StaticText();
    JoinFirst("web", ["static", "app.js"]);
    hide Join;
    assert ["web"] + ["static", "app.js"] == ["web", "static", "app.js"];
  }

  lemma ScriptText()
    ensures Join(["src", "web", "static", "app.js"], '/') == "src/web/static/app.js"
  {
    WebText();
    JoinFirst("src", ["web", "static", "app.js"]);
    hide Join;
    assert ["src"] + ["web", "static", "app.js"] == ["src", "web", "static", "app.js"];
  }

  lemma ScriptParts()
    ensures Split("src/web/static/app.js", '/') == ["src", "web", "static", "app.js"]
  {
    ScriptText();
    hide Split, Join;
    SplitJoin(["src", "web", "static", "app.js"], '/');
  }

  lemma ScriptIsSettled()
    ensures Settled("src/web/static/app.js")
  {
    ScriptParts();
    hide Split;
    assert forall k :: 0 <= k < 4 ==> ["src", "web", "static", "app.js"][k] != "..";
  }

  lemma ScriptIsCode()
    ensures UiCode("src/web/static/app.js")
  {
    var p := "src/web/static/app.js";
    assert Lower(p) == p;
    assert p[..15] == "src/web/static/";
    assert p[18..] == ".js";
  }

  /** A script of the web interface, changed without review. */
  lemma ScriptNeedsThree()
    ensures PathKind("src/web/static/app.js") == "REVIEWED_EXECUTABLE_UI"
    ensures RequiredSessions(ChangeImpact(["src/web/static/app.js"], [])) == 3
  {
    var p := "src/web/static/app.js";
    ScriptIsSettled();
    ScriptIsCode();
    SettledIsFixed(p);
    NormalizedSingle(p);
    KindInText(p);
    SessionsInText([p], []);
    KindOfInText(p);
    hide Tooling, StaticAsset, UiCode, PathKind, KindOf, NormalPath, Settled, RequiredSessions, ChangeImpact;
    assert NormalizedPaths([]) == [];
    assert !Harmless(p, []);
  }

  ghost predicate Asserted(invariants: map<string, bool>, name: string) {
    name in invariants && invariants[name]
  }

  /** The nine things a change of the presentation alone must assert. */
  ghost predicate NineAsserted(invariants: map<string, bool>) {
    && Asserted(invariants, "no_execution_command_target_change")
    && Asserted(invariants, "no_command_payload_change")
    && Asserted(invariants, "no_enablement_or_permission_change")
    && Asserted(invariants, "no_confirmation_or_safety_interlock_change")
    && Asserted(invariants, "no_quantity_price_risk_or_default_change")
    && Asserted(invariants, "no_persistence_or_runtime_state_change")
    && Asserted(invariants, "no_operator_control_or_lease_change")
    && Asserted(invariants, "no_execution_state_interpretation_change")
    && Asserted(invariants, "no_dependency_or_configuration_change")
  }

  lemma NineInvariants(invariants: map<string, bool>)
    ensures (forall name :: name in BEHAVIOR_INVARIANTS ==> name in invariants && invariants[name])
            <==> NineAsserted(invariants)
  {
    assert NineAsserted(invariants) <==> forall name :: name in BEHAVIOR_INVARIANTS ==> Asserted(invariants, name);
  }
}
