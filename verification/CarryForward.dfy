/**
 Qualification carry-forward (activation_gates/carryforward.py): a manifest of the exact Git
 difference is built, reviewed and approved, and then carries Gate-2 and Gate-3 evidence to
 the target commit. Git, the reports' other fields and the digests are abstract.
 */
module CarryForward {
  import opened Common
  import opened Ordering
  import opened Text
  import opened Gate4Evidence
  import opened EvidenceRules
  import opened Requalification

  const CARRY_FORWARD_GATE := "EXECUTION_QUALIFICATION_CARRY_FORWARD"

  datatype Gate1Report = Gate1Report(
    gate: string, result: string, commitSha: string, pytestExitCode: Option<int>,
    identityCommit: string, worktreeClean: bool, matrix: seq<(string, string)>, rest: string)

  datatype Gate2Report = Gate2Report(gate: string, result: string, commitSha: string, rest: string)

  datatype Gate3Report = Gate3Report(
    gate: string, result: string, commitSha: string, gate2Sha: string, rest: string)

  datatype Reports = Reports(gate1: Gate1Report, gate2: Gate2Report, gate3: Gate3Report)

  /** What Git prints for a difference between two commits. */
  datatype RawDiff = RawDiff(
    names: seq<string>, treeText: string, fullPatch: string,
    sourceFile: string -> Option<string>, targetFile: string -> Option<string>, patch: string -> string)

  type Git = (string, string) -> Result<RawDiff, string>

  datatype FileChange = FileChange(
    path: string, kind: string, sourceSha: Option<string>, targetSha: Option<string>, patchSha: string)

  datatype GitEvidence = GitEvidence(
    treeSha: string, diffSha: string, changedPaths: seq<string>, fileChanges: seq<FileChange>)

  datatype FileReview = FileReview(change: FileChange, rationale: string)

  /** Everything the review covers: the manifest without the review and its digest. */
  datatype Subject = Subject(
    gate: string, sourceCommit: string, targetCommit: string, targetTree: string,
    gate2Sha: string, gate3Sha: string, gate1Sha: string, diffSha: string,
    changedPaths: seq<string>, fileReviews: seq<FileReview>, reviewedPaths: seq<string>,
    impact: string, requiredSessions: int, invariants: map<string, bool>, generatedAt: string)

  datatype Manifest = Manifest(subject: Subject, review: Review, subjectSha: string)

  datatype Hashes = Hashes(
    bytes: string -> string, gate1: Gate1Report -> string, gate2: Gate2Report -> string,
    gate3: Gate3Report -> string, subject: Subject -> string, manifest: Manifest -> string)

  predicate IsDigest(s: string) { |s| == 64 && IsLowerHex(s) }

  /** SHA-256 digests are printed as 64 lower-case hexadecimal digits. */
  ghost predicate Canonical(h: Hashes) {
    && (forall x :: IsDigest(h.bytes(x))) && (forall x :: IsDigest(h.gate1(x))) && (forall x :: IsDigest(h.gate2(x)))
    && (forall x :: IsDigest(h.gate3(x))) && (forall x :: IsDigest(h.subject(x)))
    && (forall x :: IsDigest(h.manifest(x)))
  }

  function Tidy(s: string): string { Lower(Strip(s)) }

  // ---------------------------------------------------------------- Git evidence

  function ChangeOf(path: string, raw: RawDiff, h: Hashes): FileChange {
    FileChange(
      path, PathKind(path),
      if raw.sourceFile(path).Some? then Some(h.bytes(raw.sourceFile(path).value)) else None,
      if raw.targetFile(path).Some? then Some(h.bytes(raw.targetFile(path).value)) else None,
      h.bytes(raw.patch(path)))
  }

  function ChangesOf(paths: seq<string>, raw: RawDiff, h: Hashes): seq<FileChange> {
    seq(|paths|, i requires 0 <= i < |paths| => ChangeOf(paths[i], raw, h))
  }

  function Collect(git: Git, source: string, target: string, h: Hashes): Result<GitEvidence, string> {
    if !ValidGitCommitSha(source) || !ValidGitCommitSha(target) then
      Err("source and target must be complete Git commit SHAs")
    else
      match git(Tidy(source), Tidy(target))
      case Err(e) => Err(e)
      case Ok(raw) =>
        var paths := NormalizedPaths(raw.names);
        if paths == [] || |paths| != |raw.names| then Err("Git diff must contain a non-empty, normalized path set")
        else Ok(GitEvidence(Tidy(raw.treeText), h.bytes(raw.fullPatch), paths, ChangesOf(paths, raw, h)))
  }

  /** Git evidence lists its paths in order, each with its own change. */
  ghost predicate EvidenceSound(e: GitEvidence) {
    && e.changedPaths != [] && StrictlySorted(e.changedPaths) && Tidy(e.treeSha) == e.treeSha
    && |e.fileChanges| == |e.changedPaths|
    && forall i :: 0 <= i < |e.fileChanges| ==>
      e.fileChanges[i].path == e.changedPaths[i] && e.fileChanges[i].kind == PathKind(e.changedPaths[i])
  }

  lemma CollectedIsSound(git: Git, source: string, target: string, h: Hashes)
    requires Canonical(h) && Collect(git, source, target, h).Ok?
    ensures EvidenceSound(Collect(git, source, target, h).value)
    ensures IsDigest(Collect(git, source, target, h).value.diffSha)
  {
    var raw := git(Tidy(source), Tidy(target)).value;
    StripLowerIdempotent(raw.treeText);
    hide StrictlySorted, Strip, Lower, NormalizedPaths, PathKind, ValidGitCommitSha, IsDigest;
    NormalizedPathsMeans(raw.names);
  }

  // ---------------------------------------------------------------- reports

  predicate SourceChainAccepted(r: Reports, h: Hashes) {
    && r.gate2.gate == "GATE_2_LIVE_KIS_READ_ONLY_SOAK" && Upper(r.gate2.result) == "PASSED"
    && r.gate3.gate == "GATE_3_SHADOW_EXECUTION" && Upper(r.gate3.result) == "PASSED"
    && ValidGitCommitSha(Tidy(r.gate3.commitSha)) && Tidy(r.gate2.commitSha) == Tidy(r.gate3.commitSha)
    && Tidy(r.gate3.gate2Sha) == h.gate2(r.gate2)
  }

  predicate MatrixCovers(matrix: seq<(string, string)>, version: string) {
    exists i :: 0 <= i < |matrix| && Upper(matrix[i].1) == "PASSED" && Strip(matrix[i].0) == version
  }

  predicate TargetAccepted(g: Gate1Report) {
    && g.gate == "GATE_1_DETERMINISTIC_SIMULATION" && Upper(g.result) == "PASSED"
    && g.pytestExitCode == Some(0) && ValidGitCommitSha(Tidy(g.commitSha))
    && g.identityCommit == Tidy(g.commitSha) && g.worktreeClean
    && MatrixCovers(g.matrix, "3.11") && MatrixCovers(g.matrix, "3.12")
  }

  method ValidateSourceChain(r: Reports, h: Hashes) returns (v: seq<string>, commit: string)
    ensures v == [] <==> SourceChainAccepted(r, h)
    ensures commit == Tidy(r.gate3.commitSha)
  {
    hide ValidGitCommitSha, Strip, Lower, Upper;
    commit := Tidy(r.gate3.commitSha);
    v := Require([], r.gate2.gate == "GATE_2_LIVE_KIS_READ_ONLY_SOAK" && Upper(r.gate2.result) == "PASSED",
                 "carry_forward_source");
    v := Require(v, r.gate3.gate == "GATE_3_SHADOW_EXECUTION" && Upper(r.gate3.result) == "PASSED",
                 "carry_forward_source");
    v := Require(v, ValidGitCommitSha(commit) && Tidy(r.gate2.commitSha) == commit, "carry_forward_source");
    v := Require(v, Tidy(r.gate3.gate2Sha) == h.gate2(r.gate2), "carry_forward_source");
  }

  /** The versions whose run passed. */
  method PassedVersions(matrix: seq<(string, string)>) returns (versions: set<string>)
    ensures forall version :: version in versions <==> MatrixCovers(matrix, version)
  {
    hide Strip, Upper;
    versions := {};
    for n := 0 to |matrix|
      invariant forall version :: version in versions <==> MatrixCovers(matrix[..n], version)
    {
      forall version
        ensures MatrixCovers(matrix[..n + 1], version) <==>
          MatrixCovers(matrix[..n], version) || (Upper(matrix[n].1) == "PASSED" && Strip(matrix[n].0) == version)
      {
        CoversOneMore(matrix[..n], matrix[n], version);
        assert matrix[..n + 1] == matrix[..n] + [matrix[n]];
      }
      if Upper(matrix[n].1) == "PASSED" { versions := versions + {Strip(matrix[n].0)}; }
    }
    assert matrix[..|matrix|] == matrix;
  }

  lemma CoversOneMore(matrix: seq<(string, string)>, run: (string, string), version: string)
    ensures MatrixCovers(matrix + [run], version) <==>
      MatrixCovers(matrix, version) || (Upper(run.1) == "PASSED" && Strip(run.0) == version)
  {
    hide Strip, Upper;
    var all := matrix + [run];
    assert all[|matrix|] == run;
    if i :| 0 <= i < |matrix| && Upper(matrix[i].1) == "PASSED" && Strip(matrix[i].0) == version {
      assert all[i] == matrix[i];
    }
  }

  method ValidateTargetGate1(g: Gate1Report) returns (v: seq<string>, commit: string)
    ensures v == [] <==> TargetAccepted(g)
    ensures commit == Tidy(g.commitSha)
  {
    hide ValidGitCommitSha, Strip, Lower, Upper, MatrixCovers;
    commit := Tidy(g.commitSha);
    v := Require([], g.gate == "GATE_1_DETERMINISTIC_SIMULATION" && Upper(g.result) == "PASSED"
                 && g.pytestExitCode == Some(0) && ValidGitCommitSha(commit), "carry_forward_target_gate1");
    v := Require(v, g.identityCommit == commit && g.worktreeClean, "carry_forward_target_gate1");
    var versions := PassedVersions(g.matrix);
    v := Require(v, {"3.11", "3.12"} <= versions, "carry_forward_target_gate1");
  }

  // ---------------------------------------------------------------- building

  function ReviewedOf(changes: seq<FileChange>): seq<string> {
    if changes == [] then []
    else
      var last := changes[|changes| - 1];
      ReviewedOf(changes[..|changes| - 1]) + if last.kind == "REVIEWED_EXECUTABLE_UI" then [last.path] else []
  }

  function RationaleFor(kind: string): string {
    if kind == "REVIEWED_EXECUTABLE_UI" then "Exact patch requires independent UI behavior review."
    else "Path is mechanically scoped by the fail-closed classifier."
  }

  function DraftReviews(changes: seq<FileChange>): seq<FileReview> {
    seq(|changes|, i requires 0 <= i < |changes| => FileReview(changes[i], RationaleFor(changes[i].kind)))
  }

  function DraftSubject(r: Reports, e: GitEvidence, h: Hashes, now: string): Subject {
    var reviewed := ReviewedOf(e.fileChanges);
    var impact := ChangeImpact(e.changedPaths, reviewed);
    Subject(
      CARRY_FORWARD_GATE, Tidy(r.gate3.commitSha), Tidy(r.gate1.commitSha), e.treeSha,
      h.gate2(r.gate2), h.gate3(r.gate3), h.gate1(r.gate1), e.diffSha,
      e.changedPaths, DraftReviews(e.fileChanges), reviewed,
      impact, RequiredSessions(impact), map name | name in BEHAVIOR_INVARIANTS :: false, now)
  }

  /** `build_change_manifest`: a pending manifest, or an error where anything upstream is refused. */
  method BuildManifest(r: Reports, git: Git, h: Hashes, now: string) returns (m: Result<Manifest, string>)
    ensures m.Ok? <==>
      && SourceChainAccepted(r, h) && TargetAccepted(r.gate1)
      && Collect(git, Tidy(r.gate3.commitSha), Tidy(r.gate1.commitSha), h).Ok?
    ensures m.Ok? ==>
      var e := Collect(git, Tidy(r.gate3.commitSha), Tidy(r.gate1.commitSha), h).value;
      && m.value.subject == DraftSubject(r, e, h, now)
      && m.value.subjectSha == h.subject(m.value.subject)
      && m.value.review.status == "PENDING" && m.value.review.reference == ""
  {
    hide SourceChainAccepted, TargetAccepted, Collect;
    var v, sourceCommit := ValidateSourceChain(r, h);
    var w, targetCommit := ValidateTargetGate1(r.gate1);
    if v != [] || w != [] { return Err("refused"); }
    match Collect(git, sourceCommit, targetCommit, h)
    case Err(e) => m := Err(e);
    case Ok(e) =>
      var subject := DraftSubject(r, e, h, now);
      var review := Review("qualification carry-forward manifest builder", "", "PENDING", "", "");
      m := Ok(Manifest(subject, review, h.subject(subject)));
  }

  // ---------------------------------------------------------------- validating

  function Key(r: FileReview): string { CleanPath(r.change.path) }

  predicate SameChange(r: FileReview, c: FileChange) {
    && r.change.kind == c.kind && r.change.sourceSha == c.sourceSha
    && r.change.targetSha == c.targetSha && r.change.patchSha == c.patchSha
  }

  predicate Explained(r: FileReview, c: FileChange) {
    c.kind == "REVIEWED_EXECUTABLE_UI" ==> Strip(r.rationale) != ""
  }

  /** Exactly one review for each change, and it agrees with the change. */
  ghost predicate ReviewsMatch(reviews: seq<FileReview>, changes: seq<FileChange>, rationale: bool) {
    && (forall i, j :: 0 <= i < j < |reviews| ==> Key(reviews[i]) != Key(reviews[j]))
    && (forall r :: r in reviews ==> exists c :: c in changes && c.path == Key(r))
    && (forall c :: c in changes ==> exists r ::
          r in reviews && Key(r) == c.path && SameChange(r, c) && (rationale ==> Explained(r, c)))
  }

  ghost predicate DiffMatches(s: Subject, e: GitEvidence) {
    && Tidy(s.targetTree) == e.treeSha && Tidy(s.diffSha) == e.diffSha
    && NormalizedPaths(s.changedPaths) == e.changedPaths
  }

  predicate IdentityMatches(s: Subject, r: Reports, h: Hashes) {
    && Tidy(s.sourceCommit) == Tidy(r.gate3.commitSha) && Tidy(s.targetCommit) == Tidy(r.gate1.commitSha)
    && Tidy(s.gate2Sha) == h.gate2(r.gate2) && Tidy(s.gate3Sha) == h.gate3(r.gate3)
    && Tidy(s.gate1Sha) == h.gate1(r.gate1)
  }

  function ImpactOf(s: Subject): string {
    ChangeImpact(NormalizedPaths(s.changedPaths), NormalizedPaths(s.reviewedPaths))
  }

  predicate ImpactAccepted(s: Subject) {
    && Upper(Strip(s.impact)) == ImpactOf(s)
    && ImpactOf(s) in {"EVIDENCE_ONLY", "PRESENTATION_ONLY"}
    && s.requiredSessions == RequiredSessions(ImpactOf(s))
    && (ImpactOf(s) == "PRESENTATION_ONLY" ==>
          forall name :: name in BEHAVIOR_INVARIANTS ==> name in s.invariants && s.invariants[name])
  }

  predicate ReviewBinds(m: Manifest, h: Hashes, o: Outside) {
    && Tidy(m.subjectSha) == h.subject(m.subject)
    && ReviewApproved(m.review, o)
    && Lower(RemovePrefix(m.review.reference, "sha256:")) == h.subject(m.subject)
  }

  ghost predicate GitMatches(m: Manifest, evidence: Result<GitEvidence, string>) {
    && evidence.Ok?
    && DiffMatches(m.subject, evidence.value)
    && ReviewsMatch(m.subject.fileReviews, evidence.value.fileChanges, true)
    && NormalizedPaths(m.subject.reviewedPaths) == SortBy(LexLeq, ReviewedOf(evidence.value.fileChanges))
  }

  ghost predicate ManifestAccepted(m: Manifest, r: Reports, git: Git, h: Hashes, o: Outside) {
    && SourceChainAccepted(r, h) && TargetAccepted(r.gate1)
    && m.subject.gate == CARRY_FORWARD_GATE && IdentityMatches(m.subject, r, h)
    && GitMatches(m, Collect(git, Tidy(r.gate3.commitSha), Tidy(r.gate1.commitSha), h))
    && ImpactAccepted(m.subject)
    && ReviewBinds(m, h, o)
  }

  predicate DistinctKeys(reviews: seq<FileReview>) {
    forall i, j :: 0 <= i < j < |reviews| ==> Key(reviews[i]) != Key(reviews[j])
  }

  /** Reviews by path; a repeated path is a violation. */
  method RecordReviews(reviews: seq<FileReview>) returns (byKey: map<string, FileReview>, v: seq<string>)
    ensures v == [] <==> DistinctKeys(reviews)
    ensures forall k :: k in byKey <==> exists i :: 0 <= i < |reviews| && Key(reviews[i]) == k
    ensures DistinctKeys(reviews) ==> forall i :: 0 <= i < |reviews| ==> byKey[Key(reviews[i])] == reviews[i]
  {
    hide CleanPath;
    byKey, v := map[], [];
    for n := 0 to |reviews|
      invariant v == [] <==> DistinctKeys(reviews[..n])
      invariant forall k :: k in byKey <==> exists i :: 0 <= i < n && Key(reviews[i]) == k
      invariant DistinctKeys(reviews[..n]) ==> forall i :: 0 <= i < n ==> byKey[Key(reviews[i])] == reviews[i]
    {
      var key := Key(reviews[n]);
      assert DistinctKeys(reviews[..n + 1]) <==> DistinctKeys(reviews[..n]) && key !in byKey;
      v := Require(v, key !in byKey, "carry_forward_file_review");
      byKey := byKey[key := reviews[n]];
    }
    assert reviews[..|reviews|] == reviews;
  }

  function PathSet(changes: seq<FileChange>): set<string> {
    set i | 0 <= i < |changes| :: changes[i].path
  }

  method CheckChanges(byKey: map<string, FileReview>, changes: seq<FileChange>, rationale: bool)
    returns (v: seq<string>)
    ensures v == [] <==> forall i :: 0 <= i < |changes| ==>
      && changes[i].path in byKey && SameChange(byKey[changes[i].path], changes[i])
      && (rationale ==> Explained(byKey[changes[i].path], changes[i]))
  {
    v := [];
    for n := 0 to |changes|
      invariant v == [] <==> forall i :: 0 <= i < n ==>
        && changes[i].path in byKey && SameChange(byKey[changes[i].path], changes[i])
        && (rationale ==> Explained(byKey[changes[i].path], changes[i]))
    {
      var c := changes[n];
      v := Require(v, c.path in byKey && SameChange(byKey[c.path], c), "carry_forward_file_review");
      v := Require(v, rationale && c.path in byKey ==> Explained(byKey[c.path], c), "carry_forward_file_review");
    }
  }

  method ValidateReviews(reviews: seq<FileReview>, changes: seq<FileChange>, rationale: bool) returns (v: seq<string>)
    ensures v == [] <==> ReviewsMatch(reviews, changes, rationale)
  {
    hide CleanPath, SameChange, Explained;
    var byKey, w := RecordReviews(reviews);
    v := Require(w, byKey.Keys == PathSet(changes), "carry_forward_file_review");
    var x := CheckChanges(byKey, changes, rationale);
    v := v + x;
    if v == [] {
      AcceptedReviewsMatch(reviews, changes, rationale, byKey);
    } else if DistinctKeys(reviews) {
      MatchedReviewsAccepted(reviews, changes, rationale, byKey);
    }
  }

  lemma AcceptedReviewsMatch(
      reviews: seq<FileReview>, changes: seq<FileChange>, rationale: bool, byKey: map<string, FileReview>)
    requires DistinctKeys(reviews) && byKey.Keys == PathSet(changes)
    requires forall k :: k in byKey <==> exists i :: 0 <= i < |reviews| && Key(reviews[i]) == k
    requires forall i :: 0 <= i < |reviews| ==> byKey[Key(reviews[i])] == reviews[i]
    requires forall i :: 0 <= i < |changes| ==>
      && changes[i].path in byKey && SameChange(byKey[changes[i].path], changes[i])
      && (rationale ==> Explained(byKey[changes[i].path], changes[i]))
    ensures ReviewsMatch(reviews, changes, rationale)
  {
    hide CleanPath, SameChange, Explained, Key;
    forall r | r in reviews ensures exists c :: c in changes && c.path == Key(r) {
      assert Key(r) in byKey;
      assert Key(r) in PathSet(changes);
      var i :| 0 <= i < |changes| && changes[i].path == Key(r);
      assert changes[i] in changes;
    }
    forall c | c in changes
      ensures exists r :: r in reviews && Key(r) == c.path && SameChange(r, c) && (rationale ==> Explained(r, c))
    {
      var i :| 0 <= i < |changes| && changes[i] == c;
      var j :| 0 <= j < |reviews| && Key(reviews[j]) == c.path;
      assert byKey[c.path] == reviews[j] && reviews[j] in reviews;
    }
  }

  lemma MatchedReviewsAccepted(
      reviews: seq<FileReview>, changes: seq<FileChange>, rationale: bool, byKey: map<string, FileReview>)
    requires DistinctKeys(reviews)
    requires forall k :: k in byKey <==> exists i :: 0 <= i < |reviews| && Key(reviews[i]) == k
    requires forall i :: 0 <= i < |reviews| ==> byKey[Key(reviews[i])] == reviews[i]
    ensures ReviewsMatch(reviews, changes, rationale) ==>
      && byKey.Keys == PathSet(changes)
      && forall i :: 0 <= i < |changes| ==>
        && changes[i].path in byKey && SameChange(byKey[changes[i].path], changes[i])
        && (rationale ==> Explained(byKey[changes[i].path], changes[i]))
  {
    hide CleanPath, SameChange, Explained, Key;
    if ReviewsMatch(reviews, changes, rationale) {
      forall i | 0 <= i < |changes|
        ensures changes[i].path in byKey && SameChange(byKey[changes[i].path], changes[i])
        ensures rationale ==> Explained(byKey[changes[i].path], changes[i])
      {
        assert changes[i] in changes;
        var r :| r in reviews && Key(r) == changes[i].path && SameChange(r, changes[i])
          && (rationale ==> Explained(r, changes[i]));
        var j :| 0 <= j < |reviews| && reviews[j] == r;
      }
      forall k | k in byKey ensures k in PathSet(changes) {
        var j :| 0 <= j < |reviews| && Key(reviews[j]) == k;
        assert reviews[j] in reviews;
        var c :| c in changes && c.path == k;
        var i :| 0 <= i < |changes| && changes[i] == c;
        assert changes[i].path in PathSet(changes);
      }
    }
  }

  /** The checks against the real Git objects; Git evidence that cannot be had is a violation. */
  method ValidateGit(m: Manifest, evidence: Result<GitEvidence, string>) returns (v: seq<string>)
    ensures v == [] <==> GitMatches(m, evidence)
  {
    hide Strip, Lower, NormalizedPaths, ReviewsMatch, ReviewedOf, LexLeq;
    var s := m.subject;
    var e := if evidence.Ok? then evidence.value else GitEvidence("", "", [], []);
    v := Require([], evidence.Ok?, "carry_forward_git_diff");
    v := Require(v, Tidy(s.targetTree) == e.treeSha && Tidy(s.diffSha) == e.diffSha, "carry_forward_git_diff");
    v := Require(v, NormalizedPaths(s.changedPaths) == e.changedPaths, "carry_forward_git_diff");
    var w := ValidateReviews(s.fileReviews, e.fileChanges, true);
    v := v + w;
    v := Require(v, NormalizedPaths(s.reviewedPaths) == SortBy(LexLeq, ReviewedOf(e.fileChanges)),
                 "carry_forward_file_review");
  }

  method ValidateImpact(s: Subject) returns (v: seq<string>)
    ensures v == [] <==> ImpactAccepted(s)
  {
    hide ChangeImpact, NormalizedPaths, Strip, Upper;
    var impact := ImpactOf(s);
    v := Require([], Upper(Strip(s.impact)) == impact, "carry_forward_impact");
    v := Require(v, impact in {"EVIDENCE_ONLY", "PRESENTATION_ONLY"}, "carry_forward_impact");
    v := Require(v, s.requiredSessions == RequiredSessions(impact), "carry_forward_impact");
    v := Require(v, impact == "PRESENTATION_ONLY" ==>
      (forall name :: name in BEHAVIOR_INVARIANTS ==> name in s.invariants && s.invariants[name]),
      "presentation_only_behavior");
  }

  method ValidateReviewBinding(m: Manifest, h: Hashes, o: Outside) returns (v: seq<string>)
    ensures v == [] <==> ReviewBinds(m, h, o)
  {
    hide Strip, Lower, ReviewApproved, RemovePrefix;
    v := Require([], Tidy(m.subjectSha) == h.subject(m.subject), "carry_forward_review");
    var w := ValidateIndependentReview(m.review, o);
    v := v + w;
    v := Require(v, Lower(RemovePrefix(m.review.reference, "sha256:")) == h.subject(m.subject), "carry_forward_review");
  }

  /** `validate_change_manifest`. */
  method ValidateManifest(m: Manifest, r: Reports, git: Git, h: Hashes, o: Outside)
    returns (v: seq<string>, impact: string)
    ensures v == [] <==> ManifestAccepted(m, r, git, h, o)
    ensures impact == ImpactOf(m.subject)
  {
    hide SourceChainAccepted, TargetAccepted, GitMatches, ImpactAccepted, ReviewBinds, Collect, Strip, Lower,
         ChangeImpact;
    var w, sourceCommit, targetCommit;
    v, sourceCommit := ValidateSourceChain(r, h);
    w, targetCommit := ValidateTargetGate1(r.gate1);
    v := v + w;
    v := Require(v, m.subject.gate == CARRY_FORWARD_GATE, "carry_forward_manifest");
    v := Require(v, IdentityMatches(m.subject, r, h), "carry_forward_identity");
    w := ValidateGit(m, Collect(git, sourceCommit, targetCommit, h));
    v := v + w;
    w := ValidateImpact(m.subject);
    v := v + w;
    w := ValidateReviewBinding(m, h, o);
    v := v + w;
    impact := ImpactOf(m.subject);
  }

  // ---------------------------------------------------------------- the separate Git binding

  ghost predicate GitBindingAccepted(m: Manifest, evidence: Result<GitEvidence, string>) {
    && evidence.Ok? && DiffMatches(m.subject, evidence.value)
    && ReviewsMatch(m.subject.fileReviews, evidence.value.fileChanges, false)
  }

  /** `validate_manifest_git_binding`. */
  method ValidateGitBinding(m: Manifest, git: Git, sourceCommit: string, targetCommit: string, h: Hashes)
    returns (v: seq<string>)
    ensures v == [] <==> GitBindingAccepted(m, Collect(git, sourceCommit, targetCommit, h))
  {
    hide Strip, Lower, NormalizedPaths, ReviewsMatch, Collect;
    match Collect(git, sourceCommit, targetCommit, h)
    case Err(e) => v := ["carry_forward_git_diff"];
    case Ok(e) =>
      var s := m.subject;
      v := Require([], Tidy(s.targetTree) == e.treeSha && Tidy(s.diffSha) == e.diffSha, "carry_forward_git_diff");
      v := Require(v, NormalizedPaths(s.changedPaths) == e.changedPaths, "carry_forward_git_diff");
      var w := ValidateReviews(s.fileReviews, e.fileChanges, false);
      v := v + w;
  }

  // ---------------------------------------------------------------- the carried report

  datatype CarriedReport = CarriedReport(
    gate: string, result: string, commitSha: string, mode: string,
    gate2Sha: string, gate3Sha: string, gate1Sha: string, manifestSha: string, impact: string,
    reports: Reports, manifest: Manifest, violations: seq<string>, activationChanged: bool)

  function CarriedFrom(m: Manifest, r: Reports, h: Hashes, violations: seq<string>): CarriedReport {
    CarriedReport(
      "GATE_3_SHADOW_EXECUTION", if violations == [] then "PASSED" else "FAILED", Tidy(r.gate1.commitSha),
      ImpactOf(m.subject) + "_CARRY_FORWARD",
      h.gate2(r.gate2), h.gate3(r.gate3), h.gate1(r.gate1), h.manifest(m), ImpactOf(m.subject), r, m, violations, false)
  }

  /** `build_carried_gate3_report`. */
  method BuildCarriedReport(m: Manifest, r: Reports, git: Git, h: Hashes, o: Outside) returns (c: CarriedReport)
    ensures c.result == (if ManifestAccepted(m, r, git, h, o) then "PASSED" else "FAILED")
    ensures c == CarriedFrom(m, r, h, c.violations) && (c.violations == [] <==> ManifestAccepted(m, r, git, h, o))
  {
    hide ManifestAccepted, ChangeImpact, Strip, Lower;
    var v, impact := ValidateManifest(m, r, git, h, o);
    c := CarriedFrom(m, r, h, v);
  }

  predicate DigestsMatch(c: CarriedReport, h: Hashes) {
    && Tidy(c.gate2Sha) == h.gate2(c.reports.gate2) && Tidy(c.gate3Sha) == h.gate3(c.reports.gate3)
    && Tidy(c.gate1Sha) == h.gate1(c.reports.gate1) && Tidy(c.manifestSha) == h.manifest(c.manifest)
  }

  ghost predicate CarriedAccepted(c: CarriedReport, git: Git, expectedCommit: string, h: Hashes, o: Outside) {
    && ManifestAccepted(c.manifest, c.reports, git, h, o)
    && c.gate == "GATE_3_SHADOW_EXECUTION" && c.result == "PASSED"
    && Tidy(c.commitSha) == Tidy(expectedCommit) == Tidy(c.reports.gate1.commitSha)
    && c.mode == ImpactOf(c.manifest.subject) + "_CARRY_FORWARD"
    && DigestsMatch(c, h)
    && c.impact == ImpactOf(c.manifest.subject) && !c.activationChanged && c.violations == []
  }

  /** `validate_carried_gate3_report`. */
  method ValidateCarriedReport(c: CarriedReport, git: Git, expectedCommit: string, h: Hashes, o: Outside)
    returns (v: seq<string>)
    ensures v == [] <==> CarriedAccepted(c, git, expectedCommit, h, o)
  {
    hide ManifestAccepted, ChangeImpact, Strip, Lower, DigestsMatch;
    var impact;
    v, impact := ValidateManifest(c.manifest, c.reports, git, h, o);
    var target := Tidy(expectedCommit);
    v := Require(v, c.gate == "GATE_3_SHADOW_EXECUTION" && c.result == "PASSED"
                 && Tidy(c.commitSha) == target && Tidy(c.reports.gate1.commitSha) == target, "carry_forward_report");
    v := Require(v, c.mode == impact + "_CARRY_FORWARD", "carry_forward_report");
    v := Require(v, DigestsMatch(c, h), "carry_forward_report");
    v := Require(v, c.impact == impact, "carry_forward_report");
    v := Require(v, !c.activationChanged, "carry_forward_report");
    v := Require(v, c.violations == [], "carry_forward_report");
  }

  // ---------------------------------------------------------------- the round trip

  predicate Reviewers(author: string, reviewer: string, reviewedAt: string, o: Outside) {
    && Strip(author) != "" && Strip(reviewer) != ""
    && Lower(Strip(author)) != Lower(Strip(reviewer))
    && o.isAwareTimestamp(Strip(reviewedAt))
  }

  function AssertionsFilled(s: Subject): Subject {
    s.(invariants := map name | name in BEHAVIOR_INVARIANTS :: true)
  }

  /** The reviewer's step: the digest is refreshed and the approval refers to it. */
  function ApprovedBy(s: Subject, author: string, reviewer: string, reviewedAt: string, h: Hashes): Manifest {
    Manifest(s, Review(author, reviewer, "APPROVED", reviewedAt, "sha256:" + h.subject(s)), h.subject(s))
  }

  lemma TidyDigest(d: string)
    requires IsDigest(d)
    ensures Tidy(d) == d && Lower(d) == d
    ensures ValidSha256(d)
  {
    HexIsFixed(d);
  }

  lemma ApprovalBinds(s: Subject, author: string, reviewer: string, reviewedAt: string, h: Hashes, o: Outside)
    requires IsDigest(h.subject(s)) && Reviewers(author, reviewer, reviewedAt, o)
    ensures ReviewBinds(ApprovedBy(s, author, reviewer, reviewedAt, h), h, o)
  {
    var d := h.subject(s);
    TidyDigest(d);
    var reference := "sha256:" + d;
    StripFixed(reference);
    assert RemovePrefix(reference, "sha256:") == d;
    assert Upper(Strip("APPROVED")) == "APPROVED" by { StripFixed("APPROVED"); }
    hide Strip, Lower, Upper, RemovePrefix, ValidSha256;
  }

  lemma {:induction false} ReviewedOfMembers(changes: seq<FileChange>)
    ensures forall p :: p in ReviewedOf(changes) <==>
      exists i :: 0 <= i < |changes| && changes[i].path == p && changes[i].kind == "REVIEWED_EXECUTABLE_UI"
  {
    if changes != [] {
      var init, last := changes[..|changes| - 1], changes[|changes| - 1];
      ReviewedOfMembers(init);
      assert forall i :: 0 <= i < |init| ==> init[i] == changes[i];
      forall p
        ensures p in ReviewedOf(changes) <==>
          exists i :: 0 <= i < |changes| && changes[i].path == p && changes[i].kind == "REVIEWED_EXECUTABLE_UI"
      {
        if p in ReviewedOf(init) {
          var i :| 0 <= i < |init| && init[i].path == p && init[i].kind == "REVIEWED_EXECUTABLE_UI";
          assert changes[i].path == p;
        }
        if last.path == p { assert changes[|changes| - 1].path == p; }
      }
    }
  }

  /** The reviewed paths of sound evidence are in order. */
  lemma {:induction false} ReviewedOfSorted(changes: seq<FileChange>)
    requires forall i, j :: 0 <= i < j < |changes| ==>
      LexLeq(changes[i].path, changes[j].path) && changes[i].path != changes[j].path
    ensures StrictlySorted(ReviewedOf(changes))
  {
    if changes != [] {
      hide LexLeq;
      var init, last := changes[..|changes| - 1], changes[|changes| - 1];
      ReviewedOfSorted(init);
      ReviewedOfMembers(init);
      forall i | 0 <= i < |ReviewedOf(init)|
        ensures LexLeq(ReviewedOf(init)[i], last.path) && ReviewedOf(init)[i] != last.path
      {
        assert ReviewedOf(init)[i] in ReviewedOf(init);
        var j :| 0 <= j < |init| && init[j].path == ReviewedOf(init)[i];
        assert changes[j] == init[j];
      }
    }
  }

  predicate AllSettled(paths: seq<string>) { forall i :: 0 <= i < |paths| ==> Settled(paths[i]) }

  predicate NoneUnknown(paths: seq<string>) {
    forall i :: 0 <= i < |paths| ==> PathKind(paths[i]) != "PRODUCTION_OR_UNKNOWN"
  }

  lemma SettledEvidence(e: GitEvidence)
    requires EvidenceSound(e) && AllSettled(e.changedPaths)
    ensures NormalizedPaths(e.changedPaths) == e.changedPaths
    ensures NormalizedPaths(ReviewedOf(e.fileChanges)) == ReviewedOf(e.fileChanges)
    ensures ReviewedOf(e.fileChanges) == SortBy(LexLeq, ReviewedOf(e.fileChanges))
    ensures forall p :: p in ReviewedOf(e.fileChanges) <==>
      p in e.changedPaths && PathKind(p) == "REVIEWED_EXECUTABLE_UI"
  {
    var reviewed := ReviewedOf(e.fileChanges);
    hide LexLeq, Settled, NormalizedPaths, PathKind;
    forall p | p in e.changedPaths ensures Settled(p) { }
    IdempotentIffSettled(e.changedPaths);
    ReviewedOfSorted(e.fileChanges);
    ReviewedOfMembers(e.fileChanges);
    forall p ensures p in reviewed <==> p in e.changedPaths && PathKind(p) == "REVIEWED_EXECUTABLE_UI" {
      if p in e.changedPaths && PathKind(p) == "REVIEWED_EXECUTABLE_UI" {
        var i :| 0 <= i < |e.changedPaths| && e.changedPaths[i] == p;
        assert e.fileChanges[i].path == p;
      }
    }
    IdempotentIffSettled(reviewed);
    SortedFixedPoint(reviewed);
  }

  lemma DraftIsExplained(c: FileChange)
    ensures Explained(FileReview(c, RationaleFor(c.kind)), c)
  {
    if c.kind == "REVIEWED_EXECUTABLE_UI" {
      var text := RationaleFor(c.kind);
      assert text[|text| - 1] == '.';
      NotBlank(text);
    }
  }

  /** One review for each change, in order and under different paths, is a match. */
  lemma PairedReviewsMatch(reviews: seq<FileReview>, changes: seq<FileChange>)
    requires |reviews| == |changes|
    requires forall i :: 0 <= i < |changes| ==>
      Key(reviews[i]) == changes[i].path && SameChange(reviews[i], changes[i]) && Explained(reviews[i], changes[i])
    requires forall i, j :: 0 <= i < j < |changes| ==> changes[i].path != changes[j].path
    ensures ReviewsMatch(reviews, changes, true)
  {
    hide Key, SameChange, Explained;
    forall c | c in changes
      ensures exists r :: r in reviews && Key(r) == c.path && SameChange(r, c) && (true ==> Explained(r, c))
    {
      var i :| 0 <= i < |changes| && changes[i] == c;
      assert reviews[i] in reviews;
    }
    forall r | r in reviews ensures exists c :: c in changes && c.path == Key(r) {
      var i :| 0 <= i < |reviews| && reviews[i] == r;
      assert changes[i] in changes;
    }
  }

  lemma DraftReviewsMatch(e: GitEvidence)
    requires EvidenceSound(e) && AllSettled(e.changedPaths)
    ensures ReviewsMatch(DraftReviews(e.fileChanges), e.fileChanges, true)
  {
    hide LexLeq, Settled, CleanPath, PathKind, Strip, ReviewsMatch;
    var changes, reviews := e.fileChanges, DraftReviews(e.fileChanges);
    forall i | 0 <= i < |reviews|
      ensures Key(reviews[i]) == changes[i].path
      ensures SameChange(reviews[i], changes[i]) && Explained(reviews[i], changes[i])
    {
      DraftIsExplained(changes[i]);
      SettledIsClean(e.changedPaths[i]);
    }
    hide RationaleFor, Explained, SameChange, Key;
    PairedReviewsMatch(reviews, changes);
  }

  lemma TidyImpact(impact: string)
    requires impact in {"EVIDENCE_ONLY", "PRESENTATION_ONLY", "PRODUCTION_OR_UNKNOWN"}
    ensures Upper(Strip(impact)) == impact
  {
    if impact == "EVIDENCE_ONLY" {
      StripFixed(impact);
      UpperFixed(impact);
    } else if impact == "PRESENTATION_ONLY" {
      StripFixed(impact);
      UpperFixed(impact);
    } else {
      StripFixed(impact);
      UpperFixed(impact);
    }
  }

  lemma ThreeImpacts(changed: seq<string>, reviewed: seq<string>)
    ensures ChangeImpact(changed, reviewed) in {"EVIDENCE_ONLY", "PRESENTATION_ONLY", "PRODUCTION_OR_UNKNOWN"}
  {
    hide NormalizedPaths, EvidenceOnlyPath, StaticPresentationPath, ReviewablePath;
  }

  lemma DraftImpactKnown(s: Subject, e: GitEvidence)
    requires EvidenceSound(e) && AllSettled(e.changedPaths)
    requires s.changedPaths == e.changedPaths && s.reviewedPaths == ReviewedOf(e.fileChanges)
    ensures ImpactOf(s) == ChangeImpact(e.changedPaths, ReviewedOf(e.fileChanges))
    ensures ImpactOf(s) != "PRODUCTION_OR_UNKNOWN" <==> NoneUnknown(e.changedPaths)
  {
    SettledEvidence(e);
    hide NormalizedPaths, PathKind, ReviewedOf, ChangeImpact, AllSettled, NoneUnknown;
    ImpactFailsClosed(e.changedPaths, ReviewedOf(e.fileChanges));
    NoneUnknownMeans(e.changedPaths);
  }

  lemma DraftImpact(s: Subject, e: GitEvidence)
    requires EvidenceSound(e) && AllSettled(e.changedPaths)
    requires s.changedPaths == e.changedPaths && s.reviewedPaths == ReviewedOf(e.fileChanges)
    requires s.impact == ChangeImpact(e.changedPaths, ReviewedOf(e.fileChanges))
    requires s.requiredSessions == RequiredSessions(s.impact)
    requires forall name :: name in BEHAVIOR_INVARIANTS ==> name in s.invariants && s.invariants[name]
    ensures ImpactAccepted(s) <==> NoneUnknown(e.changedPaths)
  {
    hide ChangeImpact, Upper, Strip, RequiredSessions, AllSettled, EvidenceSound, NoneUnknown, ImpactOf, ReviewedOf;
    ThreeImpacts(e.changedPaths, ReviewedOf(e.fileChanges));
    DraftImpactKnown(s, e);
    TidyImpact(s.impact);
  }

  lemma NoneUnknownMeans(paths: seq<string>)
    ensures NoneUnknown(paths) <==> !(exists p :: p in paths && PathKind(p) == "PRODUCTION_OR_UNKNOWN")
  {
    hide PathKind;
    forall i | 0 <= i < |paths| ensures paths[i] in paths {}
  }

  /**
   The round trip: a manifest built from accepted reports, filled in, refreshed and approved
   validates exactly where Git's paths are settled and none of them is production or unknown.
   */
  lemma RoundTrip(
      r: Reports, git: Git, h: Hashes, o: Outside, now: string,
      author: string, reviewer: string, reviewedAt: string, e: GitEvidence, s: Subject)
    requires SourceChainAccepted(r, h) && TargetAccepted(r.gate1) && Canonical(h)
    requires Collect(git, Tidy(r.gate3.commitSha), Tidy(r.gate1.commitSha), h) == Ok(e)
    requires Reviewers(author, reviewer, reviewedAt, o)
    requires s == AssertionsFilled(DraftSubject(r, e, h, now))
    ensures ManifestAccepted(ApprovedBy(s, author, reviewer, reviewedAt, h), r, git, h, o)
      <==> (AllSettled(e.changedPaths) && NoneUnknown(e.changedPaths))
  {
    var m := ApprovedBy(s, author, reviewer, reviewedAt, h);
    CollectedIsSound(git, Tidy(r.gate3.commitSha), Tidy(r.gate1.commitSha), h);
    ApprovalBinds(s, author, reviewer, reviewedAt, h, o);
    DraftIdentity(r, e, h, now);
    if AllSettled(e.changedPaths) {
      DraftGit(m, e);
      DraftImpact(s, e);
    } else {
      UnsettledIsRefused(m, e);
    }
    hide SourceChainAccepted, TargetAccepted, Canonical, Collect, Reviewers, EvidenceSound, GitMatches, ImpactAccepted,
         ReviewBinds, IdentityMatches, AllSettled, NoneUnknown, ReviewedOf, ChangeImpact, Tidy;
  }

  lemma DraftIdentity(r: Reports, e: GitEvidence, h: Hashes, now: string)
    requires Canonical(h)
    ensures IdentityMatches(AssertionsFilled(DraftSubject(r, e, h, now)), r, h)
  {
    StripLowerIdempotent(r.gate3.commitSha);
    StripLowerIdempotent(r.gate1.commitSha);
    TidyDigest(h.gate1(r.gate1));
    TidyDigest(h.gate2(r.gate2));
    TidyDigest(h.gate3(r.gate3));
    hide Strip, Lower, IsDigest, ReviewedOf, ChangeImpact, DraftReviews;
  }

  lemma DraftGit(m: Manifest, e: GitEvidence)
    requires EvidenceSound(e) && AllSettled(e.changedPaths) && IsDigest(e.diffSha)
    requires m.subject.targetTree == e.treeSha && m.subject.diffSha == e.diffSha
    requires m.subject.changedPaths == e.changedPaths && m.subject.fileReviews == DraftReviews(e.fileChanges)
    requires m.subject.reviewedPaths == ReviewedOf(e.fileChanges)
    ensures GitMatches(m, Ok(e))
  {
    TidyDigest(e.diffSha);
    SettledEvidence(e);
    DraftReviewsMatch(e);
    hide NormalizedPaths, ReviewsMatch, ReviewedOf, Strip, Lower, LexLeq, StrictlySorted, AllSettled;
  }

  lemma UnsettledIsRefused(m: Manifest, e: GitEvidence)
    requires EvidenceSound(e) && !AllSettled(e.changedPaths) && m.subject.changedPaths == e.changedPaths
    ensures !GitMatches(m, Ok(e))
  {
    hide NormalizedPaths, Settled, PathKind, Strip, Lower, ReviewsMatch;
    IdempotentIffSettled(e.changedPaths);
  }

  /** An accepted manifest carries: the report is PASSED, revalidates, and binds to the Git objects. */
  lemma AcceptedManifestCarries(m: Manifest, r: Reports, git: Git, h: Hashes, o: Outside)
    requires ManifestAccepted(m, r, git, h, o) && Canonical(h)
    ensures CarriedAccepted(CarriedFrom(m, r, h, []), git, r.gate1.commitSha, h, o)
    ensures GitBindingAccepted(m, Collect(git, Tidy(r.gate3.commitSha), Tidy(r.gate1.commitSha), h))
  {
    CarriedDigests(m, r, h);
    StripLowerIdempotent(r.gate1.commitSha);
    var evidence := Collect(git, Tidy(r.gate3.commitSha), Tidy(r.gate1.commitSha), h);
    assert GitMatches(m, evidence);
    hide ManifestAccepted, Collect, Strip, Lower, Canonical, ChangeImpact, NormalizedPaths, GitMatches,
         GitBindingAccepted,
         DigestsMatch;
    BindsToGit(m, evidence);
  }

  lemma CarriedDigests(m: Manifest, r: Reports, h: Hashes)
    requires Canonical(h)
    ensures DigestsMatch(CarriedFrom(m, r, h, []), h)
  {
    TidyDigest(h.gate1(r.gate1));
    TidyDigest(h.gate2(r.gate2));
    TidyDigest(h.gate3(r.gate3));
    TidyDigest(h.manifest(m));
    hide Strip, Lower, IsDigest, ChangeImpact, NormalizedPaths;
  }

  lemma BindsToGit(m: Manifest, evidence: Result<GitEvidence, string>)
    requires GitMatches(m, evidence)
    ensures GitBindingAccepted(m, evidence)
  {
    hide Strip, Lower, NormalizedPaths, SameChange, Explained, CleanPath, ReviewedOf, LexLeq;
    var reviews, changes := m.subject.fileReviews, evidence.value.fileChanges;
    forall c | c in changes ensures exists r :: r in reviews && Key(r) == c.path && SameChange(r, c) {
      var r :| r in reviews && Key(r) == c.path && SameChange(r, c) && (true ==> Explained(r, c));
    }
  }

  /** Build, fill in, approve and carry: what the whole workflow comes to. */
  method CarryQualification(
      r: Reports, git: Git, h: Hashes, o: Outside, now: string, author: string, reviewer: string, reviewedAt: string)
    returns (c: Result<CarriedReport, string>)
    requires Canonical(h) && Reviewers(author, reviewer, reviewedAt, o)
    ensures c.Ok? <==>
      && SourceChainAccepted(r, h) && TargetAccepted(r.gate1)
      && Collect(git, Tidy(r.gate3.commitSha), Tidy(r.gate1.commitSha), h).Ok?
    ensures c.Ok? ==>
      var paths := Collect(git, Tidy(r.gate3.commitSha), Tidy(r.gate1.commitSha), h).value.changedPaths;
      && (c.value.result == "PASSED" <==> AllSettled(paths) && NoneUnknown(paths))
      && (c.value.result == "PASSED" ==> CarriedAccepted(c.value, git, r.gate1.commitSha, h, o))
  {
    hide SourceChainAccepted, TargetAccepted, Canonical, Reviewers, ManifestAccepted, CarriedAccepted, AllSettled,
         NoneUnknown, Tidy, DraftSubject, AssertionsFilled, ImpactOf, Collect;
    var draft := BuildManifest(r, git, h, now);
    if draft.Err? { return Err(draft.error); }
    var subject := AssertionsFilled(draft.value.subject);
    var approved := ApprovedBy(subject, author, reviewer, reviewedAt, h);
    ghost var e := Collect(git, Tidy(r.gate3.commitSha), Tidy(r.gate1.commitSha), h).value;
    RoundTrip(r, git, h, o, now, author, reviewer, reviewedAt, e, subject);
    var report := BuildCarriedReport(approved, r, git, h, o);
    if report.violations == [] { AcceptedManifestCarries(approved, r, git, h, o); }
    c := Ok(report);
  }

  /** The approval refers to one subject: the same review does not approve an edited manifest. */
  lemma EditedManifestIsRejected(
      m: Manifest, edited: Subject, subjectSha: string, r: Reports, git: Git, h: Hashes, o: Outside)
    requires forall a, b :: h.subject(a) == h.subject(b) ==> a == b
    requires ReviewBinds(m, h, o) && edited != m.subject
    ensures !ManifestAccepted(Manifest(edited, m.review, subjectSha), r, git, h, o)
  {
    assert h.subject(edited) != h.subject(m.subject);
    hide SourceChainAccepted, TargetAccepted, GitMatches, ImpactAccepted, ReviewApproved, IdentityMatches, Collect;
  }
}
