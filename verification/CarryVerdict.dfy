/**
 The carry-forward verdict from end to end (activation_gates/carryforward.py): which manifests
 are accepted, in the fields of the manifest, the reports and what Git prints.
 */
module CarryVerdict {
  import opened Common
  import opened Ordering
  import opened Text
  import opened EvidenceRules
  import opened Requalification
  import opened CarryForward

  /** A PASSED Gate-2 and a PASSED Gate-3 report of one commit, the second made on the first. */
  ghost predicate SourceFits(r: Reports, h: Hashes) {
    && r.gate2.gate == "GATE_2_LIVE_KIS_READ_ONLY_SOAK" && Upper(r.gate2.result) == "PASSED"
    && r.gate3.gate == "GATE_3_SHADOW_EXECUTION" && Upper(r.gate3.result) == "PASSED"
    && (Hex(r.gate3.commitSha, 40) || Hex(r.gate3.commitSha, 64))
    && Lower(Strip(r.gate2.commitSha)) == Lower(Strip(r.gate3.commitSha))
    && Lower(Strip(r.gate3.gate2Sha)) == h.gate2(r.gate2)
  }

  /** A PASSED Gate-1 report of a clean, exact commit, run on both versions of Python. */
  ghost predicate TargetFits(g: Gate1Report) {
    && g.gate == "GATE_1_DETERMINISTIC_SIMULATION" && Upper(g.result) == "PASSED" && g.pytestExitCode == Some(0)
    && (Hex(g.commitSha, 40) || Hex(g.commitSha, 64))
    && g.identityCommit == Lower(Strip(g.commitSha)) && g.worktreeClean
    && (exists i :: 0 <= i < |g.matrix| && Strip(g.matrix[i].0) == "3.11" && Upper(g.matrix[i].1) == "PASSED")
    && (exists i :: 0 <= i < |g.matrix| && Strip(g.matrix[i].0) == "3.12" && Upper(g.matrix[i].1) == "PASSED")
  }

  ghost function DigestOf(file: Option<string>, h: Hashes): Option<string> {
    if file.Some? then Some(h.bytes(file.value)) else None
  }

  /** A review of one changed path: its kind and the digests of source, target and patch are those of Git. */
  ghost predicate ReviewOf(r: FileReview, p: string, raw: RawDiff, h: Hashes) {
    && CleanPath(r.change.path) == p && r.change.kind == PathKind(p)
    && r.change.sourceSha == DigestOf(raw.sourceFile(p), h) && r.change.targetSha == DigestOf(raw.targetFile(p), h)
    && r.change.patchSha == h.bytes(raw.patch(p))
  }

  /** Exactly one review for each path, and it agrees with Git; code of a user interface is explained. */
  ghost predicate ReviewsFit(reviews: seq<FileReview>, paths: seq<string>, raw: RawDiff, h: Hashes, rationale: bool) {
    && (forall i, j :: 0 <= i < j < |reviews| ==>
          CleanPath(reviews[i].change.path) != CleanPath(reviews[j].change.path))
    && (forall i :: 0 <= i < |reviews| ==> CleanPath(reviews[i].change.path) in paths)
    && (forall p :: p in paths ==> exists i ::
          && 0 <= i < |reviews| && ReviewOf(reviews[i], p, raw, h)
          && (rationale && PathKind(p) == "REVIEWED_EXECUTABLE_UI" ==> Strip(reviews[i].rationale) != ""))
  }

  /** The normal paths Git prints: some, and none of them twice or out of form. */
  ghost predicate GitPrints(raw: RawDiff) {
    NormalizedPaths(raw.names) != [] && |NormalizedPaths(raw.names)| == |raw.names|
  }

  /** The manifest states the tree, the difference and the paths of Git. */
  ghost predicate DiffFits(s: Subject, raw: RawDiff, h: Hashes) {
    && Lower(Strip(s.targetTree)) == Lower(Strip(raw.treeText)) && Lower(Strip(s.diffSha)) == h.bytes(raw.fullPatch)
    && NormalizedPaths(s.changedPaths) == NormalizedPaths(raw.names)
  }

  /** And lists as reviewed exactly the changed code of the user interfaces. */
  ghost predicate ReviewedListed(s: Subject, raw: RawDiff) {
    forall p :: p in NormalizedPaths(s.reviewedPaths) <==>
      p in NormalizedPaths(raw.names) && PathKind(p) == "REVIEWED_EXECUTABLE_UI"
  }

  ghost predicate GitFits(m: Manifest, r: Reports, git: Git, h: Hashes) {
    var answer := git(Lower(Strip(r.gate3.commitSha)), Lower(Strip(r.gate1.commitSha)));
    && answer.Ok? && GitPrints(answer.value)
    && DiffFits(m.subject, answer.value, h) && ReviewedListed(m.subject, answer.value)
    && ReviewsFit(m.subject.fileReviews, NormalizedPaths(answer.value.names), answer.value, h, true)
  }

  ghost predicate IdentityFits(s: Subject, r: Reports, h: Hashes) {
    && Lower(Strip(s.sourceCommit)) == Lower(Strip(r.gate3.commitSha))
    && Lower(Strip(s.targetCommit)) == Lower(Strip(r.gate1.commitSha))
    && Lower(Strip(s.gate2Sha)) == h.gate2(r.gate2) && Lower(Strip(s.gate3Sha)) == h.gate3(r.gate3)
    && Lower(Strip(s.gate1Sha)) == h.gate1(r.gate1)
  }

  ghost function SessionsOfSubject(s: Subject): int {
    SessionsByText(NormalizedPaths(s.changedPaths), NormalizedPaths(s.reviewedPaths))
  }

  /** The paths ask for fewer than three sessions, and the manifest says so. */
  ghost predicate ImpactFits(s: Subject) {
    var n := SessionsOfSubject(s);
    && n != 3 && s.requiredSessions == n
    && Upper(Strip(s.impact)) == (if n == 0 then "PRESENTATION_ONLY" else "EVIDENCE_ONLY")
    && (n == 0 ==> NineAsserted(s.invariants))
  }

  ghost predicate ApprovalFits(m: Manifest, h: Hashes, o: Outside) {
    && Lower(Strip(m.subjectSha)) == h.subject(m.subject) && Reviewed(m.review, o)
    && Lower(Bare(m.review.reference)) == h.subject(m.subject)
  }

  ghost predicate ManifestFits(m: Manifest, r: Reports, git: Git, h: Hashes, o: Outside) {
    && SourceFits(r, h) && TargetFits(r.gate1)
    && m.subject.gate == "EXECUTION_QUALIFICATION_CARRY_FORWARD" && IdentityFits(m.subject, r, h)
    && GitFits(m, r, git, h) && ImpactFits(m.subject) && ApprovalFits(m, h, o)
  }

  // ---------------------------------------------------------------- they are the accepted ones

  lemma SourceIff(r: Reports, h: Hashes)
    ensures SourceFits(r, h) <==> SourceChainAccepted(r, h)
  {
    StripLowerIdempotent(r.gate3.commitSha);
    HexIff(Lower(Strip(r.gate3.commitSha)));
    hide Strip, Lower, Upper, ValidGitCommitSha;
  }

  lemma TargetIff(g: Gate1Report)
    ensures TargetFits(g) <==> TargetAccepted(g)
  {
    StripLowerIdempotent(g.commitSha);
    HexIff(Lower(Strip(g.commitSha)));
    hide Strip, Lower, Upper, ValidGitCommitSha;
  }

  lemma ReviewOfIff(r: FileReview, p: string, raw: RawDiff, h: Hashes)
    ensures ReviewOf(r, p, raw, h) <==> Key(r) == p && SameChange(r, ChangeOf(p, raw, h))
  {
    hide PathKind, CleanPath;
  }

  lemma ReviewsIff(reviews: seq<FileReview>, paths: seq<string>, raw: RawDiff, h: Hashes, rationale: bool)
    ensures ReviewsFit(reviews, paths, raw, h, rationale) <==>
      ReviewsMatch(reviews, ChangesOf(paths, raw, h), rationale)
  {
    var changes := ChangesOf(paths, raw, h);
    forall r, p ensures ReviewOf(r, p, raw, h) <==> Key(r) == p && SameChange(r, ChangeOf(p, raw, h)) {
      ReviewOfIff(r, p, raw, h);
    }
    ChangesListed(paths, raw, h);
    hide PathKind, CleanPath, Strip, ChangesOf, SameChange, ReviewOf;
    if ReviewsMatch(reviews, changes, rationale) { MatchedFit(reviews, paths, raw, h, rationale); }
    if ReviewsFit(reviews, paths, raw, h, rationale) { FitMatched(reviews, paths, raw, h, rationale); }
  }

  lemma ChangesListed(paths: seq<string>, raw: RawDiff, h: Hashes)
    ensures forall c :: c in ChangesOf(paths, raw, h) <==> c.path in paths && c == ChangeOf(c.path, raw, h)
  {
    hide PathKind;
    var changes := ChangesOf(paths, raw, h);
    forall c ensures c in changes <==> c.path in paths && c == ChangeOf(c.path, raw, h) {
      if c.path in paths && c == ChangeOf(c.path, raw, h) {
        var i :| 0 <= i < |paths| && paths[i] == c.path;
        assert changes[i] == c;
      }
    }
  }

  lemma MatchedFit(reviews: seq<FileReview>, paths: seq<string>, raw: RawDiff, h: Hashes, rationale: bool)
    requires ReviewsMatch(reviews, ChangesOf(paths, raw, h), rationale)
    ensures ReviewsFit(reviews, paths, raw, h, rationale)
  {
    var changes := ChangesOf(paths, raw, h);
    ChangesListed(paths, raw, h);
    hide PathKind, CleanPath, Strip, ChangesOf, SameChange;
    forall i | 0 <= i < |reviews| ensures CleanPath(reviews[i].change.path) in paths {
      assert reviews[i] in reviews;
      var c :| c in changes && c.path == Key(reviews[i]);
    }
    forall p | p in paths
      ensures exists i ::
        && 0 <= i < |reviews| && ReviewOf(reviews[i], p, raw, h)
        && (rationale && PathKind(p) == "REVIEWED_EXECUTABLE_UI" ==> Strip(reviews[i].rationale) != "")
    {
      var c := ChangeOf(p, raw, h);
      assert c in changes;
      var r :| r in reviews && Key(r) == c.path && SameChange(r, c) && (rationale ==> Explained(r, c));
      var i :| 0 <= i < |reviews| && reviews[i] == r;
      ReviewOfIff(r, p, raw, h);
    }
  }

  lemma FitMatched(reviews: seq<FileReview>, paths: seq<string>, raw: RawDiff, h: Hashes, rationale: bool)
    requires ReviewsFit(reviews, paths, raw, h, rationale)
    ensures ReviewsMatch(reviews, ChangesOf(paths, raw, h), rationale)
  {
    var changes := ChangesOf(paths, raw, h);
    ChangesListed(paths, raw, h);
    hide PathKind, CleanPath, Strip, ChangesOf, SameChange, ReviewOf;
    forall r | r in reviews ensures exists c :: c in changes && c.path == Key(r) {
      var i :| 0 <= i < |reviews| && reviews[i] == r;
      assert ChangeOf(Key(r), raw, h) in changes;
    }
    forall c | c in changes
      ensures exists r :: r in reviews && Key(r) == c.path && SameChange(r, c) && (rationale ==> Explained(r, c))
    {
      var i :| && 0 <= i < |reviews| && ReviewOf(reviews[i], c.path, raw, h)
        && (rationale && PathKind(c.path) == "REVIEWED_EXECUTABLE_UI" ==> Strip(reviews[i].rationale) != "");
      ReviewOfIff(reviews[i], c.path, raw, h);
      assert reviews[i] in reviews;
    }
  }

  /** Both lists of reviewed paths are in order, so they are equal where their members are. */
  lemma ReviewedIff(s: Subject, raw: RawDiff, h: Hashes)
    ensures var changes := ChangesOf(NormalizedPaths(raw.names), raw, h);
      NormalizedPaths(s.reviewedPaths) == SortBy(LexLeq, ReviewedOf(changes)) <==> ReviewedListed(s, raw)
  {
    var paths := NormalizedPaths(raw.names);
    var changes := ChangesOf(paths, raw, h);
    var listed, found := NormalizedPaths(s.reviewedPaths), ReviewedOf(changes);
    NormalizedPathsMeans(raw.names);
    NormalizedPathsMeans(s.reviewedPaths);
    assert forall i :: 0 <= i < |paths| ==> changes[i].path == paths[i] && changes[i].kind == PathKind(paths[i]);
    hide NormalizedPaths, PathKind, LexLeq, Usable, NormalPath, ChangesOf;
    ReviewedOfSorted(changes);
    SortedFixedPoint(found);
    forall p ensures p in found <==> p in paths && PathKind(p) == "REVIEWED_EXECUTABLE_UI" {
      ReviewedOfMembers(changes);
      if p in paths {
        var i :| 0 <= i < |paths| && paths[i] == p;
        assert changes[i].path == p;
      }
    }
    if ReviewedListed(s, raw) { StrictlySortedIsUnique(listed, found); }
  }

  lemma GitIff(m: Manifest, r: Reports, git: Git, h: Hashes)
    requires ValidGitCommitSha(Tidy(r.gate3.commitSha)) && ValidGitCommitSha(Tidy(r.gate1.commitSha))
    ensures GitFits(m, r, git, h) <==>
      GitMatches(m, Collect(git, Tidy(r.gate3.commitSha), Tidy(r.gate1.commitSha), h))
  {
    hide NormalizedPaths, Strip, Lower, ValidGitCommitSha, ReviewsFit, ReviewsMatch, ReviewedOf, ReviewedListed,
         ChangesOf, LexLeq, SortBy;
    StripLowerIdempotent(r.gate3.commitSha);
    StripLowerIdempotent(r.gate1.commitSha);
    var answer := git(Lower(Strip(r.gate3.commitSha)), Lower(Strip(r.gate1.commitSha)));
    if answer.Ok? {
      var raw := answer.value;
      ReviewsIff(m.subject.fileReviews, NormalizedPaths(raw.names), raw, h, true);
      ReviewedIff(m.subject, raw, h);
    }
  }

  lemma ImpactIff(s: Subject)
    ensures ImpactFits(s) <==> ImpactAccepted(s)
  {
    SessionsInText(NormalizedPaths(s.changedPaths), NormalizedPaths(s.reviewedPaths));
    SubjectSessions(s);
    NineInvariants(s.invariants);
    hide NormalizedPaths, SessionsByText, Strip, Upper, NineAsserted, ChangeImpact, RequiredSessions;
  }

  lemma SubjectSessions(s: Subject)
    ensures SessionsOfSubject(s) in {0, 1, 3}
  {
    hide NormalizedPaths, Harmless, Tooling;
  }

  lemma ApprovalIff(m: Manifest, h: Hashes, o: Outside)
    ensures ApprovalFits(m, h, o) <==> ReviewBinds(m, h, o)
  {
    EvidenceRules.ReviewedIff(m.review, o);
    BareIff(m.review.reference);
    hide Strip, Lower, Reviewed, ReviewApproved, Bare, RemovePrefix;
  }

  lemma CommitsValid(r: Reports, h: Hashes)
    requires SourceChainAccepted(r, h) && TargetAccepted(r.gate1)
    ensures ValidGitCommitSha(Tidy(r.gate3.commitSha)) && ValidGitCommitSha(Tidy(r.gate1.commitSha))
  {
    hide ValidGitCommitSha, Strip, Lower, Upper;
  }

  /** `validate_change_manifest` accepts exactly the manifests that fit reports, Git and review, field by field. */
  lemma AcceptedIffFits(m: Manifest, r: Reports, git: Git, h: Hashes, o: Outside)
    ensures ManifestAccepted(m, r, git, h, o) <==> ManifestFits(m, r, git, h, o)
  {
    hide SourceFits, SourceChainAccepted, TargetFits, TargetAccepted, GitFits, GitMatches, ImpactFits, ImpactAccepted,
         ApprovalFits, ReviewBinds, Collect, Strip, Lower;
    SourceIff(r, h);
    TargetIff(r.gate1);
    if SourceChainAccepted(r, h) && TargetAccepted(r.gate1) {
      CommitsValid(r, h);
      GitIff(m, r, git, h);
    }
    ImpactIff(m.subject);
    ApprovalIff(m, h, o);
  }

  // ---------------------------------------------------------------- binding and carried report

  /** The Git binding of a manifest: complete commits, and the difference and file reviews of Git. */
  ghost predicate BindingFits(m: Manifest, git: Git, source: string, target: string, h: Hashes) {
    && (Hex(source, 40) || Hex(source, 64)) && (Hex(target, 40) || Hex(target, 64))
    && var answer := git(Lower(Strip(source)), Lower(Strip(target)));
    && answer.Ok? && GitPrints(answer.value) && DiffFits(m.subject, answer.value, h)
    && ReviewsFit(m.subject.fileReviews, NormalizedPaths(answer.value.names), answer.value, h, false)
  }

  lemma BindingIff(m: Manifest, git: Git, source: string, target: string, h: Hashes)
    ensures BindingFits(m, git, source, target, h) <==> GitBindingAccepted(m, Collect(git, source, target, h))
  {
    hide NormalizedPaths, Strip, Lower, Hex, ValidGitCommitSha, ReviewsFit, ReviewsMatch, ChangesOf;
    HexIff(source);
    HexIff(target);
    var answer := git(Lower(Strip(source)), Lower(Strip(target)));
    if answer.Ok? {
      ReviewsIff(m.subject.fileReviews, NormalizedPaths(answer.value.names), answer.value, h, false);
    }
  }

  /** A carried Gate-3 report: PASSED, complete, of the expected commit, on a manifest that fits. */
  ghost predicate CarriedFits(c: CarriedReport, git: Git, expectedCommit: string, h: Hashes, o: Outside) {
    var impact := if SessionsOfSubject(c.manifest.subject) == 0 then "PRESENTATION_ONLY" else "EVIDENCE_ONLY";
    && ManifestFits(c.manifest, c.reports, git, h, o)
    && c.gate == "GATE_3_SHADOW_EXECUTION" && c.result == "PASSED" && c.violations == [] && !c.activationChanged
    && Lower(Strip(c.commitSha)) == Lower(Strip(expectedCommit)) == Lower(Strip(c.reports.gate1.commitSha))
    && c.impact == impact && c.mode == impact + "_CARRY_FORWARD"
    && Lower(Strip(c.gate1Sha)) == h.gate1(c.reports.gate1) && Lower(Strip(c.gate2Sha)) == h.gate2(c.reports.gate2)
    && Lower(Strip(c.gate3Sha)) == h.gate3(c.reports.gate3) && Lower(Strip(c.manifestSha)) == h.manifest(c.manifest)
  }

  lemma ImpactName(s: Subject)
    requires ImpactFits(s)
    ensures ImpactOf(s) == if SessionsOfSubject(s) == 0 then "PRESENTATION_ONLY" else "EVIDENCE_ONLY"
  {
    hide NormalizedPaths, SessionsByText, ChangeImpact, Strip, Upper, NineAsserted, RequiredSessions;
    SessionsInText(NormalizedPaths(s.changedPaths), NormalizedPaths(s.reviewedPaths));
    SubjectSessions(s);
  }

  lemma FitsImpact(m: Manifest, r: Reports, git: Git, h: Hashes, o: Outside)
    requires ManifestFits(m, r, git, h, o)
    ensures ImpactFits(m.subject)
  {
    hide SourceFits, TargetFits, GitFits, IdentityFits, ApprovalFits, ImpactFits;
  }

  lemma CarriedIffFits(c: CarriedReport, git: Git, expectedCommit: string, h: Hashes, o: Outside)
    ensures CarriedAccepted(c, git, expectedCommit, h, o) <==> CarriedFits(c, git, expectedCommit, h, o)
  {
    hide ManifestAccepted, ManifestFits, SessionsOfSubject, ImpactOf, ImpactFits, Strip, Lower;
    AcceptedIffFits(c.manifest, c.reports, git, h, o);
    if ManifestFits(c.manifest, c.reports, git, h, o) {
      FitsImpact(c.manifest, c.reports, git, h, o);
      ImpactName(c.manifest.subject);
    }
  }
}
