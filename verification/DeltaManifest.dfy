/**
 Requalification against an earlier Gate-4 report: the reviewed change-impact manifest
 (activation_gates/requalification.py).
 */
module DeltaManifest {
  import opened Common
  import opened Ordering
  import opened Text
  import opened Gate4Evidence
  import opened EvidenceRules
  import opened Requalification
  import CarryForward

  /** An earlier Gate-4 report, with its own canonical digest. */
  datatype BaselineReport = BaselineReport(
    gate: string, result: string, commitSha: string, digest: string,
    sessionDates: seq<string>, entryOutcomes: int, protectedPositions: int, cancelLifecycles: int, review: Review)

  /**
   `subjectDigest` is the digest of everything but the review and the digest recorded for it. The
   target tree, the digest of the difference and the file reviews are there for its Git binding.
   */
  datatype ImpactManifest = ImpactManifest(
    baselineSha: string, baselineCommit: string, targetCommit: string,
    changedPaths: seq<string>, reviewedPaths: seq<string>, impact: string, requiredSessions: Option<int>,
    invariants: map<string, bool>, subjectSha: string, review: Review, subjectDigest: string,
    targetTree: string, diffSha: string, fileReviews: seq<CarryForward.FileReview>)

  function Impact(m: ImpactManifest): string {
    ChangeImpact(NormalizedPaths(m.changedPaths), NormalizedPaths(m.reviewedPaths))
  }

  predicate BaselineMatches(m: ImpactManifest, b: BaselineReport, commit: string) {
    && b.gate == "GATE_4_CONTROLLED_LIVE" && Upper(b.result) == "PASSED" && ValidGitCommitSha(b.commitSha)
    && ValidSha256(m.baselineSha) && Lower(Strip(m.baselineSha)) == b.digest
    && Lower(Strip(m.baselineCommit)) == Lower(Strip(b.commitSha))
    && Lower(Strip(m.targetCommit)) == Lower(Strip(commit))
  }

  ghost predicate PathsAccepted(m: ImpactManifest) {
    var changed, reviewed := NormalizedPaths(m.changedPaths), NormalizedPaths(m.reviewedPaths);
    changed != [] && forall p :: p in reviewed ==> p in changed && ReviewablePath(p)
  }

  predicate ImpactDeclared(m: ImpactManifest) {
    Upper(Strip(m.impact)) == Impact(m) && m.requiredSessions == Some(RequiredSessions(Impact(m)))
  }

  /** A change of the presentation alone is asserted and bound to its review. */
  predicate PresentationBound(m: ImpactManifest) {
    Impact(m) == "PRESENTATION_ONLY" ==>
      && (forall name :: name in BEHAVIOR_INVARIANTS ==> name in m.invariants && m.invariants[name])
      && Lower(Strip(m.subjectSha)) == m.subjectDigest
      && Lower(RemovePrefix(m.review.reference, "sha256:")) == m.subjectDigest
  }

  ghost predicate ManifestAccepted(m: ImpactManifest, b: BaselineReport, commit: string, o: Outside) {
    && BaselineMatches(m, b, commit) && PathsAccepted(m) && ImpactDeclared(m) && PresentationBound(m)
    && ReviewApproved(m.review, o)
  }

  lemma CommitAlreadyTidy(s: string)
    ensures ValidGitCommitSha(Lower(Strip(s))) <==> ValidGitCommitSha(s)
    ensures ValidSha256(Lower(Strip(s))) <==> ValidSha256(s)
  {
    StripLowerIdempotent(s);
  }

  method ValidateBaseline(m: ImpactManifest, b: BaselineReport, commit: string) returns (v: seq<string>)
    ensures v == [] <==> BaselineMatches(m, b, commit)
  {
    CommitAlreadyTidy(b.commitSha);
    CommitAlreadyTidy(m.baselineSha);
    hide Strip, Lower, Upper, ValidGitCommitSha, ValidSha256;
    var baselineCommit, digest := Lower(Strip(b.commitSha)), Lower(Strip(m.baselineSha));
    v := Require([], b.gate == "GATE_4_CONTROLLED_LIVE" && Upper(b.result) == "PASSED"
                 && ValidGitCommitSha(baselineCommit), "gate4_requalification_baseline");
    v := Require(v, ValidSha256(digest) && digest == b.digest, "gate4_requalification_baseline");
    v := Require(v, Lower(Strip(m.baselineCommit)) == baselineCommit, "gate4_requalification_identity");
    v := Require(v, Lower(Strip(m.targetCommit)) == Lower(Strip(commit)), "gate4_requalification_identity");
  }

  method ValidatePaths(m: ImpactManifest) returns (v: seq<string>)
    ensures v == [] <==> PathsAccepted(m)
  {
    hide NormalizedPaths, ReviewablePath;
    var changed, reviewed := NormalizedPaths(m.changedPaths), NormalizedPaths(m.reviewedPaths);
    v := Require([], changed != [], "gate4_change_impact");
    var present, reviewable := true, true;
    for n := 0 to |reviewed|
      invariant present <==> forall i :: 0 <= i < n ==> reviewed[i] in changed
      invariant reviewable <==> forall i :: 0 <= i < n ==> ReviewablePath(reviewed[i])
    {
      present := present && reviewed[n] in changed;
      reviewable := reviewable && ReviewablePath(reviewed[n]);
    }
    v := Require(v, present, "gate4_change_impact");
    v := Require(v, reviewable, "gate4_change_impact");
  }

  /** `validate_gate4_requalification_manifest`. */
  method ValidateImpactManifest(m: ImpactManifest, b: BaselineReport, commit: string, o: Outside)
    returns (v: seq<string>, sessions: int, impact: string)
    ensures v == [] <==> ManifestAccepted(m, b, commit, o)
    ensures impact == Impact(m) && sessions == RequiredSessions(impact)
  {
    hide BaselineMatches, PathsAccepted, ReviewApproved, Strip, Lower, Upper, NormalizedPaths, ChangeImpact,
         RequiredSessions;
    var w := ValidateBaseline(m, b, commit);
    var x := ValidatePaths(m);
    v := w + x;
    impact := ChangeImpact(NormalizedPaths(m.changedPaths), NormalizedPaths(m.reviewedPaths));
    sessions := RequiredSessions(impact);
    v := Require(v, Upper(Strip(m.impact)) == impact, "gate4_change_impact");
    v := Require(v, m.requiredSessions == Some(sessions), "gate4_change_impact");
    if impact == "PRESENTATION_ONLY" {
      v := Require(v, forall name :: name in BEHAVIOR_INVARIANTS ==> name in m.invariants && m.invariants[name],
                   "presentation_only_behavior");
      v := Require(v, Lower(Strip(m.subjectSha)) == m.subjectDigest, "presentation_only_review");
      v := Require(v, Lower(RemovePrefix(m.review.reference, "sha256:")) == m.subjectDigest,
                   "presentation_only_review");
    }
    w := ValidateIndependentReview(m.review, o);
    v := v + w;
  }

  // ---------------------------------------------------------------- what the classification means

  /**
   How many sessions a manifest over settled paths asks for: three exactly where some path is
   neither tooling nor a static asset nor reviewed code of a user interface, one exactly where every
   path is tooling.
   */
  lemma SessionsAskedFor(m: ImpactManifest)
    requires NormalizedPaths(m.changedPaths) == m.changedPaths && m.changedPaths != []
    requires NormalizedPaths(m.reviewedPaths) == m.reviewedPaths
    ensures RequiredSessions(Impact(m)) == 3 <==> exists p :: p in m.changedPaths && !Harmless(p, m.reviewedPaths)
    ensures RequiredSessions(Impact(m)) == 1 <==> forall p :: p in m.changedPaths ==> Tooling(p)
    ensures RequiredSessions(Impact(m)) in {0, 1, 3}
  {
    SessionsInText(m.changedPaths, m.reviewedPaths);
    hide RequiredSessions, NormalizedPaths, ChangeImpact, Tooling, StaticAsset, UiCode;
    if forall p :: p in m.changedPaths ==> Tooling(p) { assert m.changedPaths[0] in m.changedPaths; }
  }
}
