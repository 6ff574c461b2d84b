/**
 `finalize` of Gate 4 (gate4/runner.py): what is checked before a report is made, and what a
 PASSED one certifies.
 */
module Gate4Finalize {
  import opened Common
  import opened Ordering
  import opened Text
  import EvidenceJournal
  import opened Gate4Events
  import opened Gate4Evidence
  import opened EvidenceRules
  import opened DeltaManifest
  import opened Gate4Report
  import opened Gate4Verdict
  import Gate4Reducer
  import Requalification
  import CarryForward
  import CarryVerdict

  /** The checked-out commit, Git, and the files that are loaded; a carried Gate-3 report is one kind of upstream. */
  datatype Release = Release(
    head: string, clean: bool, carried: Option<CarryForward.CarriedReport>, capabilitySha: string,
    isAncestor: (string, string) -> bool, git: CarryForward.Git, hashes: CarryForward.Hashes)

  datatype FinalizeError =
    | NotExactRelease
    | InputsIncomplete
    | NotAnAncestor
    | GitFailed
    | PathsDiffer
    | PresentationUnbound
    | CapabilityDiffers

  // ---------------------------------------------------------------- the exact release

  ghost predicate ExactRelease(g: Release, up: Upstream, o: Outside) {
    && g.clean && up.result == "PASSED" && up.commitSha == g.head
    && (g.carried.Some? ==> CarryForward.CarriedAccepted(g.carried.value, g.git, g.head, g.hashes, o))
  }

  /** `_exact_release`. */
  method CheckRelease(g: Release, up: Upstream, o: Outside) returns (ok: bool)
    ensures ok <==> ExactRelease(g, up, o)
  {
    hide CarryForward.CarriedAccepted;
    if !g.clean || up.result != "PASSED" || up.commitSha != g.head { return false; }
    if g.carried.Some? {
      var v := CarryForward.ValidateCarriedReport(g.carried.value, g.git, g.head, g.hashes, o);
      return v == [];
    }
    return true;
  }

  // ---------------------------------------------------------------- the Git binding

  function BaseCommit(b: BaselineReport): string { Lower(Strip(b.commitSha)) }

  /** What the separate Git binding reads of a manifest. */
  function Claims(m: ImpactManifest): CarryForward.Manifest {
    CarryForward.Manifest(
      CarryForward.Subject(
        "", m.baselineCommit, m.targetCommit, m.targetTree, "", "", "", m.diffSha,
        m.changedPaths, m.fileReviews, m.reviewedPaths, m.impact, 0, m.invariants, ""),
      m.review, m.subjectSha)
  }

  /** The paths Git prints between baseline and target, in normal form; none where Git fails. */
  function GitPaths(g: Release, b: BaselineReport): seq<string> {
    match g.git(BaseCommit(b), g.head)
    case Err(_) => []
    case Ok(raw) => Requalification.NormalizedPaths(raw.names)
  }

  /**
   The baseline is an ancestor, the manifest lists the paths Git prints, and a presentation change
   is bound file by file.
   */
  ghost predicate BoundToGit(delta: Delta, g: Release) {
    match delta
    case FullQualification => true
    case OneInputMissing => false
    case DeltaRequalification(b, m) =>
      && g.isAncestor(BaseCommit(b), g.head)
      && GitPaths(g, b) != [] && GitPaths(g, b) == Requalification.NormalizedPaths(m.changedPaths)
      && (Upper(Strip(m.impact)) == "PRESENTATION_ONLY" ==>
            CarryForward.GitBindingAccepted(Claims(m), CarryForward.Collect(g.git, BaseCommit(b), g.head, g.hashes)))
  }

  method CheckGitBinding(delta: Delta, g: Release) returns (error: Option<FinalizeError>)
    ensures error == None <==> BoundToGit(delta, g)
    ensures error != Some(CapabilityDiffers) && error != Some(NotExactRelease)
  {
    hide Requalification.NormalizedPaths, Strip, Upper, Lower, CarryForward.Collect,
         CarryForward.GitBindingAccepted, Claims;
    match delta
    case FullQualification => return None;
    case OneInputMissing => return Some(InputsIncomplete);
    case DeltaRequalification(b, m) =>
      var base := BaseCommit(b);
      if !g.isAncestor(base, g.head) { return Some(NotAnAncestor); }
      var raw := g.git(base, g.head);
      if raw.Err? { return Some(GitFailed); }
      var actual := Requalification.NormalizedPaths(raw.value.names);
      if actual == [] || actual != Requalification.NormalizedPaths(m.changedPaths) { return Some(PathsDiffer); }
      if Upper(Strip(m.impact)) == "PRESENTATION_ONLY" {
        var v := CarryForward.ValidateGitBinding(Claims(m), g.git, base, g.head, g.hashes);
        if v != [] { return Some(PresentationUnbound); }
      }
      return None;
  }

  /**
   What being bound means: the paths of Git, not the ones of the manifest, decide how many sessions
   a requalification needs.
   */
  lemma GitDecidesSessions(b: BaselineReport, m: ImpactManifest, g: Release)
    requires BoundToGit(DeltaRequalification(b, m), g)
    requires Requalification.NormalizedPaths(GitPaths(g, b)) == GitPaths(g, b)
    requires Requalification.NormalizedPaths(m.reviewedPaths) == m.reviewedPaths
    ensures var sessions := RequiredSessions(DeltaRequalification(b, m));
      && (sessions == 3 <==> exists p :: p in GitPaths(g, b) && !Requalification.Harmless(p, m.reviewedPaths))
      && (sessions == 1 <==> forall p :: p in GitPaths(g, b) ==> Requalification.Tooling(p))
      && sessions in {0, 1, 3}
  {
    hide Requalification.NormalizedPaths, Requalification.RequiredSessions, Requalification.ChangeImpact, GitPaths,
         CarryForward.GitBindingAccepted, Requalification.Harmless, Requalification.Tooling;
    var paths := GitPaths(g, b);
    SessionsAskedFor(m.(changedPaths := paths));
    assert Impact(m) == Impact(m.(changedPaths := paths));
  }

  /**
   A bound presentation change has, for every path Git prints, a file review with the kind of the
   path and the digests of the source file, the target file and the patch that Git shows.
   */
  lemma BoundPathIsReviewed(b: BaselineReport, m: ImpactManifest, g: Release, p: string)
    requires BoundToGit(DeltaRequalification(b, m), g) && Upper(Strip(m.impact)) == "PRESENTATION_ONLY"
    requires p in GitPaths(g, b) && Lower(Strip(g.head)) == g.head
    ensures g.git(BaseCommit(b), g.head).Ok?
    ensures exists i ::
      && 0 <= i < |m.fileReviews|
      && var (c, raw) := (m.fileReviews[i].change, g.git(BaseCommit(b), g.head).value);
      && Requalification.CleanPath(c.path) == p && c.kind == Requalification.PathKind(p)
      && c.sourceSha == CarryVerdict.DigestOf(raw.sourceFile(p), g.hashes)
      && c.targetSha == CarryVerdict.DigestOf(raw.targetFile(p), g.hashes)
      && c.patchSha == g.hashes.bytes(raw.patch(p))
  {
    StripLowerIdempotent(b.commitSha);
    hide Requalification.NormalizedPaths, Strip, Lower, Upper, Requalification.PathKind, Requalification.CleanPath,
         CarryForward.Collect, CarryForward.GitBindingAccepted;
    CarryVerdict.BindingIff(Claims(m), g.git, BaseCommit(b), g.head, g.hashes);
    var raw := g.git(BaseCommit(b), g.head).value;
    var i :| 0 <= i < |m.fileReviews| && CarryVerdict.ReviewOf(m.fileReviews[i], p, raw, g.hashes);
  }

  // ---------------------------------------------------------------- finalize

  lemma OneLastCapability(t: Trace, a: string, v: bool, b: string, w: bool)
    requires LastCapability(t, a, v) && LastCapability(t, b, w)
    ensures a == b && v == w
  {
  }

  /** The release's capability manifest is the last one in the journal. */
  ghost predicate CapabilityIsLast(t: Trace, g: Release) {
    LastCapability(t, g.capabilitySha, true) || LastCapability(t, g.capabilitySha, false)
  }

  ghost predicate ReadyToReport(delta: Delta, g: Release, up: Upstream, o: Outside) {
    ExactRelease(g, up, o) && BoundToGit(delta, g)
  }

  /**
   The release is clean and is the commit of a PASSED upstream report; a carried one is accepted. A
   requalification starts at an ancestor, lists the very paths Git prints, and is bound file by file
   where it declares a change of the presentation alone.
   */
  ghost predicate ReadyFits(delta: Delta, g: Release, up: Upstream, o: Outside) {
    && g.clean && up.result == "PASSED" && up.commitSha == g.head
    && (g.carried.Some? ==> CarryVerdict.CarriedFits(g.carried.value, g.git, g.head, g.hashes, o))
    && !delta.OneInputMissing?
    && (delta.DeltaRequalification? ==>
          var (b, m) := (delta.baseline, delta.manifest);
          var answer := g.git(Lower(Strip(b.commitSha)), g.head);
          && g.isAncestor(Lower(Strip(b.commitSha)), g.head)
          && answer.Ok? && Requalification.NormalizedPaths(answer.value.names) != []
          && Requalification.NormalizedPaths(answer.value.names) == Requalification.NormalizedPaths(m.changedPaths)
          && (Upper(Strip(m.impact)) == "PRESENTATION_ONLY" ==>
                CarryVerdict.BindingFits(Claims(m), g.git, Lower(Strip(b.commitSha)), g.head, g.hashes)))
  }

  lemma ReadyIff(delta: Delta, g: Release, up: Upstream, o: Outside)
    ensures ReadyToReport(delta, g, up, o) <==> ReadyFits(delta, g, up, o)
  {
    hide Requalification.NormalizedPaths, Strip, Lower, Upper, CarryForward.Collect, CarryForward.GitBindingAccepted,
         CarryForward.CarriedAccepted, CarryVerdict.CarriedFits, CarryVerdict.BindingFits, Claims;
    if g.carried.Some? { CarryVerdict.CarriedIffFits(g.carried.value, g.git, g.head, g.hashes, o); }
    if delta.DeltaRequalification? {
      CarryVerdict.BindingIff(Claims(delta.manifest), g.git, BaseCommit(delta.baseline), g.head, g.hashes);
    }
  }

  /**
   `finalize`: a report is made for a ready release whose capability manifest is the last one of the
   journal, and it is PASSED exactly where the files fit and the recorded trace shows everything that
   is asked for. A PASSED report certifies a sound journal file.
   */
  method Finalize(
      c: Gate4EvidenceCollector, digests: Digests, review: Review, up: Upstream, delta: Delta, g: Release, o: Outside)
    returns (r: Result<(Evidence, Report), FinalizeError>)
    modifies c.journal
    ensures EvidenceJournal.SoundFile(c.journal.cfg, c.journal.file.content.lines) ==>
      (r.Ok? <==> ReadyToReport(delta, g, up, o) && CapabilityIsLast(c.Recorded(), g))
    ensures !ReadyToReport(delta, g, up, o) ==> r.Err? && r.error != CapabilityDiffers
    ensures r.Ok? ==> r.value.0.digests == digests.(commitSha := g.head) && r.value.0.review == review
    ensures r.Ok? ==>
      (r.value.1.passed <==>
         && FilesFit(r.value.0, up, delta, o)
         && TraceFits(c.Recorded(), g.capabilitySha, SessionsNeeded(delta), Carried(delta), o))
    ensures r.Ok? && r.value.1.passed ==> EvidenceJournal.SoundFile(c.journal.cfg, c.journal.file.content.lines)
  {
    hide ExactRelease, BoundToGit, Accepts, FilesFit, TraceFits, LastCapability, SessionsNeeded, Carried;
    var exact := CheckRelease(g, up, o);
    if !exact { return Err(NotExactRelease); }
    var error := CheckGitBinding(delta, g);
    if error.Some? { return Err(error.value); }
    var ev := Gate4Reducer.BuildEvidence(c, digests.(commitSha := g.head), review);
    ghost var t := if ev.audit.Passed() then c.Recorded() else [];
    CapabilityCompared(ev, t, g);
    if ev.runtime.capabilitySha != g.capabilitySha { return Err(CapabilityDiffers); }
    var report := BuildReport(ev, up, delta, o);
    r := Ok((ev, report));
    PassedIff(ev, t, up, delta, o);
    FitMeansAudited(ev, up, delta, o);
  }

  lemma FitMeansAudited(ev: Evidence, up: Upstream, delta: Delta, o: Outside)
    ensures FilesFit(ev, up, delta, o) ==> ev.audit.Passed()
  {
  }

  lemma CapabilityCompared(ev: Evidence, t: Trace, g: Release)
    requires DerivedFrom(ev, t)
    ensures ev.runtime.capabilitySha == g.capabilitySha <==> CapabilityIsLast(t, g)
  {
    hide SessionsDerived, CountersDerived, CapsDerived, OutcomesDerived, LastCapability;
    var sha, verified := ev.runtime.capabilitySha, ev.runtime.capabilitiesVerified;
    if LastCapability(t, g.capabilitySha, true) { OneLastCapability(t, sha, verified, g.capabilitySha, true); }
    if LastCapability(t, g.capabilitySha, false) { OneLastCapability(t, sha, verified, g.capabilitySha, false); }
  }
}
