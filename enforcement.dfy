/**
 * The enforcement chamber's gates: policy-violation detection on one
 * assessment, the deployment gate over violations, validation of a fix
 * proposal, and the audit certificate's deployment check.
 */
module EnforcementChamber {
  import opened Wrappers
  import opened Text

  // ---------------------------------------------------------------------
  // Violation detection
  // ---------------------------------------------------------------------

  /** The parts of an assessment `detect` reads; `None` stands for a missing property. */
  datatype UiOutput = UiOutput(sealState: Option<string>, runId: Option<string>)

  datatype Assessment = Assessment(
    uiOutput: Option<UiOutput>,
    engineSealState: Option<Option<string>>,
    pdfRunId: Option<Option<string>>,
    regime: Option<string>,
    sealState: Option<string>,
    tcoRanking: Option<seq<string>>,
    failedMaterials: Option<seq<string>>)

  datatype ViolationType = VioUi | VioEng | VioGov

  datatype Severity = Low | Medium | High | Critical

  /** What a violation is about, with the values it compares. */
  datatype Details =
    | SealMismatch(ui: Option<string>, engine: Option<string>)
    | RunIdMismatch(uiRun: Option<string>, pdfRun: Option<string>)
    | RegimeSeal(regime: string, seal: Option<string>)
    | FailedInTco(ids: seq<string>)

  datatype Violation = Violation(vtype: ViolationType, severity: Severity, message: string, details: Details)

  /** The two seal states an HF (FLUORIDE_ACID) assessment may carry. */
  predicate HfSealAllowed(seal: Option<string>)
  {
    seal == Some("SEALLESS_REQUIRED") || seal == Some("SEAL_SELECTION_SUPPRESSED")
  }

  /** The ids of `tco` that `failed` lists, in ranking order. */
  function FailedIds(tco: seq<string>, failed: Option<seq<string>>): (r: seq<string>)
    ensures forall id :: id in r <==> id in tco && failed.Some? && id in failed.value
  {
    if tco == [] then []
    else (if failed.Some? && tco[0] in failed.value then [tco[0]] else []) + FailedIds(tco[1..], failed)
  }

  /** The UI and the engine disagree on the seal state. */
  predicate SealMismatchIn(a: Assessment)
  {
    a.uiOutput.Some? && a.engineSealState.Some? && a.uiOutput.value.sealState != a.engineSealState.value
  }

  /** The UI and the PDF carry different run ids. */
  predicate RunIdMismatchIn(a: Assessment)
  {
    a.uiOutput.Some? && a.pdfRunId.Some? && a.uiOutput.value.runId != a.pdfRunId.value
  }

  /** An HF assessment whose seal state is neither sealless nor suppressed. */
  predicate HfSealViolationIn(a: Assessment)
  {
    a.regime == Some("FLUORIDE_ACID") && !HfSealAllowed(a.sealState)
  }

  /** The TCO ranking promotes a failed material. */
  predicate FailedInTcoIn(a: Assessment)
  {
    a.tcoRanking.Some? && FailedIds(a.tcoRanking.value, a.failedMaterials) != []
  }

  /** The four checks `detect` runs, in order. */
  datatype Check = SealCheck | RunIdCheck | HfSealCheck | TcoCheck

  predicate Fires(a: Assessment, c: Check)
  {
    match c
    case SealCheck => SealMismatchIn(a)
    case RunIdCheck => RunIdMismatchIn(a)
    case HfSealCheck => HfSealViolationIn(a)
    case TcoCheck => FailedInTcoIn(a)
  }

  function CheckOf(d: Details): Check
  {
    match d
    case SealMismatch(_, _) => SealCheck
    case RunIdMismatch(_, _) => RunIdCheck
    case RegimeSeal(_, _) => HfSealCheck
    case FailedInTco(_) => TcoCheck
  }

  /** The violation check `c` adds when it fires. */
  function ViolationOf(a: Assessment, c: Check): (v: Violation)
    requires Fires(a, c)
    ensures CheckOf(v.details) == c
    ensures (v.vtype == VioUi && v.severity == High) || (v.vtype == VioEng && v.severity == Critical)
    ensures v.severity == Critical <==> c == HfSealCheck || c == TcoCheck
  {
    match c
    case SealCheck =>
      Violation(VioUi, High, "UI seal state does not match engine output",
                SealMismatch(a.uiOutput.value.sealState, a.engineSealState.value))
    case RunIdCheck =>
      Violation(VioUi, High, "UI and PDF have different runIds",
                RunIdMismatch(a.uiOutput.value.runId, a.pdfRunId.value))
    case HfSealCheck =>
      Violation(VioEng, Critical, "HF regime must have SEALLESS or SUPPRESSED seals",
                RegimeSeal("FLUORIDE_ACID", a.sealState))
    case TcoCheck =>
      Violation(VioEng, Critical, "TCO ranking includes FAILED materials",
                FailedInTco(FailedIds(a.tcoRanking.value, a.failedMaterials)))
  }

  /** What check `c` contributes: its violation when it fires, nothing otherwise. */
  function Run(a: Assessment, c: Check): (r: seq<Violation>)
    ensures |r| <= 1
    ensures (exists v :: v in r && CheckOf(v.details) == c) <==> Fires(a, c)
    ensures forall v :: v in r ==> CheckOf(v.details) == c
  {
    if Fires(a, c) then [ViolationOf(a, c)] else []
  }

  /** `detect(assessment)`: the four checks, in order, each adding at most one violation. */
  function Detect(a: Assessment): (r: seq<Violation>)
    ensures |r| <= 4
    ensures forall v :: v in r <==> exists c :: v in Run(a, c)
  {
    Run(a, SealCheck) + Run(a, RunIdCheck) + Run(a, HfSealCheck) + Run(a, TcoCheck)
  }

  /** Every violation `detect` reports comes from the check of its kind, and is a
      HIGH UI violation or a CRITICAL engineering one, CRITICAL exactly for the HF-seal and TCO checks. */
  lemma DetectedViolationsAreTyped(a: Assessment, v: Violation)
    requires v in Detect(a)
    ensures Fires(a, CheckOf(v.details)) && v == ViolationOf(a, CheckOf(v.details))
    ensures (v.vtype == VioUi && v.severity == High) || (v.vtype == VioEng && v.severity == Critical)
    ensures v.severity == Critical <==> CheckOf(v.details) == HfSealCheck || CheckOf(v.details) == TcoCheck
  {
  }

  /** `detect` reports a violation of a check's kind exactly when that check fires. */
  lemma DetectReportsFiringChecks(a: Assessment, c: Check)
    ensures (exists v :: v in Detect(a) && CheckOf(v.details) == c) <==> Fires(a, c)
  {
    if Fires(a, c) {
      var v := ViolationOf(a, c);
      assert v in Run(a, c);
      assert v in Detect(a);
    }
  }

  // ---------------------------------------------------------------------
  // Deployment gate
  // ---------------------------------------------------------------------

  /** The number of violations of severity `s`. */
  function CountOf(vs: seq<Violation>, s: Severity): (n: nat)
    ensures n <= |vs|
    ensures n == 0 <==> forall v :: v in vs ==> v.severity != s
  {
    if vs == [] then 0 else (if vs[0].severity == s then 1 else 0) + CountOf(vs[1..], s)
  }

  datatype Decision = Decision(allowed: bool, reason: Option<string>)

  /** `canDeploy(violations)`: no CRITICAL and no HIGH violation; the CRITICAL count is reported first. */
  function CanDeploy(vs: seq<Violation>): (d: Decision)
    ensures d.allowed <==> forall v :: v in vs ==> v.severity != Critical && v.severity != High
    ensures d.allowed <==> d.reason.None?
    ensures CountOf(vs, Critical) > 0 ==> d.reason == Some(NatToString(CountOf(vs, Critical)) + " CRITICAL violations")
    ensures CountOf(vs, Critical) == 0 && CountOf(vs, High) > 0 ==>
      d.reason == Some(NatToString(CountOf(vs, High)) + " HIGH violations")
  {
    var critical := CountOf(vs, Critical);
    var high := CountOf(vs, High);
    if critical > 0 then Decision(false, Some(NatToString(critical) + " CRITICAL violations"))
    else if high > 0 then Decision(false, Some(NatToString(high) + " HIGH violations"))
    else Decision(true, None)
  }

  /** An assessment may be deployed exactly when none of the four checks fires. */
  lemma DetectThenDeploy(a: Assessment)
    ensures CanDeploy(Detect(a)).allowed <==> forall c :: !Fires(a, c)
  {
    var r := Detect(a);
    forall c | Fires(a, c)
      ensures !CanDeploy(r).allowed
    {
      DetectReportsFiringChecks(a, c);
      var v :| v in r && CheckOf(v.details) == c;
      DetectedViolationsAreTyped(a, v);
    }
    if !CanDeploy(r).allowed {
      var v :| v in r && (v.severity == Critical || v.severity == High);
      DetectedViolationsAreTyped(a, v);
    }
  }

  /** An HF assessment with an ordinary seal state always blocks deployment, on its CRITICAL count. */
  lemma HfWithSealBlocks(a: Assessment)
    requires a.regime == Some("FLUORIDE_ACID") && !HfSealAllowed(a.sealState)
    ensures !CanDeploy(Detect(a)).allowed
    ensures CountOf(Detect(a), Critical) > 0
  {
    DetectReportsFiringChecks(a, HfSealCheck);
    var v :| v in Detect(a) && CheckOf(v.details) == HfSealCheck;
    DetectedViolationsAreTyped(a, v);
  }

  // ---------------------------------------------------------------------
  // Fix validation
  // ---------------------------------------------------------------------

  /** One prohibited fix pattern and the reason it is refused. */
  datatype Prohibited = Prohibited(pattern: string, reason: string)

  /** `prohibitedPatterns`, in order. */
  function ProhibitedPatterns(): seq<Prohibited>
  {
    [Prohibited("if (fluidId === \"specific-fluid\")", "Fluid-specific conditionals do not scale"),
     Prohibited("try { } catch { return default }", "Silencing errors hides root cause"),
     Prohibited("// TODO: fix later", "Deferred fixes accumulate technical debt"),
     Prohibited("setTimeout", "Timing hacks indicate race condition not addressed"),
     Prohibited("localStorage", "Client storage causes state inconsistency")]
  }

  /** The issues for the patterns of `ps` that `code` contains, in order. */
  function PatternIssues(code: string, ps: seq<Prohibited>): (r: seq<string>)
    ensures |r| <= |ps|
    ensures r == [] <==> forall p :: p in ps ==> !Contains(code, p.pattern)
  {
    if ps == [] then []
    else (if Contains(code, ps[0].pattern) then ["Fix contains prohibited pattern: " + ps[0].reason] else [])
         + PatternIssues(code, ps[1..])
  }

  /** `fix.verification`; a missing object reads every flag as false. */
  datatype Verification = Verification(goldenTestsPass: bool, regressionTestsPass: bool, determinismVerified: bool)

  datatype Fix = Fix(code: Option<string>, verification: Option<Verification>, technicalArchitectureApproval: Option<bool>)

  datatype FixReview = FixReview(approved: bool, issues: seq<string>)

  /** The prohibited-pattern issues of `validateFix`: none when the fix has no code. */
  function CodeIssues(code: Option<string>): (r: seq<string>)
    ensures r == [] <==> code.None? || forall p :: p in ProhibitedPatterns() ==> !Contains(code.value, p.pattern)
  {
    if code.Some? then PatternIssues(code.value, ProhibitedPatterns()) else []
  }

  /** The verification issues of `validateFix`: one per flag that is not set, all three without a verification. */
  function VerificationIssues(v: Option<Verification>): (r: seq<string>)
    ensures r == [] <==> v.Some? && v.value.goldenTestsPass && v.value.regressionTestsPass && v.value.determinismVerified
    ensures v.None? ==> |r| == 3
  {
    var w := v.GetOr(Verification(false, false, false));
    (if !w.goldenTestsPass then ["Golden tests must pass"] else [])
    + (if !w.regressionTestsPass then ["Regression tests must pass"] else [])
    + (if !w.determinismVerified then ["Determinism must be verified"] else [])
  }

  /** `validateFix(fix)`. */
  function ValidateFix(fix: Fix): (r: FixReview)
    ensures r.approved <==> r.issues == []
    ensures r.approved <==>
      && (fix.code.None? || forall p :: p in ProhibitedPatterns() ==> !Contains(fix.code.value, p.pattern))
      && fix.verification.Some?
      && fix.verification.value.goldenTestsPass
      && fix.verification.value.regressionTestsPass
      && fix.verification.value.determinismVerified
      && fix.technicalArchitectureApproval == Some(true)
  {
    var issues := CodeIssues(fix.code) + VerificationIssues(fix.verification)
      + (if fix.technicalArchitectureApproval != Some(true) then ["Technical Architecture approval required"] else []);
    FixReview(issues == [], issues)
  }

  /** A fix whose code uses `setTimeout` is refused, whatever else it has. */
  lemma TimingHackIsRefused(fix: Fix)
    requires fix.code.Some? && Contains(fix.code.value, "setTimeout")
    ensures !ValidateFix(fix).approved
  {
    assert ProhibitedPatterns()[3] in ProhibitedPatterns();
  }

  // ---------------------------------------------------------------------
  // Audit certificate check
  // ---------------------------------------------------------------------

  /** The certificate fields `validateForDeployment` reads. */
  datatype Certificate = Certificate(certificateId: string, goldenTestGatePassed: bool, unresolvedCount: int,
                                     regressionGuardianApproved: bool)

  datatype DeploymentCheck = DeploymentCheck(deploymentAllowed: bool, issues: seq<string>, certificateId: string)

  /** `validateForDeployment(cert)`. */
  function ValidateForDeployment(cert: Certificate): (r: DeploymentCheck)
    ensures r.deploymentAllowed <==> r.issues == []
    ensures r.deploymentAllowed <==>
      cert.goldenTestGatePassed && cert.unresolvedCount <= 0 && cert.regressionGuardianApproved
    ensures |r.issues| <= 3 && r.certificateId == cert.certificateId
    ensures cert.unresolvedCount > 0 ==> IntToString(cert.unresolvedCount) + " unresolved violations" in r.issues
  {
    var issues := (if !cert.goldenTestGatePassed then ["Golden test gate not passed"] else [])
      + (if cert.unresolvedCount > 0 then [IntToString(cert.unresolvedCount) + " unresolved violations"] else [])
      + (if !cert.regressionGuardianApproved then ["Regression Guardian approval missing"] else []);
    DeploymentCheck(issues == [], issues, cert.certificateId)
  }
}
