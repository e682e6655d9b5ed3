/**
 * The enforcement sub-agents that compute something from their inputs: the
 * UI consistency monitor, the chemistry logic validator, the logic-flow
 * tracer and the certificate generator with its validator.
 */
module EnforcementSubAgents {
  import opened Wrappers
  import opened Text
  import EC = EnforcementChamber
  import Vocabulary

  // ---------------------------------------------------------------------
  // Violations raised by the sub-agents
  // ---------------------------------------------------------------------

  /** `VIO-UI-RUNID`, `VIO-UI-SEAL`, `VIO-UI-REGIME`, `VIO-CHEM-REGIME`, `VIO-CHEM-SEAL`. */
  datatype Kind = UiRunId | UiSeal | UiRegime | ChemRegime | ChemSeal

  datatype Violation = Violation(kind: Kind, severity: EC.Severity, rule: Option<string>, message: string)

  /** Only the run-id and regime mismatches of the monitor are HIGH; every other kind is CRITICAL. */
  function SeverityOf(k: Kind): EC.Severity
  {
    if k == UiRunId || k == UiRegime then EC.High else EC.Critical
  }

  /** The violation a sub-agent records for kind `k`. */
  function Raise(k: Kind): (v: Violation)
    ensures v.kind == k && v.severity == SeverityOf(k)
  {
    match k
    case UiRunId => Violation(UiRunId, EC.High, None, "UI runId mismatch")
    case UiSeal => Violation(UiSeal, EC.Critical, None, "UI seal state mismatch")
    case UiRegime => Violation(UiRegime, EC.High, None, "UI regime mismatch")
    case ChemRegime => Violation(ChemRegime, EC.Critical, Some(Vocabulary.RulePrefix + "6"), "HF must be FLUORIDE_ACID")
    case ChemSeal => Violation(ChemSeal, EC.Critical, Some(Vocabulary.RulePrefix + "13"), "FLUORIDE_ACID requires SEALLESS")
  }

  /** One check: the violation of kind `k` when `failed`, nothing otherwise. */
  function When(failed: bool, k: Kind): (r: seq<Violation>)
    ensures r == [] <==> !failed
    ensures forall v :: v in r ==> v == Raise(k)
  {
    if failed then [Raise(k)] else []
  }

  /** Some violation of `vs` is of kind `k`. */
  predicate Reports(vs: seq<Violation>, k: Kind)
  {
    exists v :: v in vs && v.kind == k
  }

  // ---------------------------------------------------------------------
  // ENF-1.1: UI consistency monitor
  // ---------------------------------------------------------------------

  /** What the UI shows; `None` stands for a missing property. */
  datatype UiState = UiState(runId: Option<string>, sealState: Option<string>, displayedRegime: Option<string>)

  /** What the engine produced. */
  datatype EngineOutput = EngineOutput(runId: Option<string>, sealEligibilityState: Option<string>,
                                       primaryRegime: Option<string>)

  datatype MonitorReport = MonitorReport(monitoredAt: string, monitoredBy: string, violations: seq<Violation>,
                                         isConsistent: bool)

  /** `monitor(uiState, engineOutput)`; the clock reading `now` is a parameter. */
  function Monitor(ui: UiState, engine: EngineOutput, now: string): (r: MonitorReport)
    ensures r.isConsistent <==>
      ui.runId == engine.runId && ui.sealState == engine.sealEligibilityState
      && ui.displayedRegime == engine.primaryRegime
    ensures r.isConsistent <==> r.violations == []
    ensures |r.violations| <= 3 && r.monitoredBy == "ENF-1.1" && r.monitoredAt == now
  {
    var vs := When(ui.runId != engine.runId, UiRunId)
      + When(ui.sealState != engine.sealEligibilityState, UiSeal)
      + When(ui.displayedRegime != engine.primaryRegime, UiRegime);
    MonitorReport(now, "ENF-1.1", vs, |vs| == 0)
  }

  /**
   * Each mismatch is reported under its own kind and only then; a seal
   * mismatch is the one CRITICAL finding of the monitor.
   */
  lemma MonitorReportsEachMismatch(ui: UiState, engine: EngineOutput, now: string)
    ensures Reports(Monitor(ui, engine, now).violations, UiRunId) <==> ui.runId != engine.runId
    ensures Reports(Monitor(ui, engine, now).violations, UiSeal) <==> ui.sealState != engine.sealEligibilityState
    ensures Reports(Monitor(ui, engine, now).violations, UiRegime) <==> ui.displayedRegime != engine.primaryRegime
    ensures !Reports(Monitor(ui, engine, now).violations, ChemRegime)
    ensures forall v :: v in Monitor(ui, engine, now).violations ==> (v.severity == EC.Critical <==> v.kind == UiSeal)
  {
    var vs := Monitor(ui, engine, now).violations;
    if ui.runId != engine.runId {
      assert Raise(UiRunId) in vs;
    }
    if ui.sealState != engine.sealEligibilityState {
      assert Raise(UiSeal) in vs;
    }
    if ui.displayedRegime != engine.primaryRegime {
      assert Raise(UiRegime) in vs;
    }
  }

  // ---------------------------------------------------------------------
  // ENF-1.2: chemistry logic validator
  // ---------------------------------------------------------------------

  /** The assessment fields the validator reads. */
  datatype ChemAssessment = ChemAssessment(fluidId: Option<string>, primaryRegime: Option<string>,
                                           sealState: Option<string>)

  const FluorideAcid := "FLUORIDE_ACID"

  /** `assessment.fluidId?.toLowerCase().includes('hf')`. */
  predicate NamesHf(a: ChemAssessment)
  {
    a.fluidId.Some? && Includes(a.fluidId.value, "hf")
  }

  /** Rule 6 of the V15 policy: an HF fluid must be classified FLUORIDE_ACID. */
  predicate HfRegimeRuleBroken(a: ChemAssessment)
  {
    NamesHf(a) && a.primaryRegime != Some(FluorideAcid)
  }

  /** Rule 13 of the V15 policy: FLUORIDE_ACID allows only the sealless and suppressed seal states. */
  predicate HfSealRuleBroken(a: ChemAssessment)
  {
    a.primaryRegime == Some(FluorideAcid) && !EC.HfSealAllowed(a.sealState)
  }

  datatype ValidationReport = ValidationReport(validatedAt: string, validatedBy: string, violations: seq<Violation>,
                                               isCompliant: bool)

  /** `validate(assessment)`; the clock reading `now` is a parameter. */
  function Validate(a: ChemAssessment, now: string): (r: ValidationReport)
    ensures r.isCompliant <==> !HfRegimeRuleBroken(a) && !HfSealRuleBroken(a)
    ensures r.isCompliant <==> r.violations == []
    ensures forall v :: v in r.violations ==> v.severity == EC.Critical
    ensures |r.violations| <= 2 && r.validatedBy == "ENF-1.2"
  {
    var vs := When(HfRegimeRuleBroken(a), ChemRegime) + When(HfSealRuleBroken(a), ChemSeal);
    ValidationReport(now, "ENF-1.2", vs, |vs| == 0)
  }

  /** Each rule is reported under its own kind exactly when it is broken. */
  lemma ValidateReportsEachRule(a: ChemAssessment, now: string)
    ensures Reports(Validate(a, now).violations, ChemRegime) <==> HfRegimeRuleBroken(a)
    ensures Reports(Validate(a, now).violations, ChemSeal) <==> HfSealRuleBroken(a)
  {
    var vs := Validate(a, now).violations;
    if HfRegimeRuleBroken(a) {
      assert Raise(ChemRegime) in vs;
    }
    if HfSealRuleBroken(a) {
      assert Raise(ChemSeal) in vs;
    }
  }

  /** An HF fluid is compliant exactly when it is FLUORIDE_ACID with a sealless or suppressed seal state. */
  lemma HfFluidNeedsFluorideAcidAndNoSeal(a: ChemAssessment, now: string)
    requires NamesHf(a)
    ensures Validate(a, now).isCompliant <==>
      a.primaryRegime == Some(FluorideAcid) && EC.HfSealAllowed(a.sealState)
  {
  }

  /** The fluid id is matched without regard to case: `HF` and `hf` are both HF. */
  lemma UpperCaseHfIsHf(now: string)
    ensures !Validate(ChemAssessment(Some("HF"), Some("ACIDIC"), None), now).isCompliant
    ensures Validate(ChemAssessment(Some("hf"), Some(FluorideAcid), Some("SEALLESS_REQUIRED")), now).isCompliant
  {
    assert MatchesAt("HF", "hf", 0, 0);
  }

  /** The seal rule is the one the enforcement chamber's `detect` applies to the same regime and seal state. */
  lemma SealRuleAgreesWithChamber(a: EC.Assessment, fluidId: Option<string>, now: string)
    ensures Reports(Validate(ChemAssessment(fluidId, a.regime, a.sealState), now).violations, ChemSeal)
            <==> EC.HfSealViolationIn(a)
  {
    ValidateReportsEachRule(ChemAssessment(fluidId, a.regime, a.sealState), now);
  }

  // ---------------------------------------------------------------------
  // ENF-2.1: logic-flow analyzer
  // ---------------------------------------------------------------------

  /** `executionStages`: the nineteen stages of an assessment run, in order. */
  function ExecutionStages(): seq<string>
  {
    ["0. Input normalization", "1. Fluid classification", "2. Regime resolution",
     "3. Material instantiation", "4. Failure-mode mapping", "5. Temperature escalation",
     "6. Hard chemical gates", "7. Conditional gates", "8. Confidence caps",
     "9. Archetype locking", "10. Candidate set construction", "11. Seal eligibility",
     "12. Seal admissibility", "13. Recommendation eligibility", "14. TCO eligibility",
     "15. Recommendation ranking", "16. FAO generation", "17. UI/PDF rendering", "18. Invariant validation"]
  }

  /** One stage entry of an execution log; `None` stands for a missing `executed`. */
  datatype LogStage = LogStage(executed: Option<bool>)

  /** An execution log; a missing `stages`, or a missing entry in it, is `None`. */
  datatype ExecutionLog = ExecutionLog(stages: Option<seq<Option<LogStage>>>)

  /** `executionLog?.stages?.[i]?.executed || false`. */
  predicate Executed(log: Option<ExecutionLog>, i: nat)
  {
    && log.Some?
    && log.value.stages.Some?
    && i < |log.value.stages.value|
    && log.value.stages.value[i].Some?
    && log.value.stages.value[i].value.executed == Some(true)
  }

  datatype StageTrace = StageTrace(stageNumber: nat, stageName: string, executed: bool)

  datatype Trace = Trace(traceId: string, violationId: Option<string>, tracedBy: string, stages: seq<StageTrace>)

  /**
   * `traceExecution(violation, executionLog)`: one entry per stage, numbered
   * from 0 and in order, each executed exactly when the log says so. The
   * trace id, built from the clock, is a parameter.
   */
  method TraceExecution(violationId: Option<string>, log: Option<ExecutionLog>, traceId: string) returns (t: Trace)
    ensures t.traceId == traceId && t.violationId == violationId && t.tracedBy == "ENF-2.1"
    ensures |t.stages| == |ExecutionStages()| == 19
    ensures forall i :: 0 <= i < |t.stages| ==>
      t.stages[i].stageNumber == i && t.stages[i].stageName == ExecutionStages()[i]
      && (t.stages[i].executed <==> Executed(log, i))
  {
    var names := ExecutionStages();
    var stages: seq<StageTrace> := [];
    var i := 0;
    while i < |names|
      invariant 0 <= i <= |names|
      invariant |stages| == i
      invariant forall j :: 0 <= j < i ==> stages[j] == StageTrace(j, names[j], Executed(log, j))
    {
      stages := stages + [StageTrace(i, names[i], Executed(log, i))];
      i := i + 1;
    }
    t := Trace(traceId, violationId, "ENF-2.1", stages);
  }

  // ---------------------------------------------------------------------
  // ENF-5.2: certificate generator
  // ---------------------------------------------------------------------

  /** The test-gate result the certificate copies; `None` stands for a missing property. */
  datatype TestResults = TestResults(passed: Option<int>, testCount: Option<int>, gateStatus: Option<string>)

  /** A violation as the certificate sees it: a missing `resolved` reads as unresolved. */
  datatype TrackedViolation = TrackedViolation(resolved: bool)

  datatype DeploymentRef = DeploymentRef(id: string, version: string, commitHash: string)

  datatype Compliance = Compliance(v15Compliant: bool, goldenTestGatePassed: bool, deploymentAllowed: bool)

  datatype Certificate = Certificate(
    certificateId: string,
    issuedAt: int,
    expiresAt: int,
    deployment: DeploymentRef,
    testResults: TestResults,
    violationsTotal: nat,
    unresolved: nat,
    compliance: Compliance)

  /** Thirty days in milliseconds: a certificate's validity. */
  const ThirtyDays := 30 * 24 * 60 * 60 * 1000

  /** The number of violations not marked resolved. */
  function UnresolvedCount(vs: seq<TrackedViolation>): (n: nat)
    ensures n <= |vs|
    ensures n == 0 <==> forall v :: v in vs ==> v.resolved
  {
    if vs == [] then 0 else (if vs[0].resolved then 0 else 1) + UnresolvedCount(vs[1..])
  }

  /**
   * `generateCertificate(deployment, testResults, violations)` without its
   * signature hash; the clock reading `now` (in milliseconds) and the
   * certificate id built from it are parameters.
   */
  function GenerateCertificate(deployment: DeploymentRef, tr: TestResults, vs: seq<TrackedViolation>,
                               certificateId: string, now: int): (c: Certificate)
    ensures c.compliance.v15Compliant <==> tr.passed == Some(150)
    ensures c.compliance.goldenTestGatePassed <==> tr.gateStatus == Some("PASSED")
    ensures c.compliance.deploymentAllowed <==>
      tr.gateStatus == Some("PASSED") && forall v :: v in vs ==> v.resolved
    ensures c.violationsTotal == |vs| && c.unresolved <= c.violationsTotal
    ensures c.issuedAt == now && c.expiresAt == now + ThirtyDays
  {
    var unresolved := UnresolvedCount(vs);
    Certificate(certificateId, now, now + ThirtyDays, deployment, tr, |vs|, unresolved,
                Compliance(tr.passed == Some(150), tr.gateStatus == Some("PASSED"),
                           tr.gateStatus == Some("PASSED") && unresolved == 0))
  }

  datatype CertificateCheck = CertificateCheck(certificateId: string, valid: bool, deploymentAllowed: bool,
                                               issues: seq<string>)

  /** `validateCertificate(cert)` at clock reading `now`. */
  function ValidateCertificate(c: Certificate, now: int): (r: CertificateCheck)
    ensures r.valid <==> r.issues == []
    ensures r.valid <==> now <= c.expiresAt && c.compliance.goldenTestGatePassed && c.unresolved == 0
    ensures r.deploymentAllowed == r.valid && r.certificateId == c.certificateId
    ensures |r.issues| <= 3
  {
    var issues := (if c.expiresAt < now then ["Certificate expired"] else [])
      + (if !c.compliance.goldenTestGatePassed then ["Golden test gate not passed"] else [])
      + (if c.unresolved > 0 then [NatToString(c.unresolved) + " unresolved violations"] else []);
    CertificateCheck(c.certificateId, issues == [], issues == [], issues)
  }

  /** Within its thirty days a certificate validates exactly when it was issued as deployable. */
  lemma FreshCertificateValidatesAsIssued(deployment: DeploymentRef, tr: TestResults, vs: seq<TrackedViolation>,
                                          certificateId: string, issued: int, now: int)
    requires issued <= now <= issued + ThirtyDays
    ensures var c := GenerateCertificate(deployment, tr, vs, certificateId, issued);
      ValidateCertificate(c, now).valid == c.compliance.deploymentAllowed
  {
  }

  /** After its thirty days no certificate validates. */
  lemma ExpiredCertificateIsRefused(deployment: DeploymentRef, tr: TestResults, vs: seq<TrackedViolation>,
                                    certificateId: string, issued: int, now: int)
    requires now > issued + ThirtyDays
    ensures !ValidateCertificate(GenerateCertificate(deployment, tr, vs, certificateId, issued), now).valid
    ensures "Certificate expired" in ValidateCertificate(GenerateCertificate(deployment, tr, vs, certificateId, issued), now).issues
  {
  }
}
