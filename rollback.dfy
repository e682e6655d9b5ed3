/**
 * Deployment history and rollback: a bounded, newest-first list of
 * deployments with their statuses, the automatic rollback triggers, and
 * the status changes a rollback makes.
 */
module Rollback {
  import opened Wrappers

  // ---------------------------------------------------------------------
  // Deployments
  // ---------------------------------------------------------------------

  datatype DeployStatus = Active | Superseded | RolledBack

  /**
   * One history entry. `healthStatus` is `healthAtDeploy?.status`;
   * `goldenTestsPass` is `None` when the caller left it undefined.
   */
  datatype Deployment = Deployment(
    id: string,
    timestamp: string,
    version: string,
    commitHash: string,
    environment: string,
    status: DeployStatus,
    healthStatus: Option<string>,
    certificateId: Option<string>,
    goldenTestsPass: Option<bool>,
    rolledBackAt: Option<string>,
    rollbackId: Option<string>)

  /** What a caller passes to `record`; an empty `environment` is as good as none. */
  datatype DeploymentInfo = DeploymentInfo(
    version: string,
    commitHash: string,
    environment: Option<string>,
    healthStatus: Option<string>,
    certificateId: Option<string>,
    goldenTestsPass: Option<bool>)

  /** `maxHistory`: the number of deployments kept. */
  const MaxHistory := 20

  /** The entry `record` builds: active, in `production` unless another environment is named. */
  function NewRecord(info: DeploymentInfo, id: string, now: string): (d: Deployment)
    ensures d.status == Active && d.id == id && d.version == info.version
    ensures d.environment == if info.environment.None? || info.environment.value == "" then "production" else info.environment.value
  {
    var env := if info.environment.Some? && info.environment.value != "" then info.environment.value else "production";
    Deployment(id, now, info.version, info.commitHash, env, Active, info.healthStatus,
               info.certificateId, info.goldenTestsPass, None, None)
  }

  /** The history after `record(d)`: the old head marked superseded, `d` put first, the oldest dropped beyond 20. */
  function Recorded(ds: seq<Deployment>, d: Deployment): seq<Deployment>
  {
    var marked := if |ds| > 0 then ds[0 := ds[0].(status := Superseded)] else ds;
    var all := [d] + marked;
    if |all| > MaxHistory then all[..MaxHistory] else all
  }

  /** `record` keeps at most 20 entries, puts the new one first, and shifts the rest down by one. */
  lemma RecordedShape(ds: seq<Deployment>, d: Deployment)
    ensures var r := Recorded(ds, d);
      && |r| == (if |ds| + 1 > MaxHistory then MaxHistory else |ds| + 1)
      && r[0] == d
      && (|r| > 1 ==> r[1] == ds[0].(status := Superseded))
      && forall i :: 2 <= i < |r| ==> r[i] == ds[i - 1]
  {
  }

  /** Only the old head's status changes: every older entry, active or not, keeps its status. */
  lemma RecordedTouchesOnlyHead(ds: seq<Deployment>, d: Deployment, i: int)
    requires 1 <= i < |ds| && i + 1 < MaxHistory
    ensures Recorded(ds, d)[i + 1] == ds[i]
  {
  }

  // ---------------------------------------------------------------------
  // Lookups
  // ---------------------------------------------------------------------

  /** `Array.prototype.findIndex`: the first position whose entry satisfies `p`. */
  function FirstWhere(ds: seq<Deployment>, p: Deployment -> bool): (r: Option<nat>)
    ensures r.Some? ==> r.value < |ds| && p(ds[r.value]) && forall j :: 0 <= j < r.value ==> !p(ds[j])
    ensures r.None? ==> forall j :: 0 <= j < |ds| ==> !p(ds[j])
  {
    if ds == [] then None
    else if p(ds[0]) then Some(0)
    else
      match FirstWhere(ds[1..], p)
      case None => None
      case Some(k) => Some(k + 1)
  }

  /** The entry at an optional position. */
  function At(ds: seq<Deployment>, k: Option<nat>): Option<Deployment>
  {
    if k.Some? && k.value < |ds| then Some(ds[k.value]) else None
  }

  predicate IsActive(d: Deployment)
  {
    d.status == Active
  }

  /** `goldenTestsPass === true && healthAtDeploy?.status === 'healthy'`. */
  predicate IsKnownGood(d: Deployment)
  {
    d.goldenTestsPass == Some(true) && d.healthStatus == Some("healthy")
  }

  function CurrentIndex(ds: seq<Deployment>): Option<nat>
  {
    FirstWhere(ds, IsActive)
  }

  function LastKnownGoodIndex(ds: seq<Deployment>): Option<nat>
  {
    FirstWhere(ds, IsKnownGood)
  }

  function IndexOfId(ds: seq<Deployment>, id: string): Option<nat>
  {
    FirstWhere(ds, (d: Deployment) => d.id == id)
  }

  /** `getCurrent`: the first active entry, if any. */
  function Current(ds: seq<Deployment>): (r: Option<Deployment>)
    ensures r.Some? ==> r.value in ds && r.value.status == Active
    ensures r.None? <==> forall d :: d in ds ==> d.status != Active
  {
    var r := At(ds, CurrentIndex(ds));
    assert r.None? ==> forall d :: d in ds ==> d.status != Active by {
      if r.None? {
        forall d | d in ds ensures d.status != Active {
          var j :| 0 <= j < |ds| && ds[j] == d;
        }
      }
    }
    r
  }

  /** `getLastKnownGood`: the newest entry whose golden tests passed and that was healthy when deployed. */
  function LastKnownGood(ds: seq<Deployment>): (r: Option<Deployment>)
    ensures r.Some? ==> r.value in ds && IsKnownGood(r.value)
    ensures r.None? ==> forall j :: 0 <= j < |ds| ==> !IsKnownGood(ds[j])
  {
    At(ds, LastKnownGoodIndex(ds))
  }

  /** `getById`: the first entry with that id. */
  function ById(ds: seq<Deployment>, id: string): (r: Option<Deployment>)
    ensures r.Some? ==> r.value in ds && r.value.id == id
    ensures r.None? ==> forall j :: 0 <= j < |ds| ==> ds[j].id != id
  {
    At(ds, IndexOfId(ds, id))
  }

  /** The superseded entries, newest first. */
  function SupersededOf(ds: seq<Deployment>): (r: seq<Deployment>)
    ensures |r| <= |ds|
    ensures forall d :: d in r <==> d in ds && d.status == Superseded
  {
    if ds == [] then []
    else (if ds[0].status == Superseded then [ds[0]] else []) + SupersededOf(ds[1..])
  }

  /** `getRollbackTargets`: the five newest superseded entries. */
  function RollbackTargets(ds: seq<Deployment>): (r: seq<Deployment>)
    ensures |r| <= 5
    ensures forall d :: d in r ==> d in ds && d.status == Superseded
    ensures |r| <= |SupersededOf(ds)| && r == SupersededOf(ds)[..|r|]
    ensures |r| == 5 || r == SupersededOf(ds)
  {
    var s := SupersededOf(ds);
    if |s| > 5 then s[..5] else s
  }

  /** After `record(d)` the new entry is the current deployment. */
  lemma CurrentAfterRecord(ds: seq<Deployment>, d: Deployment)
    requires d.status == Active
    ensures Current(Recorded(ds, d)) == Some(d)
  {
    assert Recorded(ds, d)[0] == d;
  }

  // ---------------------------------------------------------------------
  // Automatic rollback triggers
  // ---------------------------------------------------------------------

  /** The health figures the triggers read; a missing figure compares false, as `undefined` does. */
  datatype HealthData = HealthData(
    errorRate: Option<real>,
    availability: Option<real>,
    p99ResponseTime: Option<real>,
    degradation: Option<real>,
    enfCriticalViolation: bool)

  datatype Trigger = ErrorRate | Availability | ResponseTime | HealthDegradation | Enf1Violation

  datatype Severity = Medium | High | Critical

  /** `ROLLBACK_TRIGGERS.automatic`. */
  const ErrorRateThreshold := 0.05
  const AvailabilityMin := 0.99
  const P99ResponseTimeMax := 5000.0
  const HealthDegradationMax := 0.50

  /** Whether one trigger holds; every comparison is strict. */
  predicate Fires(h: HealthData, t: Trigger)
  {
    match t
    case ErrorRate => h.errorRate.Some? && h.errorRate.value > ErrorRateThreshold
    case Availability => h.availability.Some? && h.availability.value < AvailabilityMin
    case ResponseTime => h.p99ResponseTime.Some? && h.p99ResponseTime.value > P99ResponseTimeMax
    case HealthDegradation => h.degradation.Some? && h.degradation.value > HealthDegradationMax
    case Enf1Violation => h.enfCriticalViolation
  }

  /** The order in which the triggers are tested. */
  function TriggerOrder(): seq<Trigger>
  {
    [ErrorRate, Availability, ResponseTime, HealthDegradation, Enf1Violation]
  }

  function SeverityOf(t: Trigger): Severity
  {
    match t
    case ErrorRate => High
    case Availability => Critical
    case ResponseTime => Medium
    case HealthDegradation => High
    case Enf1Violation => Critical
  }

  /** The verdict; its reason text, which formats the figures, is left out. */
  datatype TriggerDecision = TriggerDecision(shouldRollback: bool, severity: Option<Severity>, trigger: Option<Trigger>)

  /** `checkAutoRollbackTriggers`: the first trigger, in the fixed order, that holds. */
  function CheckAutoRollbackTriggers(h: HealthData): (r: TriggerDecision)
    ensures r.shouldRollback <==> r.trigger.Some?
    ensures r.trigger.None? <==> forall t :: t in TriggerOrder() ==> !Fires(h, t)
    ensures r.trigger.Some? ==> Fires(h, r.trigger.value) && r.severity == Some(SeverityOf(r.trigger.value))
    ensures r.trigger.None? ==> r.severity.None?
  {
    if Fires(h, ErrorRate) then TriggerDecision(true, Some(High), Some(ErrorRate))
    else if Fires(h, Availability) then TriggerDecision(true, Some(Critical), Some(Availability))
    else if Fires(h, ResponseTime) then TriggerDecision(true, Some(Medium), Some(ResponseTime))
    else if Fires(h, HealthDegradation) then TriggerDecision(true, Some(High), Some(HealthDegradation))
    else if Fires(h, Enf1Violation) then TriggerDecision(true, Some(Critical), Some(Enf1Violation))
    else TriggerDecision(false, None, None)
  }

  /** The reported trigger is the first one in the fixed order that holds: every earlier one does not. */
  lemma ReportedTriggerIsFirst(h: HealthData, i: int, j: int)
    requires 0 <= i < j < |TriggerOrder()|
    requires CheckAutoRollbackTriggers(h).trigger == Some(TriggerOrder()[j])
    ensures !Fires(h, TriggerOrder()[i])
  {
  }

  /** The thresholds themselves do not trigger: an error rate of exactly 5% or availability of exactly 99% is fine. */
  lemma ThresholdsAreStrict()
    ensures !CheckAutoRollbackTriggers(HealthData(Some(0.05), Some(0.99), Some(5000.0), Some(0.50), false)).shouldRollback
  {
  }

  // ---------------------------------------------------------------------
  // Rollback
  // ---------------------------------------------------------------------

  /** The target id that selects the last known good deployment. */
  const LastKnownGoodTarget := "last_known_good"

  /** The position `executeRollback` rolls back to. */
  function TargetIndex(ds: seq<Deployment>, targetId: string): (r: Option<nat>)
    ensures r.Some? ==> r.value < |ds|
    ensures targetId == LastKnownGoodTarget ==> r == LastKnownGoodIndex(ds)
    ensures targetId != LastKnownGoodTarget ==> r == IndexOfId(ds, targetId)
  {
    if targetId == LastKnownGoodTarget then LastKnownGoodIndex(ds) else IndexOfId(ds, targetId)
  }

  /**
   * Step 5 of a rollback: the current entry becomes rolled back (with the
   * rollback's id and time), then the target becomes active. When the
   * target is the current entry itself, it ends active.
   */
  function RolledBackTo(ds: seq<Deployment>, t: nat, rollbackId: string, now: string): seq<Deployment>
    requires t < |ds|
  {
    var marked := match CurrentIndex(ds)
      case Some(c) => ds[c := ds[c].(status := RolledBack, rolledBackAt := Some(now), rollbackId := Some(rollbackId))]
      case None => ds;
    marked[t := marked[t].(status := Active)]
  }

  /** A rollback keeps the length, activates the target, retires the old current entry and leaves the rest alone. */
  lemma RollbackChanges(ds: seq<Deployment>, t: nat, rollbackId: string, now: string)
    requires t < |ds|
    ensures var after := RolledBackTo(ds, t, rollbackId, now);
      && |after| == |ds|
      && after[t].status == Active && after[t].id == ds[t].id
      && (forall c :: CurrentIndex(ds) == Some(c) && c != t ==> after[c].status == RolledBack && after[c].rollbackId == Some(rollbackId))
      && forall j :: 0 <= j < |ds| && j != t && Some(j) != CurrentIndex(ds) ==> after[j] == ds[j]
  {
  }

  /** No two entries are active. */
  predicate AtMostOneActive(ds: seq<Deployment>)
  {
    forall i, j :: 0 <= i < |ds| && 0 <= j < |ds| && ds[i].status == Active && ds[j].status == Active ==> i == j
  }

  /** From a history with at most one active entry, a rollback leaves the target as the only one, so `getCurrent` finds it. */
  lemma RollbackMakesTargetCurrent(ds: seq<Deployment>, t: nat, rollbackId: string, now: string)
    requires t < |ds| && AtMostOneActive(ds)
    ensures AtMostOneActive(RolledBackTo(ds, t, rollbackId, now))
    ensures Current(RolledBackTo(ds, t, rollbackId, now)) == Some(RolledBackTo(ds, t, rollbackId, now)[t])
  {
    var after := RolledBackTo(ds, t, rollbackId, now);
    assert forall j :: 0 <= j < |ds| && j != t ==> after[j].status != Active;
    var k := CurrentIndex(after);
    assert after[t].status == Active;
  }

  datatype StepAction = IdentifyTarget | NotifyChambers | VercelRollback | VerifyRollback | UpdateHistory | CreateIncidentRequirements

  datatype RollbackStatus = Complete | Failed

  /** The record `executeRollback` logs; completion and due times, taken from the clock, are left out. */
  datatype RollbackRecord = RollbackRecord(
    id: string,
    initiatedAt: string,
    reason: string,
    isEmergency: bool,
    targetDeploymentId: string,
    status: RollbackStatus,
    steps: seq<StepAction>,
    error: Option<string>)

  /** The six steps of a rollback that completes. */
  function AllSteps(): seq<StepAction>
  {
    [IdentifyTarget, NotifyChambers, VercelRollback, VerifyRollback, UpdateHistory, CreateIncidentRequirements]
  }

  /** The record of a rollback on history `ds`: complete with all six steps, or failed with none when the target is missing. */
  function RollbackRecordOf(ds: seq<Deployment>, targetId: string, reason: string, isEmergency: bool,
                            rollbackId: string, now: string): (r: RollbackRecord)
    ensures r.status == Complete <==> TargetIndex(ds, targetId).Some?
    ensures r.status == Complete ==> r.steps == AllSteps() && r.error.None?
    ensures r.status == Failed ==> r.steps == [] && r.error == Some("Rollback target not found: " + targetId)
  {
    if TargetIndex(ds, targetId).Some? then
      RollbackRecord(rollbackId, now, reason, isEmergency, targetId, Complete, AllSteps(), None)
    else
      RollbackRecord(rollbackId, now, reason, isEmergency, targetId, Failed, [],
                     Some("Rollback target not found: " + targetId))
  }

  /** The history after a rollback: unchanged when the target is missing. */
  function HistoryAfterRollback(ds: seq<Deployment>, targetId: string, rollbackId: string, now: string): (r: seq<Deployment>)
    ensures |r| == |ds|
    ensures TargetIndex(ds, targetId).None? ==> r == ds
  {
    match TargetIndex(ds, targetId)
    case None => ds
    case Some(t) => RolledBackTo(ds, t, rollbackId, now)
  }

  // ---------------------------------------------------------------------
  // The finding: recording after a rollback
  // ---------------------------------------------------------------------

  /**
   * `record` as evidently intended: the deployment being replaced, the
   * current (first active) one, becomes superseded, whatever its position.
   */
  function RecordedCorrected(ds: seq<Deployment>, d: Deployment): seq<Deployment>
  {
    var marked := match CurrentIndex(ds)
      case Some(c) => ds[c := ds[c].(status := Superseded)]
      case None => ds;
    var all := [d] + marked;
    if |all| > MaxHistory then all[..MaxHistory] else all
  }

  /** The corrected `record` keeps a single active deployment, the new one. */
  lemma RecordedCorrectedKeepsOneActive(ds: seq<Deployment>, d: Deployment)
    requires AtMostOneActive(ds) && d.status == Active
    ensures AtMostOneActive(RecordedCorrected(ds, d))
    ensures Current(RecordedCorrected(ds, d)) == Some(d)
  {
    var r := RecordedCorrected(ds, d);
    assert forall j :: 1 <= j < |r| ==> r[j].status != Active;
    assert r[0] == d;
  }

  /**
   * As written, `record` after a rollback marks the rolled-back head as
   * superseded, which makes it a rollback target again, and leaves the
   * rolled-back-to entry active beside the new one.
   */
  lemma RecordAfterRollbackAsWritten(a: Deployment, b: Deployment, c: Deployment, rollbackId: string, now: string)
    requires a.status == Active && b.status == Superseded && c.status == Active && b.id != a.id
    ensures var afterRollback := RolledBackTo([a, b], 1, rollbackId, now);
      && afterRollback[0].status == RolledBack && afterRollback[1].status == Active
      && var afterRecord := Recorded(afterRollback, c);
      && !AtMostOneActive(afterRecord)
      && afterRecord[1].id == a.id && afterRecord[1] in RollbackTargets(afterRecord)
      && AtMostOneActive(RecordedCorrected(afterRollback, c))
  {
    var afterRollback := RolledBackTo([a, b], 1, rollbackId, now);
    assert CurrentIndex([a, b]) == Some(0);
    var afterRecord := Recorded(afterRollback, c);
    assert afterRecord[0].status == Active && afterRecord[2].status == Active;
    assert afterRecord[1].status == Superseded;
    RecordedCorrectedKeepsOneActive(afterRollback, c);
  }

  /**
   * As written: record Z, A and B, roll back to A, record C, roll back to
   * Z. The second rollback marks C rolled back and reactivates Z, but A is
   * still active and comes first, so `getCurrent` returns A, not Z.
   */
  lemma SecondRollbackLeavesFirstTargetCurrent(z: Deployment, a: Deployment, b: Deployment, c: Deployment,
                                               r1: string, r2: string, now: string)
    requires z.status == Active && a.status == Active && b.status == Active && c.status == Active
    ensures var h1 := Recorded(Recorded(Recorded([], z), a), b);
      && |h1| == 3 && h1[1].id == a.id
      && var h2 := Recorded(RolledBackTo(h1, 1, r1, now), c);
      && |h2| == 4 && h2[3].id == z.id
      && var h3 := RolledBackTo(h2, 3, r2, now);
      && h3[0].status == RolledBack && h3[3].status == Active
      && Current(h3) == Some(h3[2]) && h3[2].id == a.id
  {
    var h1 := Recorded(Recorded(Recorded([], z), a), b);
    assert h1 == [b, a.(status := Superseded), z.(status := Superseded)];
    assert CurrentIndex(h1) == Some(0);
    var h2 := Recorded(RolledBackTo(h1, 1, r1, now), c);
    assert h2[1].status == Superseded && h2[2].status == Active && h2[2].id == a.id;
    assert CurrentIndex(h2) == Some(0);
    var h3 := RolledBackTo(h2, 3, r2, now);
    assert h3[1].status == Superseded && h3[2].status == Active;
    assert CurrentIndex(h3) == Some(2);
  }

  // ---------------------------------------------------------------------
  // The classes
  // ---------------------------------------------------------------------

  /**
   * `DeploymentHistory`: newest first, at most 20 entries. `Record`
   * supersedes the head of the history, as the code does, whatever its
   * status; after a rollback this can leave two entries active.
   */
  class DeploymentHistory {
    var deployments: seq<Deployment>

    /** At most 20 entries. */
    ghost predicate Valid()
      reads this
    {
      |deployments| <= MaxHistory
    }

    constructor()
      ensures Valid() && deployments == []
    {
      deployments := [];
    }

    /** `record(deployment)`: the entry it adds, with `id` and `now` standing for the clock readings. */
    method Record(info: DeploymentInfo, id: string, now: string) returns (r: Deployment)
      requires Valid()
      modifies this
      ensures Valid()
      ensures r == NewRecord(info, id, now)
      ensures deployments == Recorded(old(deployments), r)
      ensures Current(deployments) == Some(r)
    {
      r := NewRecord(info, id, now);
      if |deployments| > 0 {
        deployments := deployments[0 := deployments[0].(status := Superseded)];
      }
      deployments := [r] + deployments;
      if |deployments| > MaxHistory {
        deployments := deployments[..MaxHistory];
      }
      CurrentAfterRecord(old(deployments), r);
    }

    function GetCurrent(): (r: Option<Deployment>)
      reads this
      ensures r == Current(deployments)
    {
      Current(deployments)
    }

    function GetLastKnownGood(): (r: Option<Deployment>)
      reads this
      ensures r == LastKnownGood(deployments)
    {
      LastKnownGood(deployments)
    }

    function GetById(id: string): (r: Option<Deployment>)
      reads this
      ensures r == ById(deployments, id)
    {
      ById(deployments, id)
    }

    function GetRollbackTargets(): (r: seq<Deployment>)
      reads this
      ensures r == RollbackTargets(deployments)
    {
      RollbackTargets(deployments)
    }
  }

  /** `RollbackEngine`: the history, the log of rollbacks, and whether one is running. */
  class RollbackEngine {
    const history: DeploymentHistory
    var rollbackLog: seq<RollbackRecord>
    var isRollingBack: bool

    /** The history keeps its own invariant. */
    ghost predicate Valid()
      reads this, history
    {
      history.Valid()
    }

    constructor()
      ensures Valid()
      ensures fresh(history) && history.deployments == [] && rollbackLog == [] && !isRollingBack
    {
      history := new DeploymentHistory();
      rollbackLog := [];
      isRollingBack := false;
    }

    /**
     * `executeRollback(targetDeploymentId, reason, isEmergency)`, with
     * `rollbackId` and `now` standing for the clock readings. The chamber
     * notification, the Vercel call and the verification always succeed.
     * Fails without any change while another rollback runs; otherwise
     * logs exactly one record and ends not rolling back.
     */
    method ExecuteRollback(targetId: string, reason: string, isEmergency: bool, rollbackId: string, now: string)
      returns (r: Result<RollbackRecord>)
      requires Valid()
      modifies this, history
      ensures Valid()
      ensures old(isRollingBack) ==> r == Failure("Rollback already in progress")
      ensures old(isRollingBack) ==> isRollingBack && rollbackLog == old(rollbackLog) && history.deployments == old(history.deployments)
      ensures !old(isRollingBack) ==> !isRollingBack
      ensures !old(isRollingBack) ==>
        r == Success(RollbackRecordOf(old(history.deployments), targetId, reason, isEmergency, rollbackId, now))
      ensures !old(isRollingBack) ==> rollbackLog == old(rollbackLog) + [r.value]
      ensures !old(isRollingBack) ==>
        history.deployments == HistoryAfterRollback(old(history.deployments), targetId, rollbackId, now)
      ensures !old(isRollingBack) && TargetIndex(old(history.deployments), targetId).Some? ==>
        var t := TargetIndex(old(history.deployments), targetId).value;
        && t < |history.deployments| && history.deployments[t].id == old(history.deployments)[t].id
        && history.deployments[t].status == Active
        && (forall c :: CurrentIndex(old(history.deployments)) == Some(c) && c != t ==>
              history.deployments[c].status == RolledBack && history.deployments[c].rollbackId == Some(rollbackId))
        && (AtMostOneActive(old(history.deployments)) ==> Current(history.deployments) == Some(history.deployments[t]))
    {
      if isRollingBack {
        return Failure("Rollback already in progress");
      }
      isRollingBack := true;
      var ds := history.deployments;
      var record := RollbackRecordOf(ds, targetId, reason, isEmergency, rollbackId, now);
      var target := if targetId == LastKnownGoodTarget then LastKnownGoodIndex(ds) else IndexOfId(ds, targetId);
      if target.Some? {
        var t := target.value;
        var current := CurrentIndex(ds);
        if current.Some? {
          var c := current.value;
          history.deployments := history.deployments[c := history.deployments[c].(
            status := RolledBack, rolledBackAt := Some(now), rollbackId := Some(rollbackId))];
        }
        history.deployments := history.deployments[t := history.deployments[t].(status := Active)];
        RollbackChanges(ds, t, rollbackId, now);
        if AtMostOneActive(ds) {
          RollbackMakesTargetCurrent(ds, t, rollbackId, now);
        }
      }
      isRollingBack := false;
      rollbackLog := rollbackLog + [record];
      r := Success(record);
    }
  }
}
