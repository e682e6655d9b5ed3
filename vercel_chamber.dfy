/**
 * The deployment chamber's agents: the build-and-deploy pipeline's
 * gatekeeping, the environment check, and the rollback agent's own
 * bounded, oldest-first deployment history.
 */
module VercelChamber {
  import opened Wrappers
  import opened ObjectTables

  // ---------------------------------------------------------------------
  // Build & deploy
  // ---------------------------------------------------------------------

  /** An audit certificate; only its presence, id and `valid` flag are read. */
  datatype Certificate = Certificate(id: string, valid: bool)

  /** What `deploymentTypes[type]` yields: whether tests and a certificate are required. */
  datatype TypeSpec = TypeSpec(requiresTests: bool, requiresCert: bool)

  /**
   * `deploymentTypes[type]`. Besides `preview` and `production`, a name the
   * object inherits (`constructor`, `toString`, ...) finds a truthy value
   * whose `requiresTests` and `requiresCert` are undefined.
   */
  function DeploymentType(t: string): (r: Option<TypeSpec>)
    ensures r.None? <==> t != "preview" && t != "production" && t !in InheritedProperties()
  {
    if t == "preview" then Some(TypeSpec(true, false))
    else if t == "production" then Some(TypeSpec(true, true))
    else if t in InheritedProperties() then Some(TypeSpec(false, false))
    else None
  }

  datatype DeployStatus = Failed | Blocked | Ready

  datatype StageStatus = Running | Pending

  datatype Stage = Stage(name: string, status: StageStatus, command: Option<string>)

  datatype Deployment = Deployment(id: string, deployType: string, startedAt: string, status: DeployStatus,
                                   stages: seq<Stage>, error: Option<string>)

  /** `deploy(type, options)`, with `id` and `now` standing for the clock readings. */
  function Deploy(t: string, certificate: Option<Certificate>, id: string, now: string): (d: Deployment)
    ensures d.status == Failed <==> DeploymentType(t).None?
    ensures d.status == Blocked <==> DeploymentType(t).Some? && DeploymentType(t).value.requiresCert && certificate.None?
    ensures d.error.None? <==> d.status == Ready
    ensures |d.stages| >= 1 && d.stages[0] == Stage("Validate Requirements", Running, None)
    ensures d.status == Ready ==> d.stages[|d.stages| - 1].command == Some(if t == "production" then "vercel --prod" else "vercel")
    ensures d.status != Ready ==> |d.stages| <= 2
  {
    var validate := [Stage("Validate Requirements", Running, None)];
    match DeploymentType(t)
    case None =>
      Deployment(id, t, now, Failed, validate, Some("Unknown deployment type: " + t))
    case Some(spec) =>
      var tested := validate + (if spec.requiresTests then [Stage("Test Gate (ENF-4.1)", Pending, None)] else []);
      if spec.requiresCert && certificate.None? then
        Deployment(id, t, now, Blocked, tested, Some("Audit certificate required for production deployment"))
      else
        Deployment(id, t, now, Ready,
                   tested + [Stage("Execute Build", Pending, Some("vercel build")),
                             Stage("Deploy to Vercel", Pending, Some(if t == "production" then "vercel --prod" else "vercel"))],
                   None)
  }

  /** A preview deployment is never blocked, with or without a certificate, and passes the test gate. */
  lemma PreviewNeverBlocked(certificate: Option<Certificate>, id: string, now: string)
    ensures Deploy("preview", certificate, id, now).status == Ready
    ensures Deploy("preview", certificate, id, now).stages[1].name == "Test Gate (ENF-4.1)"
  {
  }

  /** A production deployment is ready exactly when a certificate is supplied. */
  lemma ProductionNeedsCertificate(certificate: Option<Certificate>, id: string, now: string)
    ensures Deploy("production", certificate, id, now).status == Ready <==> certificate.Some?
    ensures certificate.None? ==>
      Deploy("production", certificate, id, now).error == Some("Audit certificate required for production deployment")
  {
  }

  /** An unknown type fails before any other stage, naming the type. */
  lemma UnknownTypeFails(t: string, certificate: Option<Certificate>, id: string, now: string)
    requires t != "preview" && t != "production" && t !in InheritedProperties()
    ensures Deploy(t, certificate, id, now).error == Some("Unknown deployment type: " + t)
    ensures |Deploy(t, certificate, id, now).stages| == 1
  {
  }

  /** A type name every object inherits is not unknown: it deploys without the test gate or a certificate. */
  lemma InheritedTypeDeploys(id: string, now: string)
    ensures Deploy("constructor", None, id, now).status == Ready
    ensures |Deploy("constructor", None, id, now).stages| == 3
  {
  }

  datatype Promotion = Promotion(success: bool, error: Option<string>, promotedAt: Option<string>,
                                 fromDeployment: Option<string>, certificateId: Option<string>)

  /** `promoteToProduction(previewDeploymentId, certificate)`. */
  function PromoteToProduction(previewId: string, certificate: Option<Certificate>, now: string): (p: Promotion)
    ensures p.success <==> certificate.Some? && certificate.value.valid
    ensures p.success ==> p.fromDeployment == Some(previewId) && p.certificateId == Some(certificate.value.id)
    ensures !p.success ==> p.error == Some("Valid audit certificate required for promotion")
  {
    if certificate.None? || !certificate.value.valid then
      Promotion(false, Some("Valid audit certificate required for promotion"), None, None, None)
    else
      Promotion(true, None, Some(now), Some(previewId), Some(certificate.value.id))
  }

  // ---------------------------------------------------------------------
  // Environment & secrets
  // ---------------------------------------------------------------------

  datatype EnvVar = EnvVar(secret: bool, required: bool, default: Option<string>)

  /** `requiredEnvVars`, in property order. */
  function RequiredEnvVars(): Table<EnvVar>
  {
    [("NODE_ENV", EnvVar(false, true, None)),
     ("PORT", EnvVar(false, false, Some("3000"))),
     ("BASE_URL", EnvVar(false, true, None)),
     ("AUTH0_DOMAIN", EnvVar(true, true, None)),
     ("AUTH0_CLIENT_ID", EnvVar(true, true, None)),
     ("AUTH0_CLIENT_SECRET", EnvVar(true, true, None)),
     ("AUTH0_CALLBACK_URL", EnvVar(false, true, None)),
     ("STRIPE_SECRET_KEY", EnvVar(true, true, None)),
     ("STRIPE_PUBLISHABLE_KEY", EnvVar(false, true, None)),
     ("STRIPE_WEBHOOK_SECRET", EnvVar(true, true, None)),
     ("STRIPE_PRO_MONTHLY_PRICE_ID", EnvVar(false, true, None)),
     ("STRIPE_PRO_ANNUAL_PRICE_ID", EnvVar(false, true, None)),
     ("SUPABASE_URL", EnvVar(false, true, None)),
     ("SUPABASE_ANON_KEY", EnvVar(true, true, None)),
     ("DATABASE_URL", EnvVar(true, true, None)),
     ("CORS_ORIGIN", EnvVar(false, true, None))]
  }

  /** `!env[key]`: the variable is unset or empty. */
  predicate Unset(env: Table<string>, key: string)
  {
    Lookup(env, key).None? || Lookup(env, key).value == ""
  }

  /** Whether `vars` lists `k` as required. */
  ghost predicate IsRequired(vars: Table<EnvVar>, k: string)
  {
    exists v :: (k, v) in vars && v.required
  }

  /** The required keys of `vars` that `env` leaves unset, in table order. */
  function MissingOf(vars: Table<EnvVar>, env: Table<string>): (r: seq<string>)
    ensures forall k :: k in r <==> IsRequired(vars, k) && Unset(env, k)
  {
    if vars == [] then []
    else
      var rest := MissingOf(vars[1..], env);
      assert forall k :: IsRequired(vars, k) <==> (vars[0].0 == k && vars[0].1.required) || IsRequired(vars[1..], k) by {
        forall k ensures IsRequired(vars, k) ==> (vars[0].0 == k && vars[0].1.required) || IsRequired(vars[1..], k) {
          if IsRequired(vars, k) {
            var v :| (k, v) in vars && v.required;
            if (k, v) != vars[0] {
              assert (k, v) in vars[1..];
            }
          }
        }
        forall k ensures IsRequired(vars[1..], k) ==> IsRequired(vars, k) {
          if IsRequired(vars[1..], k) {
            var v :| (k, v) in vars[1..] && v.required;
            assert (k, v) in vars;
          }
        }
        assert vars[0] in vars;
      }
      (if vars[0].1.required && Unset(env, vars[0].0) then [vars[0].0] else []) + rest
  }

  /** The keys of `keys` that `vars[k]` finds: an own key of `vars` or an inherited property. */
  function KnownKeys(keys: seq<string>, vars: Table<EnvVar>): (r: seq<string>)
    ensures forall k :: k in r <==> k in keys && (k in Keys(vars) || k in InheritedProperties())
  {
    if keys == [] then []
    else (if keys[0] in Keys(vars) || keys[0] in InheritedProperties() then [keys[0]] else []) + KnownKeys(keys[1..], vars)
  }

  /** `missing.join(', ')`. */
  function Join(parts: seq<string>, sep: string): string
  {
    if parts == [] then ""
    else if |parts| == 1 then parts[0]
    else parts[0] + sep + Join(parts[1..], sep)
  }

  datatype EnvReport = EnvReport(valid: bool, issues: seq<string>, missing: seq<string>, configured: seq<string>)

  /** `validateEnvironment(env)`. */
  function ValidateEnvironment(env: Table<string>): (r: EnvReport)
    ensures r.valid <==> r.missing == []
    ensures forall k :: k in r.missing <==> IsRequired(RequiredEnvVars(), k) && Unset(env, k)
    ensures r.valid <==> r.issues == []
    ensures forall k :: k in r.configured <==> k in Keys(env) && (k in Keys(RequiredEnvVars()) || k in InheritedProperties())
  {
    var missing := MissingOf(RequiredEnvVars(), env);
    var issues := if |missing| > 0 then ["Missing required environment variables: " + Join(missing, ", ")] else [];
    EnvReport(issues == [], issues, missing, KnownKeys(Keys(env), RequiredEnvVars()))
  }

  /** Only PORT is optional. */
  lemma OnlyPortIsOptional()
    ensures forall i :: 0 <= i < |RequiredEnvVars()| ==> (RequiredEnvVars()[i].1.required <==> RequiredEnvVars()[i].0 != "PORT")
  {
  }

  /** PORT is never reported missing, whatever the environment. */
  lemma PortNeverMissing(env: Table<string>)
    ensures "PORT" !in ValidateEnvironment(env).missing
  {
    OnlyPortIsOptional();
  }

  /** An environment that gives every required key a non-empty value is valid. */
  lemma FullEnvironmentIsValid(env: Table<string>)
    requires forall k :: IsRequired(RequiredEnvVars(), k) ==> !Unset(env, k)
    ensures ValidateEnvironment(env).valid
  {
    var missing := ValidateEnvironment(env).missing;
    assert forall i :: 0 <= i < |missing| ==> missing[i] in missing;
  }

  /** Setting a required key to the empty string counts as missing it. */
  lemma EmptyValueIsMissing(env: Table<string>, i: int)
    requires 0 <= i < |RequiredEnvVars()| && RequiredEnvVars()[i].0 != "PORT"
    requires Lookup(env, RequiredEnvVars()[i].0) == Some("")
    ensures !ValidateEnvironment(env).valid
    ensures RequiredEnvVars()[i].0 in ValidateEnvironment(env).missing
  {
    var vars := RequiredEnvVars();
    var (k, v) := vars[i];
    assert v.required by {
      OnlyPortIsOptional();
    }
    assert (k, v) in vars;
    assert IsRequired(vars, k) && Unset(env, k);
    var r := ValidateEnvironment(env);
    assert k in r.missing;
  }

  // ---------------------------------------------------------------------
  // Rollback agent
  // ---------------------------------------------------------------------

  datatype EntryStatus = Active | Superseded | RolledBack

  /** One entry of the agent's history, oldest first. */
  datatype HistoryEntry = HistoryEntry(id: string, timestamp: string, version: string, commitHash: string,
                                       certificateId: Option<string>, status: EntryStatus)

  /** The deployment `recordDeployment` is given. */
  datatype DeploymentRef = DeploymentRef(id: string, version: string, commitHash: string, certificateId: Option<string>)

  /** The number of deployments the agent keeps. */
  const MaxAgentHistory := 10

  /** The history after `recordDeployment`: `e` appended, the entry before it superseded, only the 10 newest kept. */
  function AppendRecord(hs: seq<HistoryEntry>, e: HistoryEntry): seq<HistoryEntry>
  {
    var all := hs + [e];
    var marked := if |all| > 1 then all[|all| - 2 := all[|all| - 2].(status := Superseded)] else all;
    if |marked| > MaxAgentHistory then marked[|marked| - MaxAgentHistory..] else marked
  }

  /** Recording keeps at most 10 entries, puts the new one last, supersedes the one before it and keeps the rest in order. */
  lemma AppendRecordShape(hs: seq<HistoryEntry>, e: HistoryEntry)
    ensures var r := AppendRecord(hs, e);
      && |r| == (if |hs| + 1 > MaxAgentHistory then MaxAgentHistory else |hs| + 1)
      && r[|r| - 1] == e
      && (|hs| > 0 ==> r[|r| - 2] == hs[|hs| - 1].(status := Superseded))
      && forall i :: 0 <= i < |r| - 2 ==> r[i] == hs[|hs| + 1 - |r| + i]
  {
  }

  /** The history after a rollback: the newest entry rolled back, the one before it active again. */
  function AfterRollback(hs: seq<HistoryEntry>): (r: seq<HistoryEntry>)
    requires |hs| >= 2
    ensures |r| == |hs|
    ensures r[|r| - 1].status == RolledBack && r[|r| - 2].status == Active
    ensures r[|r| - 1].(status := hs[|hs| - 1].status) == hs[|hs| - 1]
    ensures r[|r| - 2].(status := hs[|hs| - 2].status) == hs[|hs| - 2]
    ensures forall i :: 0 <= i < |hs| - 2 ==> r[i] == hs[i]
  {
    hs[|hs| - 1 := hs[|hs| - 1].(status := RolledBack)][|hs| - 2 := hs[|hs| - 2].(status := Active)]
  }

  /** A second rollback changes nothing more: it picks the same two entries. */
  lemma RollbackTwiceIsOnce(hs: seq<HistoryEntry>)
    requires |hs| >= 2
    ensures AfterRollback(AfterRollback(hs)) == AfterRollback(hs)
  {
  }

  /** The rollback record; `status` is always COMPLETE once built. */
  datatype RollbackInfo = RollbackInfo(id: string, executedAt: string, executedBy: string, reason: string,
                                       fromDeployment: string, toDeployment: string)

  datatype RollbackReport = RollbackReport(rollback: RollbackInfo, channels: seq<string>, message: string)

  function NotificationChannels(): seq<string>
  {
    ["Slack", "Email", "PagerDuty"]
  }

  datatype RollbackTest = RollbackTest(testedAt: string, testedBy: string, deploymentsAvailable: nat,
                                       canRollback: bool, targetDeployment: Option<string>)

  /** `RollbackAgent` (VERCEL-5) and its `deploymentHistory`, oldest first. */
  class RollbackAgent {
    var deploymentHistory: seq<HistoryEntry>

    constructor()
      ensures deploymentHistory == []
    {
      deploymentHistory := [];
    }

    /** `recordDeployment(deployment)`, with `now` standing for the clock. */
    method RecordDeployment(d: DeploymentRef, now: string)
      modifies this
      ensures deploymentHistory
        == AppendRecord(old(deploymentHistory), HistoryEntry(d.id, now, d.version, d.commitHash, d.certificateId, Active))
      ensures |deploymentHistory| <= MaxAgentHistory
    {
      deploymentHistory := deploymentHistory + [HistoryEntry(d.id, now, d.version, d.commitHash, d.certificateId, Active)];
      var n := |deploymentHistory|;
      if n > 1 {
        deploymentHistory := deploymentHistory[n - 2 := deploymentHistory[n - 2].(status := Superseded)];
      }
      if n > MaxAgentHistory {
        deploymentHistory := deploymentHistory[n - MaxAgentHistory..];
      }
    }

    /**
     * `executeRollback(reason)`, with `rollbackId` and `now` standing for
     * the clock readings: fails without change when there is no earlier
     * deployment; otherwise rolls back the newest entry to the one before.
     */
    method ExecuteRollback(reason: string, rollbackId: string, now: string) returns (r: Result<RollbackReport>)
      modifies this
      ensures r.Failure? <==> |old(deploymentHistory)| < 2
      ensures r.Failure? ==> r.error == "No previous deployment to rollback to" && deploymentHistory == old(deploymentHistory)
      ensures r.Success? ==> deploymentHistory == AfterRollback(old(deploymentHistory))
      ensures r.Success? ==>
        var n := |old(deploymentHistory)|;
        r.value.rollback == RollbackInfo(rollbackId, now, "VERCEL-5", reason,
                                         old(deploymentHistory)[n - 1].id, old(deploymentHistory)[n - 2].id)
        && r.value.message == "ROLLBACK EXECUTED: " + reason && r.value.channels == NotificationChannels()
    {
      var n := |deploymentHistory|;
      if n < 2 {
        return Failure("No previous deployment to rollback to");
      }
      var current, target := deploymentHistory[n - 1], deploymentHistory[n - 2];
      var info := RollbackInfo(rollbackId, now, "VERCEL-5", reason, current.id, target.id);
      deploymentHistory := deploymentHistory[n - 1 := current.(status := RolledBack)];
      deploymentHistory := deploymentHistory[n - 2 := target.(status := Active)];
      r := Success(RollbackReport(info, NotificationChannels(), "ROLLBACK EXECUTED: " + reason));
    }

    /**
     * `testRollback()`: a rollback is possible exactly when `executeRollback`
     * would succeed, and the target reported is the second-newest entry's id
     * whenever there is one and it is not empty (`?.id || null`).
     */
    function TestRollback(now: string): (t: RollbackTest)
      reads this
      ensures t.canRollback <==> |deploymentHistory| >= 2
      ensures t.deploymentsAvailable == |deploymentHistory|
      ensures t.targetDeployment.Some? ==> t.canRollback && t.targetDeployment.value == deploymentHistory[|deploymentHistory| - 2].id
      ensures t.targetDeployment.None? <==> !t.canRollback || deploymentHistory[|deploymentHistory| - 2].id == ""
    {
      var n := |deploymentHistory|;
      var target := if n >= 2 && deploymentHistory[n - 2].id != "" then Some(deploymentHistory[n - 2].id) else None;
      RollbackTest(now, "VERCEL-5", n, n >= 2, target)
    }
  }
}
