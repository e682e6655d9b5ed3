/**
 * Subscription tiers and the access rules built on them: which tier a user
 * has, whether another assessment is allowed this month, and which features
 * a tier unlocks. Safety features are never restricted.
 */
module AuthTiers {
  import opened Wrappers
  import opened Text
  import opened ObjectTables

  datatype PdfExport = Watermarked | Clean

  /** One entry of the tier table; `price` is `None` where the source has `null` or no price. */
  datatype Tier = Tier(
    id: string,
    name: string,
    price: Option<nat>,
    priceAnnual: Option<nat>,
    assessmentsPerMonth: int,
    pdfExport: PdfExport,
    fluidsAccess: int,
    features: map<string, bool>)

  /** `assessmentsPerMonth` of a tier without a monthly limit. */
  const Unlimited := -1

  /** The five features every tier, and every visitor, may use. */
  function SafetyFeatures(): seq<string>
  {
    ["safetyGates", "regimeClassification", "sealRouting", "failureWarnings", "hardExclusions"]
  }

  function FreeTier(): Tier
  {
    Tier("free", "Free", None, None, 5, Watermarked, 50,
         map["safetyGates" := true, "regimeClassification" := true, "sealRouting" := true,
             "failureWarnings" := true, "hardExclusions" := true,
             "batchProcessing" := false, "assessmentHistory" := false, "apiAccess" := false,
             "excelExport" := false])
  }

  function ProTier(): Tier
  {
    Tier("pro", "Pro", Some(49), Some(399), Unlimited, Clean, 437,
         map["safetyGates" := true, "regimeClassification" := true, "sealRouting" := true,
             "failureWarnings" := true, "hardExclusions" := true,
             "batchProcessing" := true, "assessmentHistory" := true, "apiAccess" := false,
             "excelExport" := true])
  }

  function TeamTier(): Tier
  {
    Tier("team", "Team", None, None, Unlimited, Clean, 437, map[])
  }

  function EnterpriseTier(): Tier
  {
    Tier("enterprise", "Enterprise", None, None, Unlimited, Clean, -1, map[])
  }

  /** `USER_TIERS`, keyed by the upper-case tier id. */
  function UserTiers(): map<string, Tier>
  {
    map["FREE" := FreeTier(), "PRO" := ProTier(), "TEAM" := TeamTier(), "ENTERPRISE" := EnterpriseTier()]
  }

  /** `user.app_metadata`: only its `tier` property is read. */
  datatype Metadata = Metadata(tier: Option<string>)

  /** An authenticated user; `None` stands for a missing `user`. */
  datatype User = User(appMetadata: Option<Metadata>)

  /** The tier id a user names: `(metadata.tier || 'free')`, so a missing or empty tier reads as `free`. */
  function TierName(user: User): (t: string)
    ensures t != ""
  {
    match user.appMetadata
    case Some(Metadata(Some(t))) => if t == "" then "free" else t
    case _ => "free"
  }

  /** `getUserTier`: the table entry under the upper-cased tier id, or FREE. */
  function GetUserTier(user: Option<User>): (tier: Tier)
    ensures tier in UserTiers().Values
  {
    if user.None? then FreeTier()
    else
      var key := Upper(TierName(user.value));
      if key in UserTiers() then UserTiers()[key] else assert UserTiers()["FREE"] == FreeTier(); FreeTier()
  }

  /** A user whose metadata names tier `t`. */
  function UserWithTier(t: string): User
  {
    User(Some(Metadata(Some(t))))
  }

  /** No user, no metadata, no tier or an empty tier all mean FREE. */
  lemma MissingTierIsFree(user: Option<User>)
    requires user.None? || user.value.appMetadata.None? || user.value.appMetadata.value.tier.None?
             || user.value.appMetadata.value.tier == Some("")
    ensures GetUserTier(user) == FreeTier()
  {
    if user.Some? {
      assert TierName(user.value) == "free";
      assert Upper("free") == "FREE";
    }
  }

  /** A tier id that upper-cases to no table key gives FREE. */
  lemma UnknownTierIsFree(t: string)
    requires t != "" && Upper(t) !in UserTiers()
    ensures GetUserTier(Some(UserWithTier(t))) == FreeTier()
  {
  }

  /** The tier id is compared without regard to case: ids equal after upper-casing name the same tier. */
  lemma TierIdIgnoresCase(s: string, t: string)
    requires s != "" && t != "" && Upper(s) == Upper(t)
    ensures GetUserTier(Some(UserWithTier(s))) == GetUserTier(Some(UserWithTier(t)))
  {
  }

  /** Each tier is reached from its own lower-case id. */
  lemma TierIdsRoundTrip()
    ensures GetUserTier(Some(UserWithTier("free"))) == FreeTier()
    ensures GetUserTier(Some(UserWithTier("pro"))) == ProTier()
    ensures GetUserTier(Some(UserWithTier("team"))) == TeamTier()
    ensures GetUserTier(Some(UserWithTier("enterprise"))) == EnterpriseTier()
  {
    assert Upper("free") == "FREE";
    assert Upper("pro") == "PRO";
    assert Upper("team") == "TEAM";
    assert Upper("enterprise") == "ENTERPRISE";
  }

  /** `Pro`, `PRO` and `pro` all give the Pro tier. */
  lemma ProInAnyCase()
    ensures GetUserTier(Some(UserWithTier("Pro"))) == ProTier()
    ensures GetUserTier(Some(UserWithTier("PRO"))) == ProTier()
  {
    assert Upper("Pro") == "PRO";
    assert Upper("PRO") == "PRO";
  }

  // ---------------------------------------------------------------------
  // Monthly assessment quota
  // ---------------------------------------------------------------------

  datatype Decision = Decision(allowed: bool, reason: string, upgradeUrl: Option<string>)

  const UpgradeUrl := "/upgrade"

  /** `canPerformAssessment(user, currentMonthCount)`. */
  function CanPerformAssessment(user: Option<User>, currentMonthCount: int): (d: Decision)
    ensures GetUserTier(user).assessmentsPerMonth == Unlimited ==> d.allowed
    ensures GetUserTier(user).assessmentsPerMonth != Unlimited ==>
      (d.allowed <==> currentMonthCount < GetUserTier(user).assessmentsPerMonth)
    ensures d.allowed <==> d.upgradeUrl.None?
  {
    var tier := GetUserTier(user);
    if tier.assessmentsPerMonth == Unlimited then
      Decision(true, "Unlimited assessments", None)
    else if currentMonthCount >= tier.assessmentsPerMonth then
      Decision(false, "Free tier limit reached (" + IntToString(tier.assessmentsPerMonth)
                      + "/month). Upgrade to Pro for unlimited.", Some(UpgradeUrl))
    else
      Decision(true, IntToString(tier.assessmentsPerMonth - currentMonthCount)
                     + " assessments remaining this month", None)
  }

  /** Below a limited tier's quota the message reports how many assessments remain. */
  lemma RemainingIsReported(user: Option<User>, count: int)
    requires GetUserTier(user).assessmentsPerMonth != Unlimited
    requires count < GetUserTier(user).assessmentsPerMonth
    ensures var remaining := GetUserTier(user).assessmentsPerMonth - count;
      remaining > 0 && CanPerformAssessment(user, count).reason == NatToString(remaining) + " assessments remaining this month"
  {
  }

  /** Fewer assessments used never turn an allowed request into a refused one. */
  lemma QuotaIsMonotone(user: Option<User>, fewer: int, more: int)
    requires fewer <= more && CanPerformAssessment(user, more).allowed
    ensures CanPerformAssessment(user, fewer).allowed
  {
  }

  /** A FREE user has exactly five assessments a month; PRO, TEAM and ENTERPRISE users are never refused. */
  lemma FreeQuotaIsFive(count: int)
    ensures CanPerformAssessment(None, count).allowed <==> count < 5
    ensures forall t :: t in ["pro", "team", "enterprise"] ==> CanPerformAssessment(Some(UserWithTier(t)), count).allowed
  {
    TierIdsRoundTrip();
  }

  // ---------------------------------------------------------------------
  // Feature access
  // ---------------------------------------------------------------------

  /** Whether `features[feature]` is truthy for a property the object itself holds. */
  predicate OwnFeature(features: map<string, bool>, feature: string)
  {
    feature in features && features[feature]
  }

  /**
   * `checkFeatureAccess(user, feature)`, reading only the features the tier
   * itself lists: safety features always, any other feature exactly when the
   * tier lists it as enabled.
   */
  function CheckFeatureAccess(user: Option<User>, feature: string): (d: Decision)
    ensures feature in SafetyFeatures() ==> d.allowed
    ensures d.allowed <==> feature in SafetyFeatures() || OwnFeature(GetUserTier(user).features, feature)
    ensures d.allowed <==> d.upgradeUrl.None?
  {
    var tier := GetUserTier(user);
    if feature in SafetyFeatures() then Decision(true, "Safety feature - always accessible", None)
    else if OwnFeature(tier.features, feature) then Decision(true, "Feature included in " + tier.name + " tier", None)
    else Decision(false, "Feature not available in " + tier.name + " tier", Some(UpgradeUrl))
  }

  /** Safety features are open to everyone, signed in or not, whatever the tier. */
  lemma SafetyFeaturesAlwaysAllowed(user: Option<User>, feature: string)
    requires feature in SafetyFeatures()
    ensures CheckFeatureAccess(user, feature).allowed
    ensures CheckFeatureAccess(user, feature).reason == "Safety feature - always accessible"
  {
  }

  /** TEAM and ENTERPRISE list no features, so they are refused everything but the safety features. */
  lemma EmptyTiersDenyConvenience(t: string, feature: string)
    requires t == "team" || t == "enterprise"
    requires feature !in SafetyFeatures()
    ensures !CheckFeatureAccess(Some(UserWithTier(t)), feature).allowed
  {
    TierIdsRoundTrip();
  }

  /** PRO unlocks batch processing and Excel export but not API access. */
  lemma ProConvenienceFeatures()
    ensures CheckFeatureAccess(Some(UserWithTier("pro")), "batchProcessing").allowed
    ensures CheckFeatureAccess(Some(UserWithTier("pro")), "excelExport").allowed
    ensures !CheckFeatureAccess(Some(UserWithTier("pro")), "apiAccess").allowed
  {
    assert Upper("pro") == "PRO";
  }

  /** Without a user the FREE tier applies, which unlocks no convenience feature. */
  lemma AnonymousConvenienceFeatures()
    ensures !CheckFeatureAccess(None, "batchProcessing").allowed
    ensures !CheckFeatureAccess(None, "assessmentHistory").allowed
  {
  }

  // ---------------------------------------------------------------------
  // The lookup as written: inherited properties
  // ---------------------------------------------------------------------

  /** `features[feature]` is truthy: an own `true` entry, or an inherited property. */
  predicate TruthyProperty(features: map<string, bool>, feature: string)
  {
    if feature in features then features[feature] else feature in InheritedProperties()
  }

  /** `checkFeatureAccess` as written: `tier.features[feature]` also finds inherited properties. */
  function CheckFeatureAccessAsWritten(user: Option<User>, feature: string): (d: Decision)
    ensures d.allowed <==> feature in SafetyFeatures() || TruthyProperty(GetUserTier(user).features, feature)
  {
    var tier := GetUserTier(user);
    if feature in SafetyFeatures() then Decision(true, "Safety feature - always accessible", None)
    else if TruthyProperty(tier.features, feature) then Decision(true, "Feature included in " + tier.name + " tier", None)
    else Decision(false, "Feature not available in " + tier.name + " tier", Some(UpgradeUrl))
  }

  /** The two readings agree on every feature name that is not an inherited property. */
  lemma AsWrittenAgreesOnOrdinaryNames(user: Option<User>, feature: string)
    requires feature !in InheritedProperties()
    ensures CheckFeatureAccessAsWritten(user, feature) == CheckFeatureAccess(user, feature)
  {
  }

  /** As written, asking for the feature `constructor` is allowed even on TEAM, which lists no features. */
  lemma InheritedNameUnlocksFeature()
    ensures CheckFeatureAccessAsWritten(Some(UserWithTier("team")), "constructor").allowed
    ensures !CheckFeatureAccess(Some(UserWithTier("team")), "constructor").allowed
  {
    assert Upper("team") == "TEAM";
  }
}
