/**
 * The material-expansion rule table: a verdict for a material id under a
 * regime and a Celsius temperature, decided by the first material family
 * that both matches the id and has a rule for the regime and temperature,
 * plus the PROVISIONAL/VERIFIED status the table derives from the id.
 */
module MaterialEngine {
  import opened Wrappers
  import opened Text
  import opened Vocabulary

  /** The material families of the table, one per block of rules. */
  datatype Family =
    | MonelFamily
    | InconelFamily
    | DuplexFamily
    | CastIronFamily
    | PeekFamily
    | UhmwpeFamily
    | FrpFamily
    | NeopreneFamily
    | SiliconeFamily
    | PtfeEncapFamily

  /** The order in which the families are tried. */
  const FamilyOrder: seq<Family> := [
    MonelFamily, InconelFamily, DuplexFamily, CastIronFamily, PeekFamily,
    UhmwpeFamily, FrpFamily, NeopreneFamily, SiliconeFamily, PtfeEncapFamily]

  /**
   * Whether the id belongs to a family: the metals and the encapsulated
   * family by substring of the lower-cased id, the polymers and
   * elastomers by equality of the lower-cased id.
   */
  predicate Matches(materialId: string, f: Family)
  {
    match f
    case MonelFamily => Includes(materialId, "monel")
    case InconelFamily => Includes(materialId, "inconel")
    case DuplexFamily => Includes(materialId, "duplex")
    case CastIronFamily => Includes(materialId, "cast-iron") || Includes(materialId, "castiron")
    case PeekFamily => Lower(materialId) == "peek"
    case UhmwpeFamily => Lower(materialId) == "uhmwpe"
    case FrpFamily => Lower(materialId) == "frp" || Lower(materialId) == "grp"
    case NeopreneFamily => Lower(materialId) == "neoprene" || Lower(materialId) == "cr"
    case SiliconeFamily => Lower(materialId) == "silicone" || Lower(materialId) == "vmq"
    case PtfeEncapFamily => Includes(materialId, "ptfe-encap") || Includes(materialId, "encapsulated")
  }

  /**
   * The rule a family applies under a regime and temperature, or `None`
   * when the family has no rule for them and the next family is tried.
   * A rule never answers UNKNOWN.
   */
  function Rule(f: Family, regime: Regime, tempC: real): (r: Option<Assessment>)
    ensures r.Some? ==> r.value.status in {Compatible, Conditional, Fail}
  {
    match f
    case MonelFamily =>
      if regime == FluorideAcid then Some(Assessment(Conditional, "Verify concentration and temperature"))
      else if regime == ReducingAcid then Some(Assessment(Compatible, "Excellent HCl/HBr resistance"))
      else if regime == OxidizingAcid then Some(Assessment(Fail, "Poor oxidizer resistance"))
      else if regime == Halogenated then Some(Assessment(Compatible, "Marine service suitable"))
      else if regime == StrongBase then Some(Assessment(Compatible, "Good caustic resistance"))
      else None
    case InconelFamily =>
      if regime == HighTemp || tempC > 500.0 then Some(Assessment(Compatible, "Rated to 980°C"))
      else if regime == OxidizingAcid then Some(Assessment(Conditional, "Better than Hastelloy-C"))
      else if regime == ReducingAcid then Some(Assessment(Compatible, "Mo content provides resistance"))
      else if regime == Halogenated then Some(Assessment(Compatible, "Excellent Cl SCC resistance"))
      else None
    case DuplexFamily =>
      if tempC < -50.0 then Some(Assessment(Fail, "Embrittlement below -50°C"))
      else if regime == Halogenated then Some(Assessment(Compatible, "Excellent Cl resistance"))
      else if regime == ReducingAcid then Some(Assessment(Conditional, "Limited HCl service"))
      else if regime == OxidizingAcid then Some(Assessment(Conditional, "Limited HNO3 service"))
      else if regime == StrongBase && tempC > 80.0 then Some(Assessment(Fail, "Max 80°C in caustic"))
      else if regime == StrongBase then Some(Assessment(Conditional, "Limit to 80°C"))
      else None
    case CastIronFamily =>
      if regime == Neutral || regime == AqueousNonHazardous then Some(Assessment(Compatible, "Water service OK"))
      else if regime == ReducingAcid then Some(Assessment(Fail, "Rapid acid attack"))
      else if regime == OxidizingAcid then Some(Assessment(Fail, "Acid attack"))
      else if regime == Halogenated then Some(Assessment(Fail, "Chloride attack"))
      else if regime == FluorideAcid then Some(Assessment(Fail, "HF attack"))
      else if regime == StrongBase then Some(Assessment(Conditional, "Forms protective film"))
      else None
    case PeekFamily =>
      // `tempC && tempC <= 250`: a temperature of 0 is falsy
      if regime == StrongBase then Some(Assessment(Fail, "Attacked by strong alkalis"))
      else if regime == HighTemp || (tempC != 0.0 && tempC <= 250.0) then Some(Assessment(Compatible, "Rated to 250°C"))
      else if regime == OxidizingAcid then Some(Assessment(Conditional, "Conc. HNO3 attacks"))
      else if regime == OrganicSolvent then Some(Assessment(Compatible, "Most solvents OK"))
      else if regime == ReducingAcid then Some(Assessment(Compatible, "Good acid resistance"))
      else None
    case UhmwpeFamily =>
      if tempC > 80.0 then Some(Assessment(Fail, "Max temp 80°C"))
      else if regime == AbrasiveSlurry then Some(Assessment(Compatible, "Excellent wear resistance"))
      else if regime == OrganicSolvent then Some(Assessment(Conditional, "Swells in aromatics"))
      else if regime == OxidizingAcid then Some(Assessment(Conditional, "Limited oxidizer resistance"))
      else if regime == AqueousCorrosive then Some(Assessment(Compatible, "Good chemical resistance"))
      else None
    case FrpFamily =>
      if regime == FluorideAcid then Some(Assessment(Fail, "HF attacks glass fiber"))
      else if tempC > 120.0 then Some(Assessment(Fail, "Max temp 120°C"))
      else if regime == HighTemp then Some(Assessment(Fail, "Resin temp limit"))
      else if regime == OxidizingAcid then Some(Assessment(Compatible, "Vinyl ester excellent"))
      else if regime == ReducingAcid then Some(Assessment(Compatible, "Good acid resistance"))
      else if regime == OrganicSolvent then Some(Assessment(Conditional, "Resin dependent"))
      else None
    case NeopreneFamily =>
      if regime == OxidizingAcid then Some(Assessment(Fail, "Oxidizer attack"))
      else if regime == OrganicSolvent then Some(Assessment(Conditional, "Oils OK, aromatics attack"))
      else if regime == Petroleum then Some(Assessment(Compatible, "Good oil resistance"))
      else if regime == AqueousCorrosive then Some(Assessment(Compatible, "Dilute acid OK"))
      else None
    case SiliconeFamily =>
      if regime == Petroleum then Some(Assessment(Fail, "Swells in oils"))
      else if regime == OrganicSolvent then Some(Assessment(Fail, "Most solvents attack"))
      else if regime == ReducingAcid then Some(Assessment(Fail, "Poor acid resistance"))
      else if regime == HighTemp then Some(Assessment(Compatible, "Rated to 230°C"))
      else if regime == Cryogenic then Some(Assessment(Compatible, "Rated to -60°C"))
      else if regime == FoodPharma then Some(Assessment(Compatible, "FDA grades available"))
      else None
    case PtfeEncapFamily =>
      Some(Assessment(Compatible, "PTFE outer surface"))
  }

  /** Some family of `fams` matches the id and has a rule for the regime and temperature. */
  predicate SomeRuleApplies(materialId: string, regime: Regime, tempC: real, fams: seq<Family>)
  {
    exists i :: 0 <= i < |fams| && Matches(materialId, fams[i]) && Rule(fams[i], regime, tempC).Some?
  }

  /** The first family of `fams` that matches and has a rule decides; none gives UNKNOWN. */
  function FirstApplicableRule(materialId: string, regime: Regime, tempC: real, fams: seq<Family>): (a: Assessment)
    ensures a.status in {Compatible, Conditional, Fail, Unknown}
    ensures a.status == Unknown <==> !SomeRuleApplies(materialId, regime, tempC, fams)
  {
    if fams == [] then
      Assessment(Unknown, "Material not in test database")
    else if Matches(materialId, fams[0]) && Rule(fams[0], regime, tempC).Some? then
      Rule(fams[0], regime, tempC).value
    else
      var a := FirstApplicableRule(materialId, regime, tempC, fams[1..]);
      assert SomeRuleApplies(materialId, regime, tempC, fams) ==> SomeRuleApplies(materialId, regime, tempC, fams[1..]) by {
        if SomeRuleApplies(materialId, regime, tempC, fams) {
          var i :| 0 <= i < |fams| && Matches(materialId, fams[i]) && Rule(fams[i], regime, tempC).Some?;
          assert i != 0;
          assert fams[1..][i - 1] == fams[i];
        }
      }
      assert SomeRuleApplies(materialId, regime, tempC, fams[1..]) ==> SomeRuleApplies(materialId, regime, tempC, fams) by {
        if SomeRuleApplies(materialId, regime, tempC, fams[1..]) {
          var i :| 0 <= i < |fams[1..]| && Matches(materialId, fams[1..][i]) && Rule(fams[1..][i], regime, tempC).Some?;
          assert fams[i + 1] == fams[1..][i];
        }
      }
      a
  }

  /**
   * `evaluateMaterialCompatibility(materialId, regime, tempC)`: the status
   * is one of the four table verdicts, and UNKNOWN exactly when no family
   * matching the id has a rule for the regime and temperature.
   */
  function EvaluateMaterialCompatibility(materialId: string, regime: Regime, tempC: real): (a: Assessment)
    ensures a.status in {Compatible, Conditional, Fail, Unknown}
    ensures a.status == Unknown <==> !SomeRuleApplies(materialId, regime, tempC, FamilyOrder)
  {
    FirstApplicableRule(materialId, regime, tempC, FamilyOrder)
  }

  /** In any family list, the first family that matches and has a rule decides. */
  lemma {:induction false} FirstApplicableDecides(materialId: string, regime: Regime, tempC: real, fams: seq<Family>, i: nat)
    requires i < |fams| && Matches(materialId, fams[i]) && Rule(fams[i], regime, tempC).Some?
    requires forall j :: 0 <= j < i && Matches(materialId, fams[j]) ==> Rule(fams[j], regime, tempC).None?
    ensures FirstApplicableRule(materialId, regime, tempC, fams) == Rule(fams[i], regime, tempC).value
    decreases i
  {
    if i > 0 {
      assert !(Matches(materialId, fams[0]) && Rule(fams[0], regime, tempC).Some?);
      assert fams[1..][i - 1] == fams[i];
      forall j | 0 <= j < i - 1 && Matches(materialId, fams[1..][j])
        ensures Rule(fams[1..][j], regime, tempC).None?
      {
        assert fams[1..][j] == fams[j + 1];
      }
      FirstApplicableDecides(materialId, regime, tempC, fams[1..], i - 1);
    }
  }

  /** The table's verdict is the rule of the first family, in table order, that matches and has a rule. */
  lemma FirstFamilyDecides(materialId: string, regime: Regime, tempC: real, i: nat)
    requires i < |FamilyOrder| && Matches(materialId, FamilyOrder[i]) && Rule(FamilyOrder[i], regime, tempC).Some?
    requires forall j :: 0 <= j < i && Matches(materialId, FamilyOrder[j]) ==> Rule(FamilyOrder[j], regime, tempC).None?
    ensures EvaluateMaterialCompatibility(materialId, regime, tempC) == Rule(FamilyOrder[i], regime, tempC).value
  {
    FirstApplicableDecides(materialId, regime, tempC, FamilyOrder, i);
  }

  // ---------------------------------------------------------------------
  // Properties of the table
  // ---------------------------------------------------------------------

  /** An id never mentions a keyword longer than itself. */
  lemma ShortIdMentionsNoLongerKeyword(materialId: string, p: string)
    requires |p| > |materialId|
    ensures !Includes(materialId, p)
  {
    if Includes(materialId, p) {
      IncludesLength(materialId, p);
    }
  }

  /** An id that names no metal family. */
  predicate NoMetalFamily(materialId: string)
  {
    !Matches(materialId, MonelFamily) && !Matches(materialId, InconelFamily)
    && !Matches(materialId, DuplexFamily) && !Matches(materialId, CastIronFamily)
  }

  /** An id of at most four characters (`peek`, `frp`, `cr`, `vmq`, ...) names no metal family. */
  lemma ShortIdNamesNoMetal(materialId: string)
    requires |materialId| <= 4
    ensures NoMetalFamily(materialId)
  {
    ShortIdMentionsNoLongerKeyword(materialId, "monel");
    ShortIdMentionsNoLongerKeyword(materialId, "inconel");
    ShortIdMentionsNoLongerKeyword(materialId, "duplex");
    ShortIdMentionsNoLongerKeyword(materialId, "cast-iron");
    ShortIdMentionsNoLongerKeyword(materialId, "castiron");
  }

  /** An id the scan reads as `name` names a metal family exactly when `name` does. */
  lemma NoMetalFamilyOfLower(materialId: string)
    ensures NoMetalFamily(materialId) <==> NoMetalFamily(Lower(materialId))
  {
    IncludesOfLower(materialId, "monel");
    IncludesOfLower(materialId, "inconel");
    IncludesOfLower(materialId, "duplex");
    IncludesOfLower(materialId, "cast-iron");
    IncludesOfLower(materialId, "castiron");
  }

  /** The eight-letter names `neoprene` and `silicone` name no metal family. */
  lemma LongPolymerNamesNameNoMetal()
    ensures NoMetalFamily("neoprene") && NoMetalFamily("silicone") && NoMetalFamily("uhmwpe")
  {
    ShortIdMentionsNoLongerKeyword("neoprene", "cast-iron");
    ShortIdMentionsNoLongerKeyword("silicone", "cast-iron");
    ShortIdMentionsNoLongerKeyword("uhmwpe", "cast-iron");
    ShortIdMentionsNoLongerKeyword("uhmwpe", "castiron");
    ShortIdMentionsNoLongerKeyword("uhmwpe", "inconel");
  }

  /**
   * For a polymer or elastomer named exactly, the family of that name
   * decides whenever it has a rule: no metal family matches such an id,
   * and the exact names are distinct.
   */
  lemma NamedFamilyDecides(materialId: string, regime: Regime, tempC: real, i: nat)
    requires 4 <= i <= 8 && Matches(materialId, FamilyOrder[i]) && Rule(FamilyOrder[i], regime, tempC).Some?
    ensures EvaluateMaterialCompatibility(materialId, regime, tempC) == Rule(FamilyOrder[i], regime, tempC).value
  {
    NamedIdNamesNoMetal(materialId, i);
    FirstFamilyDecides(materialId, regime, tempC, i);
  }

  /** An id named exactly after a polymer or elastomer family names no metal family. */
  lemma NamedIdNamesNoMetal(materialId: string, i: nat)
    requires 4 <= i <= 8 && Matches(materialId, FamilyOrder[i])
    ensures NoMetalFamily(materialId)
  {
    NoMetalFamilyOfLower(materialId);
    if |materialId| <= 4 {
      ShortIdNamesNoMetal(materialId);
    } else {
      LongPolymerNamesNameNoMetal();
    }
  }

  /**
   * An id mentioning `ptfe-encap` or `encapsulated` is COMPATIBLE under
   * every regime and temperature, unless it also names a metal family
   * whose rule applies first.
   */
  lemma EncapsulatedIsCompatible(materialId: string, regime: Regime, tempC: real)
    requires Matches(materialId, PtfeEncapFamily)
    requires forall j :: 0 <= j < 4 && Matches(materialId, FamilyOrder[j]) ==> Rule(FamilyOrder[j], regime, tempC).None?
    ensures EvaluateMaterialCompatibility(materialId, regime, tempC).status == Compatible
  {
    var l := Lower(materialId);
    if Includes(materialId, "ptfe-encap") {
      IncludesLength(materialId, "ptfe-encap");
    } else {
      IncludesLength(materialId, "encapsulated");
    }
    assert |l| >= 10;
    assert !Matches(materialId, PeekFamily) && !Matches(materialId, UhmwpeFamily) && !Matches(materialId, FrpFamily);
    assert !Matches(materialId, NeopreneFamily) && !Matches(materialId, SiliconeFamily);
    FirstFamilyDecides(materialId, regime, tempC, 9);
  }

  /** An id mentioning `ptfe-encap` or `encapsulated` is never UNKNOWN. */
  lemma EncapsulatedIsNeverUnknown(materialId: string, regime: Regime, tempC: real)
    requires Matches(materialId, PtfeEncapFamily)
    ensures EvaluateMaterialCompatibility(materialId, regime, tempC).status != Unknown
  {
    assert FamilyOrder[9] == PtfeEncapFamily;
  }

  /** Duplex below -50 °C is FAIL whatever the regime, once monel and inconel rules do not apply. */
  lemma DuplexColdFails(materialId: string, regime: Regime, tempC: real)
    requires Matches(materialId, DuplexFamily) && tempC < -50.0
    requires !Matches(materialId, MonelFamily) || Rule(MonelFamily, regime, tempC).None?
    requires !Matches(materialId, InconelFamily) || Rule(InconelFamily, regime, tempC).None?
    ensures EvaluateMaterialCompatibility(materialId, regime, tempC) == Assessment(Fail, "Embrittlement below -50°C")
  {
    FirstFamilyDecides(materialId, regime, tempC, 2);
  }

  /** Duplex in caustic: FAIL above 80 °C, CONDITIONAL from -50 °C up to 80 °C. */
  lemma DuplexCausticLimit(materialId: string, tempC: real)
    requires Matches(materialId, DuplexFamily) && !Matches(materialId, MonelFamily) && !Matches(materialId, InconelFamily)
    requires tempC >= -50.0
    ensures EvaluateMaterialCompatibility(materialId, StrongBase, tempC).status == Fail <==> tempC > 80.0
    ensures tempC <= 80.0 ==> EvaluateMaterialCompatibility(materialId, StrongBase, tempC).status == Conditional
  {
    FirstFamilyDecides(materialId, StrongBase, tempC, 2);
  }

  /** Inconel is COMPATIBLE above 500 °C under every regime, once no monel rule applies. */
  lemma InconelHotIsCompatible(materialId: string, regime: Regime, tempC: real)
    requires Matches(materialId, InconelFamily) && tempC > 500.0
    requires !Matches(materialId, MonelFamily) || Rule(MonelFamily, regime, tempC).None?
    ensures EvaluateMaterialCompatibility(materialId, regime, tempC).status == Compatible
  {
    FirstFamilyDecides(materialId, regime, tempC, 1);
  }

  /** PEEK in a strong base is FAIL at every temperature, before the 250 °C rule. */
  lemma PeekFailsInStrongBase(materialId: string, tempC: real)
    requires Lower(materialId) == "peek"
    ensures EvaluateMaterialCompatibility(materialId, StrongBase, tempC).status == Fail
  {
    NamedFamilyDecides(materialId, StrongBase, tempC, 4);
  }

  /** PEEK outside a strong base is COMPATIBLE at any non-zero temperature up to 250 °C. */
  lemma PeekUpTo250IsCompatible(materialId: string, regime: Regime, tempC: real)
    requires Lower(materialId) == "peek" && regime != StrongBase
    requires tempC != 0.0 && tempC <= 250.0
    ensures EvaluateMaterialCompatibility(materialId, regime, tempC).status == Compatible
  {
    NamedFamilyDecides(materialId, regime, tempC, 4);
  }

  /** UHMWPE above 80 °C is FAIL under every regime. */
  lemma UhmwpeHotFails(materialId: string, regime: Regime, tempC: real)
    requires Lower(materialId) == "uhmwpe" && tempC > 80.0
    ensures EvaluateMaterialCompatibility(materialId, regime, tempC) == Assessment(Fail, "Max temp 80°C")
  {
    NamedFamilyDecides(materialId, regime, tempC, 5);
  }

  /** FRP/GRP: FAIL in HF at any temperature, and FAIL above 120 °C under every other regime. */
  lemma FrpLimits(materialId: string, regime: Regime, tempC: real)
    requires Lower(materialId) == "frp" || Lower(materialId) == "grp"
    requires regime == FluorideAcid || tempC > 120.0
    ensures EvaluateMaterialCompatibility(materialId, regime, tempC).status == Fail
  {
    NamedFamilyDecides(materialId, regime, tempC, 6);
  }

  // ---------------------------------------------------------------------
  // Provisional status
  // ---------------------------------------------------------------------

  /** The index of the first dash of `p` at or after `i`, or `|p|` when there is none. */
  function FirstDashFrom(p: string, i: nat): nat
    decreases |p| - i
  {
    if i >= |p| then i
    else if p[i] == '-' then i
    else FirstDashFrom(p, i + 1)
  }

  /** `p.replace('-', '')`: with a string pattern only the first dash is removed. */
  function RemoveFirstDash(p: string): string
  {
    var k := FirstDashFrom(p, 0);
    if k < |p| then p[..k] + p[k + 1..] else p
  }

  /** `FirstDashFrom` finds the first dash at or after `i`. */
  lemma {:induction false} FirstDashFromMeaning(p: string, i: nat)
    requires i <= |p|
    ensures i <= FirstDashFrom(p, i) <= |p|
    ensures forall j :: i <= j < FirstDashFrom(p, i) ==> p[j] != '-'
    ensures FirstDashFrom(p, i) < |p| ==> p[FirstDashFrom(p, i)] == '-'
    decreases |p| - i
  {
    if i < |p| && p[i] != '-' {
      FirstDashFromMeaning(p, i + 1);
    }
  }

  /** A pattern without a dash is left as it is. */
  lemma RemoveFirstDashWithoutDash(p: string)
    requires '-' !in p
    ensures RemoveFirstDash(p) == p
  {
    FirstDashFromMeaning(p, 0);
  }

  /** Removing the first dash keeps what precedes it and what follows it. */
  lemma RemoveFirstDashSplits(a: string, b: string)
    requires '-' !in a
    ensures RemoveFirstDash(a + "-" + b) == a + b
  {
    var p := a + "-" + b;
    FirstDashFromMeaning(p, 0);
    var k := FirstDashFrom(p, 0);
    assert p[|a|] == '-';
    assert forall j :: 0 <= j < |a| ==> p[j] == a[j];
    assert p[..k] == a;
    assert p[k + 1..] == b;
  }

  /** The patterns the table treats as new materials. */
  const ProvisionalPatterns: seq<string> := [
    "monel-400", "inconel-625", "duplex-2205", "cast-iron",
    "peek", "uhmwpe", "frp", "neoprene", "silicone", "ptfe-encap"]

  /** `patterns.some(p => id.toLowerCase().includes(p.replace('-', '')))`. */
  predicate AnyPatternIncluded(materialId: string, patterns: seq<string>)
  {
    patterns != [] && (Includes(materialId, RemoveFirstDash(patterns[0])) || AnyPatternIncluded(materialId, patterns[1..]))
  }

  /** `some` holds exactly when one of the patterns, with its first dash removed, occurs in the id. */
  lemma {:induction false} AnyPatternIncludedMeaning(materialId: string, patterns: seq<string>)
    ensures AnyPatternIncluded(materialId, patterns) <==>
      exists i :: 0 <= i < |patterns| && Includes(materialId, RemoveFirstDash(patterns[i]))
  {
    if patterns != [] {
      AnyPatternIncludedMeaning(materialId, patterns[1..]);
      if exists i :: 0 <= i < |patterns| && Includes(materialId, RemoveFirstDash(patterns[i])) {
        var i :| 0 <= i < |patterns| && Includes(materialId, RemoveFirstDash(patterns[i]));
        if i > 0 {
          assert patterns[1..][i - 1] == patterns[i];
        }
      }
      if exists i :: 0 <= i < |patterns[1..]| && Includes(materialId, RemoveFirstDash(patterns[1..][i])) {
        var i :| 0 <= i < |patterns[1..]| && Includes(materialId, RemoveFirstDash(patterns[1..][i]));
        assert patterns[i + 1] == patterns[1..][i];
      }
    }
  }

  /** `isProvisional(materialId)` of the rule table. */
  predicate IsProvisional(materialId: string)
  {
    AnyPatternIncluded(materialId, ProvisionalPatterns)
  }

  /** `getMaterialStatus(materialId)`: PROVISIONAL exactly when `IsProvisional`, VERIFIED otherwise. */
  function GetMaterialStatus(materialId: string): (s: MaterialStatus)
    ensures s in {Provisional, Verified}
    ensures s == Provisional <==> exists i :: 0 <= i < |ProvisionalPatterns| && Includes(materialId, RemoveFirstDash(ProvisionalPatterns[i]))
  {
    AnyPatternIncludedMeaning(materialId, ProvisionalPatterns);
    if IsProvisional(materialId) then Provisional else Verified
  }

  /** Every dash-free pattern is PROVISIONAL, as is any id that contains one. */
  lemma DashFreePatternsAreProvisional(materialId: string, i: nat)
    requires i < |ProvisionalPatterns| && '-' !in ProvisionalPatterns[i]
    requires Includes(materialId, ProvisionalPatterns[i])
    ensures GetMaterialStatus(materialId) == Provisional
  {
    RemoveFirstDashWithoutDash(ProvisionalPatterns[i]);
  }

  /** `monel-400` contains none of the metal patterns once their first dash is removed. */
  lemma MonelIdMissesMetalPatterns()
    ensures !Includes("monel-400", RemoveFirstDash("monel-400"))
    ensures !Includes("monel-400", RemoveFirstDash("inconel-625"))
    ensures !Includes("monel-400", RemoveFirstDash("duplex-2205"))
    ensures !Includes("monel-400", RemoveFirstDash("cast-iron"))
  {
  }

  /** `monel-400` contains none of the polymer patterns. */
  lemma MonelIdMissesPolymerPatterns()
    ensures !Includes("monel-400", RemoveFirstDash("peek"))
    ensures !Includes("monel-400", RemoveFirstDash("uhmwpe"))
    ensures !Includes("monel-400", RemoveFirstDash("frp"))
  {
  }

  /** `monel-400` contains none of the elastomer and encapsulated patterns. */
  lemma MonelIdMissesElastomerPatterns()
    ensures !Includes("monel-400", RemoveFirstDash("neoprene"))
    ensures !Includes("monel-400", RemoveFirstDash("silicone"))
    ensures !Includes("monel-400", RemoveFirstDash("ptfe-encap"))
  {
  }

  /** `monel-400`, the registry's own id, is VERIFIED by the table: the dash keeps `monel400` from matching. */
  lemma DashedIdIsVerified()
    ensures GetMaterialStatus("monel-400") == Verified
  {
    MonelIdMissesMetalPatterns();
    MonelIdMissesPolymerPatterns();
    MonelIdMissesElastomerPatterns();
  }

  /** `Monel400` and `PEEK` are PROVISIONAL. */
  lemma UndashedIdsAreProvisional()
    ensures GetMaterialStatus("Monel400") == Provisional
    ensures GetMaterialStatus("PEEK") == Provisional
  {
    assert Includes("Monel400", RemoveFirstDash("monel-400"));
    assert Includes("PEEK", RemoveFirstDash("peek"));
  }

  /** Some pattern of `patterns`, written as listed, occurs in the id. */
  predicate AnyPatternNamed(materialId: string, patterns: seq<string>)
  {
    patterns != [] && (Includes(materialId, patterns[0]) || AnyPatternNamed(materialId, patterns[1..]))
  }

  lemma {:induction false} AnyPatternNamedMeaning(materialId: string, patterns: seq<string>)
    ensures AnyPatternNamed(materialId, patterns) <==>
      exists i :: 0 <= i < |patterns| && Includes(materialId, patterns[i])
  {
    if patterns != [] {
      AnyPatternNamedMeaning(materialId, patterns[1..]);
      if exists i :: 0 <= i < |patterns| && Includes(materialId, patterns[i]) {
        var i :| 0 <= i < |patterns| && Includes(materialId, patterns[i]);
        if i > 0 {
          assert patterns[1..][i - 1] == patterns[i];
        }
      }
      if exists i :: 0 <= i < |patterns[1..]| && Includes(materialId, patterns[1..][i]) {
        var i :| 0 <= i < |patterns[1..]| && Includes(materialId, patterns[1..][i]);
        assert patterns[i + 1] == patterns[1..][i];
      }
    }
  }

  /**
   * The status `getMaterialStatus` evidently means to report: PROVISIONAL
   * when the id contains a listed pattern in either spelling, with its dash
   * or without it. As written only the dash-free spelling is tried, so a
   * listed id that keeps its dash is VERIFIED (`DashedIdIsVerified`).
   */
  function CorrectedMaterialStatus(materialId: string): (s: MaterialStatus)
    ensures s in {Provisional, Verified}
    ensures s == Provisional <==>
      (exists i :: 0 <= i < |ProvisionalPatterns| && Includes(materialId, ProvisionalPatterns[i])) ||
      GetMaterialStatus(materialId) == Provisional
  {
    AnyPatternNamedMeaning(materialId, ProvisionalPatterns);
    AnyPatternIncludedMeaning(materialId, ProvisionalPatterns);
    if AnyPatternNamed(materialId, ProvisionalPatterns) || IsProvisional(materialId) then Provisional else Verified
  }

  /** A lower-case pattern occurs in itself. */
  lemma IncludesItself(p: string)
    requires Lower(p) == p
    ensures Includes(p, p)
  {
    IncludesIsContains(p, p);
    assert OccursAt(Lower(p), p, 0);
  }

  /** Under the corrected status every listed id, `monel-400` among them, is PROVISIONAL. */
  lemma ListedIdsAreProvisional(i: nat)
    requires i < |ProvisionalPatterns|
    ensures CorrectedMaterialStatus(ProvisionalPatterns[i]) == Provisional
  {
    var p := ProvisionalPatterns[i];
    assert forall k :: 0 <= k < |p| ==> !('A' <= p[k] <= 'Z');
    assert Lower(p) == p;
    IncludesItself(p);
  }
}
