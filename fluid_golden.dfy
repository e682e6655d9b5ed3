/**
 * Concrete cases of the fluid decision core, stated for the ids the
 * system's own golden suite uses.
 */
module FluidGolden {
  import opened Wrappers
  import opened Text
  import opened Vocabulary
  import opened Keywords
  import opened FluidEngine

  /** `water` mentions none of the fluoride, oxidizer, caustic or toxic keywords. */
  lemma WaterIsNotCorrosiveOrToxic()
    ensures !Includes("water", Hf) && !Includes("water", Fluoride) && !Includes("water", Hno3) && !Includes("water", H2o2) && !Includes("water", Chromic) && !Includes("water", Naoh) && !Includes("water", Koh) && !Includes("water", Caustic) && !Includes("water", Cyanide) && !Includes("water", Arsenic) && !Includes("water", Mercury)
  {
  }

  /** `water` mentions none of the halogen or sulfuric keywords. */
  lemma WaterIsNotHalogenatedOrSulfuric()
    ensures !Includes("water", Benzene) && !Includes("water", Chlorine) && !Includes("water", Hcl) && !Includes("water", Chloride) && !Includes("water", Seawater) && !Includes("water", Hypochlorite) && !Includes("water", Brine) && !Includes("water", FerricChloride) && !Includes("water", H2so4) && !Includes("water", Oleum) && !Includes("water", H3po4)
  {
  }

  /** `water` mentions none of the weak-acid, solvent or ammonia keywords. */
  lemma WaterIsNotOrganicOrAmmonia()
    ensures !Includes("water", Acetic) && !Includes("water", Formic) && !Includes("water", Citric) && !Includes("water", Methanol) && !Includes("water", Ethanol) && !Includes("water", Acetone) && !Includes("water", Toluene) && !Includes("water", Xylene) && !Includes("water", Diesel) && !Includes("water", Gasoline) && !Includes("water", Ammonia)
  {
  }

  /** Water passes the gate and is AQUEOUS_NON_HAZARDOUS. */
  lemma WaterRegime()
    ensures ResolvePrimaryRegime("water").primary == AqueousNonHazardous
    ensures IsValidFluid("water")
  {
    WaterIsNotCorrosiveOrToxic();
    WaterIsNotHalogenatedOrSulfuric();
    WaterIsNotOrganicOrAmmonia();
    assert Includes("water", Water);
  }

  /** Water is a benign fluid: AQUEOUS_NON_HAZARDOUS, and a single seal is allowed. */
  lemma WaterIsStandardAllowed(runId: string)
    ensures CreateRunContext(runId, Some("water"), Some(25.0), Some("C")).primaryRegime == AqueousNonHazardous
    ensures Single in ResolveSealEligibility(Some(CreateRunContext(runId, Some("water"), Some(25.0), Some("C")))).allowedCategories
  {
    WaterRegime();
  }

  /** 212 °F water is stored as 100 °C. */
  lemma BoilingWaterInFahrenheit(runId: string)
    ensures CreateRunContext(runId, Some("water"), Some(212.0), Some("F")).temperature == 100.0
  {
    WaterRegime();
  }

  /** `hf-48` is a valid FLUORIDE_ACID fluid with the FLUORIDE tag. */
  lemma HydrofluoricAcidRegime()
    ensures ResolvePrimaryRegime("hf-48") == Classification(FluorideAcid, [ToxicSpecial])
    ensures IsValidFluid("hf-48")
    ensures FluorideTag in GetFluidTags("hf-48")
  {
    assert Includes("hf-48", Hf);
    TagsMeaning("hf-48", FluorideTag);
  }

  /** `hf-48` at 25 °C: FLUORIDE_ACID with a TOXIC_SPECIAL secondary, sealless, never a single seal (GT-006 to GT-010). */
  lemma HydrofluoricAcidIsSealless(runId: string)
    ensures var ctx := CreateRunContext(runId, Some("hf-48"), Some(25.0), Some("C"));
      && ctx.primaryRegime == FluorideAcid
      && ToxicSpecial in ctx.secondaryRegimes
      && ResolveSealEligibility(Some(ctx)).state == SeallessRequired
      && Single !in ResolveSealEligibility(Some(ctx)).allowedCategories
  {
    HydrofluoricAcidRegime();
  }

  /** Carbon steel fails in every valid FLUORIDE_ACID context. */
  lemma CarbonSteelFailsInFluorideAcid(ctx: RunContext)
    requires ctx.valid && ctx.primaryRegime == FluorideAcid
    ensures EvaluateMaterialCompatibility("carbon-steel", Some(ctx)).status == Fail
  {
    assert Includes("carbon-steel", "carbon");
    HfFailsListedMetals("carbon-steel", ctx);
  }

  /** HF attacks carbon steel (GT-091). */
  lemma HydrofluoricAcidFailsCarbonSteel(runId: string)
    ensures EvaluateMaterialCompatibility("carbon-steel", Some(CreateRunContext(runId, Some("hf-48"), Some(25.0), Some("C")))).status == Fail
  {
    HydrofluoricAcidRegime();
    CarbonSteelFailsInFluorideAcid(CreateRunContext(runId, Some("hf-48"), Some(25.0), Some("C")));
  }

  /** `hno3-65` reaches the 65 % nitric threshold (GT-011). */
  lemma ConcentratedNitricIsOxidizing()
    ensures ResolvePrimaryRegime("hno3-65").primary == OxidizingAcid
  {
    ConcentratedNitricConcentration();
    assert Includes("hno3-65", Hno3);
    assert !Includes("hno3-65", Hf);
    assert !Includes("hno3-65", Fluoride);
  }

  /** `hno3-65` carries concentration 65. */
  lemma ConcentratedNitricConcentration()
    ensures ExtractConcentration("hno3-65") == 65
  {
    ConcentrationOfSuffix("hno3", "65");
    assert "hno3" + "-" + "65" == "hno3-65";
  }

  /** `hno3-70` carries concentration 70. */
  lemma StrongNitricConcentration()
    ensures ExtractConcentration("hno3-70") == 70
  {
    ConcentrationOfSuffix("hno3", "70");
    assert "hno3" + "-" + "70" == "hno3-70";
  }

  /** `hno3-30` carries concentration 30. */
  lemma DiluteNitricConcentration()
    ensures ExtractConcentration("hno3-30") == 30
  {
    ConcentrationOfSuffix("hno3", "30");
    assert "hno3" + "-" + "30" == "hno3-30";
  }

  /** `hno3-30` names nitric acid and no fluoride or other oxidizer. */
  lemma DiluteNitricKeywords()
    ensures Includes("hno3-30", Hno3) && !Includes("hno3-30", Hf) && !Includes("hno3-30", Fluoride) && !Includes("hno3-30", H2o2) && !Includes("hno3-30", Chromic)
  {
    assert Includes("hno3-30", Hno3);
    assert !Includes("hno3-30", Hf);
    assert !Includes("hno3-30", Fluoride);
    assert !Includes("hno3-30", H2o2);
    assert !Includes("hno3-30", Chromic);
  }

  /** `hno3-30` stays below the nitric threshold (GT-035). */
  lemma DiluteNitricIsNotOxidizing()
    ensures ResolvePrimaryRegime("hno3-30").primary != OxidizingAcid
  {
    DiluteNitricConcentration();
    DiluteNitricKeywords();
    NitricThreshold("hno3-30", 30);
  }

  /** `hno3-70` is OXIDIZING_ACID. */
  lemma StrongNitricIsOxidizing()
    ensures ResolvePrimaryRegime("hno3-70").primary == OxidizingAcid
  {
    StrongNitricConcentration();
    assert Includes("hno3-70", Hno3);
    assert !Includes("hno3-70", Hf);
    assert !Includes("hno3-70", Fluoride);
  }

  /** In an oxidizing acid carbon steel and 316 stainless are not recommendable, titanium is (GT-012 to GT-014). */
  lemma NitricMetalRecommendations()
    ensures !IsMetalRecommendable("carbon-steel", OxidizingAcid)
    ensures !IsMetalRecommendable("316ss", OxidizingAcid)
    ensures IsMetalRecommendable("titanium", OxidizingAcid)
  {
    assert Includes("carbon-steel", Carbon);
    assert !Includes("carbon-steel", "titanium");
    assert Includes("316ss", Grade316);
    assert !Includes("316ss", "titanium");
    assert Includes("titanium", "titanium");
  }

  /** `naoh-50` carries concentration 50. */
  lemma CausticConcentration()
    ensures ExtractConcentration("naoh-50") == 50
  {
    ConcentrationOfSuffix("naoh", "50");
    assert "naoh" + "-" + "50" == "naoh-50";
  }

  /** `naoh-50` names caustic soda and no fluoride or oxidizer. */
  lemma CausticKeywords()
    ensures Includes("naoh-50", Naoh) && !Includes("naoh-50", Hf) && !Includes("naoh-50", Fluoride) && !Includes("naoh-50", Hno3) && !Includes("naoh-50", H2o2) && !Includes("naoh-50", Chromic)
  {
    assert Includes("naoh-50", Naoh);
    assert !Includes("naoh-50", Hf);
    assert !Includes("naoh-50", Fluoride);
    assert !Includes("naoh-50", Hno3);
    assert !Includes("naoh-50", H2o2);
    assert !Includes("naoh-50", Chromic);
  }

  /** `naoh-50` is a valid STRONG_BASE fluid (GT-026). */
  lemma CausticIsStrongBase()
    ensures ResolvePrimaryRegime("naoh-50").primary == StrongBase
    ensures IsValidFluid("naoh-50")
  {
    CausticConcentration();
    CausticKeywords();
    assert Naoh in GateKeywords;
  }

  /** A `naoh-50` run at a non-zero Celsius temperature is a valid STRONG_BASE context at that temperature. */
  lemma CausticContext(runId: string, temp: real)
    requires temp != 0.0
    ensures var ctx := CreateRunContext(runId, Some("naoh-50"), Some(temp), Some("C"));
      ctx.valid && ctx.primaryRegime == StrongBase && ctx.temperature == temp
  {
    CausticIsStrongBase();
  }

  /** Aluminum fails in every valid STRONG_BASE context, titanium above 60 °C. */
  lemma StrongBaseAttacksAluminumAndHotTitanium(ctx: RunContext)
    requires ctx.valid && ctx.primaryRegime == StrongBase
    ensures EvaluateMaterialCompatibility("aluminum", Some(ctx)).status == Fail
    ensures ctx.temperature > 60.0 ==> EvaluateMaterialCompatibility("titanium", Some(ctx)).status == Fail
  {
    assert Includes("aluminum", Aluminum);
    assert Includes("titanium", Titanium);
  }

  /** Caustic seal and material decisions: reinforced seals, aluminum fails, hot titanium fails (GT-027 to GT-029). */
  lemma CausticDecisions(runId: string)
    ensures var ctx := CreateRunContext(runId, Some("naoh-50"), Some(25.0), Some("C"));
      && ResolveSealEligibility(Some(ctx)).state == ReinforcedRequired
      && EvaluateMaterialCompatibility("aluminum", Some(ctx)).status == Fail
    ensures EvaluateMaterialCompatibility("titanium", Some(CreateRunContext(runId, Some("naoh-50"), Some(80.0), Some("C")))).status == Fail
  {
    CausticContext(runId, 25.0);
    CausticContext(runId, 80.0);
    StrongBaseAttacksAluminumAndHotTitanium(CreateRunContext(runId, Some("naoh-50"), Some(25.0), Some("C")));
    StrongBaseAttacksAluminumAndHotTitanium(CreateRunContext(runId, Some("naoh-50"), Some(80.0), Some("C")));
  }

  // ---------------------------------------------------------------------
  // Ids no classifier rule names
  // ---------------------------------------------------------------------

  /** The id names no fluoride, strong oxidizer or caustic keyword. */
  predicate NoFluorideOxidizerOrBase(id: string)
  {
    !Includes(id, Hf) && !Includes(id, Fluoride) && !Includes(id, Hno3) && !Includes(id, H2o2) && !Includes(id, Chromic) &&
    !Includes(id, Naoh) && !Includes(id, Koh) && !Includes(id, Caustic)
  }

  /** The id names no toxic or halogen keyword. */
  predicate NoToxicOrHalogen(id: string)
  {
    !Includes(id, Cyanide) && !Includes(id, Arsenic) && !Includes(id, Mercury) && !Includes(id, Benzene) && !Includes(id, Chlorine) &&
    !Includes(id, Hcl) && !Includes(id, Chloride) && !Includes(id, Seawater) && !Includes(id, Hypochlorite) && !Includes(id, Brine) &&
    !Includes(id, FerricChloride)
  }

  /** The id names no mineral acid, weak acid or solvent keyword. */
  predicate NoAcidOrSolvent(id: string)
  {
    !Includes(id, H2so4) && !Includes(id, Oleum) && !Includes(id, H3po4) && !Includes(id, Acetic) && !Includes(id, Formic) &&
    !Includes(id, Citric) && !Includes(id, Methanol) && !Includes(id, Ethanol) && !Includes(id, Acetone) && !Includes(id, Toluene) &&
    !Includes(id, Xylene) && !Includes(id, Diesel) && !Includes(id, Gasoline)
  }

  /** The id names no ammonia, aqueous or fertilizer keyword. */
  predicate NoAmmoniaOrAqueous(id: string)
  {
    !Includes(id, Ammonia) && !Includes(id, Water) && !Includes(id, Glycol) && !Includes(id, AmmoniumNitrate) && !Includes(id, Fertilizer)
  }

  /** The id names none of the gate keywords that no classifier rule tests. */
  predicate NoOtherGateKeyword(id: string)
  {
    !Includes(id, Nitric) && !Includes(id, Sulfuric) && !Includes(id, Hydrochloric) && !Includes(id, Muriatic) &&
    !Includes(id, Phosphoric) && !Includes(id, SodiumHydroxide) && !Includes(id, PotassiumHydroxide) && !Includes(id, Peroxide) &&
    !Includes(id, Mek) && !Includes(id, Bleach) && !Includes(id, Kerosene) && !Includes(id, Ammonium) && !Includes(id, Nitrate) &&
    !Includes(id, Urea)
  }

  lemma GatePart0Missed(id: string)
    requires NoFluorideOxidizerOrBase(id) && NoToxicOrHalogen(id) && NoAcidOrSolvent(id) && NoAmmoniaOrAqueous(id)
    requires NoOtherGateKeyword(id)
    ensures forall k :: k in GatePart0 ==> !Includes(id, k)
  {
  }

  lemma GatePart1Missed(id: string)
    requires NoFluorideOxidizerOrBase(id) && NoToxicOrHalogen(id) && NoAcidOrSolvent(id) && NoAmmoniaOrAqueous(id)
    requires NoOtherGateKeyword(id)
    ensures forall k :: k in GatePart1 ==> !Includes(id, k)
  {
  }

  lemma GatePart2Missed(id: string)
    requires NoFluorideOxidizerOrBase(id) && NoToxicOrHalogen(id) && NoAcidOrSolvent(id) && NoAmmoniaOrAqueous(id)
    requires NoOtherGateKeyword(id)
    ensures forall k :: k in GatePart2 ==> !Includes(id, k)
  {
  }

  lemma GatePart3Missed(id: string)
    requires NoFluorideOxidizerOrBase(id) && NoToxicOrHalogen(id) && NoAcidOrSolvent(id) && NoAmmoniaOrAqueous(id)
    requires NoOtherGateKeyword(id)
    ensures forall k :: k in GatePart3 ==> !Includes(id, k)
  {
  }

  lemma GatePart4Missed(id: string)
    requires NoFluorideOxidizerOrBase(id) && NoToxicOrHalogen(id) && NoAcidOrSolvent(id) && NoAmmoniaOrAqueous(id)
    requires NoOtherGateKeyword(id)
    ensures forall k :: k in GatePart4 ==> !Includes(id, k)
  {
  }

  /** An id that names no classifier keyword falls through every rule to NEUTRAL, at any concentration. */
  lemma UnclassifiedIsNeutral(id: string, conc: nat)
    requires NoFluorideOxidizerOrBase(id) && NoToxicOrHalogen(id) && NoAcidOrSolvent(id) && NoAmmoniaOrAqueous(id)
    ensures ClassifyKeywords(id, conc) == Classification(Neutral, [])
  {
  }

  /** An id that names no gate keyword fails the validity gate. */
  lemma UngatedIsInvalid(id: string)
    requires NoFluorideOxidizerOrBase(id) && NoToxicOrHalogen(id) && NoAcidOrSolvent(id) && NoAmmoniaOrAqueous(id)
    requires NoOtherGateKeyword(id)
    ensures !IsValidFluid(id)
  {
    GatePart0Missed(id);
    GatePart1Missed(id);
    GatePart2Missed(id);
    GatePart3Missed(id);
    GatePart4Missed(id);
    forall k | k in GateKeywords
      ensures !Includes(id, k)
    {
      GateKeywordsInParts(k);
    }
  }

  /**
   * A valid NEUTRAL fluid at 25 °C: its context is valid and NEUTRAL, and
   * its seals are STANDARD_ALLOWED, single seals among them.
   */
  lemma NeutralFluidIsStandardAllowed(runId: string, id: string)
    requires IsValidFluid(id) && ResolvePrimaryRegime(id) == Classification(Neutral, [])
    ensures var ctx := CreateRunContext(runId, Some(id), Some(25.0), Some("C"));
      && ctx.valid && ctx.primaryRegime == Neutral
      && ResolveSealEligibility(Some(ctx)) == SealDecision(StandardAllowed, RulePrefix + "13.3: Benign fluid", [Single, Double, Cartridge])
  {
  }

  // The keyword checks for the ids below, one group at a time: each keyword
  // has a character the id lacks, or a piece the id does not contain.

  /** The characters of `kerosene`. */
  const KeroseneLetters: set<char> := {'k', 'e', 'r', 'o', 's', 'n'}

  lemma KeroseneMissesFluorideOxidizerOrBase(id: string)
    requires AllIn(id, KeroseneLetters)
    ensures NoFluorideOxidizerOrBase(id)
  {
    NotIncludesOutside(id, KeroseneLetters, Hf, 0);
    NotIncludesOutside(id, KeroseneLetters, Fluoride, 0);
    NotIncludesOutside(id, KeroseneLetters, Hno3, 0);
    NotIncludesOutside(id, KeroseneLetters, H2o2, 0);
    NotIncludesOutside(id, KeroseneLetters, Chromic, 0);
    NotIncludesOutside(id, KeroseneLetters, Naoh, 1);
    NotIncludesOutside(id, KeroseneLetters, Koh, 2);
    NotIncludesOutside(id, KeroseneLetters, Caustic, 0);
  }

  lemma KeroseneMissesToxicOrHalogen(id: string)
    requires AllIn(id, KeroseneLetters)
    ensures NoToxicOrHalogen(id)
  {
    NotIncludesOutside(id, KeroseneLetters, Cyanide, 0);
    NotIncludesOutside(id, KeroseneLetters, Arsenic, 0);
    NotIncludesOutside(id, KeroseneLetters, Mercury, 0);
    NotIncludesOutside(id, KeroseneLetters, Benzene, 0);
    NotIncludesOutside(id, KeroseneLetters, Chlorine, 0);
    NotIncludesOutside(id, KeroseneLetters, Hcl, 0);
    NotIncludesOutside(id, KeroseneLetters, Chloride, 0);
    NotIncludesOutside(id, KeroseneLetters, Seawater, 2);
    NotIncludesOutside(id, KeroseneLetters, Hypochlorite, 0);
    NotIncludesOutside(id, KeroseneLetters, Brine, 0);
    NotIncludesOutside(id, KeroseneLetters, FerricChloride, 0);
  }

  lemma KeroseneMissesAcidOrSolvent(id: string)
    requires AllIn(id, KeroseneLetters)
    ensures NoAcidOrSolvent(id)
  {
    NotIncludesOutside(id, KeroseneLetters, H2so4, 0);
    NotIncludesOutside(id, KeroseneLetters, Oleum, 1);
    NotIncludesOutside(id, KeroseneLetters, H3po4, 0);
    NotIncludesOutside(id, KeroseneLetters, Acetic, 0);
    NotIncludesOutside(id, KeroseneLetters, Formic, 0);
    NotIncludesOutside(id, KeroseneLetters, Citric, 0);
    NotIncludesOutside(id, KeroseneLetters, Methanol, 0);
    NotIncludesOutside(id, KeroseneLetters, Ethanol, 1);
    NotIncludesOutside(id, KeroseneLetters, Acetone, 0);
    NotIncludesOutside(id, KeroseneLetters, Toluene, 0);
    NotIncludesOutside(id, KeroseneLetters, Xylene, 0);
    NotIncludesOutside(id, KeroseneLetters, Diesel, 0);
    NotIncludesOutside(id, KeroseneLetters, Gasoline, 0);
  }

  lemma KeroseneMissesAmmoniaOrAqueous(id: string)
    requires AllIn(id, KeroseneLetters)
    ensures NoAmmoniaOrAqueous(id)
  {
    NotIncludesOutside(id, KeroseneLetters, Ammonia, 0);
    NotIncludesOutside(id, KeroseneLetters, Water, 0);
    NotIncludesOutside(id, KeroseneLetters, Glycol, 0);
    NotIncludesOutside(id, KeroseneLetters, AmmoniumNitrate, 0);
    NotIncludesOutside(id, KeroseneLetters, Fertilizer, 0);
  }

  /** The characters of `nitric-acid`. */
  const NitricAcidLetters: set<char> := {'n', 'i', 't', 'r', 'c', '-', 'a', 'd'}

  lemma NitricAcidMissesFluorideOxidizerOrBase(id: string)
    requires AllIn(id, NitricAcidLetters)
    ensures NoFluorideOxidizerOrBase(id)
  {
    NotIncludesOutside(id, NitricAcidLetters, Hf, 0);
    NotIncludesOutside(id, NitricAcidLetters, Fluoride, 0);
    NotIncludesOutside(id, NitricAcidLetters, Hno3, 0);
    NotIncludesOutside(id, NitricAcidLetters, H2o2, 0);
    NotIncludesOutside(id, NitricAcidLetters, Chromic, 1);
    NotIncludesOutside(id, NitricAcidLetters, Naoh, 2);
    NotIncludesOutside(id, NitricAcidLetters, Koh, 0);
    NotIncludesOutside(id, NitricAcidLetters, Caustic, 2);
  }

  lemma NitricAcidMissesToxicOrHalogen(id: string)
    requires AllIn(id, NitricAcidLetters)
    ensures NoToxicOrHalogen(id)
  {
    NotIncludesOutside(id, NitricAcidLetters, Cyanide, 1);
    NotIncludesOutside(id, NitricAcidLetters, Arsenic, 2);
    NotIncludesOutside(id, NitricAcidLetters, Mercury, 0);
    NotIncludesOutside(id, NitricAcidLetters, Benzene, 0);
    NotIncludesOutside(id, NitricAcidLetters, Chlorine, 1);
    NotIncludesOutside(id, NitricAcidLetters, Hcl, 0);
    NotIncludesOutside(id, NitricAcidLetters, Chloride, 1);
    NotIncludesOutside(id, NitricAcidLetters, Seawater, 0);
    NotIncludesOutside(id, NitricAcidLetters, Hypochlorite, 0);
    NotIncludesOutside(id, NitricAcidLetters, Brine, 0);
    NotIncludesOutside(id, NitricAcidLetters, FerricChloride, 0);
  }

  lemma NitricAcidMissesAcidOrSolvent(id: string)
    requires AllIn(id, NitricAcidLetters) && !Includes(id, Citric)
    ensures NoAcidOrSolvent(id)
  {
    NotIncludesOutside(id, NitricAcidLetters, H2so4, 0);
    NotIncludesOutside(id, NitricAcidLetters, Oleum, 0);
    NotIncludesOutside(id, NitricAcidLetters, H3po4, 0);
    NotIncludesOutside(id, NitricAcidLetters, Acetic, 2);
    NotIncludesOutside(id, NitricAcidLetters, Formic, 0);
    NotIncludesOutside(id, NitricAcidLetters, Methanol, 0);
    NotIncludesOutside(id, NitricAcidLetters, Ethanol, 0);
    NotIncludesOutside(id, NitricAcidLetters, Acetone, 2);
    NotIncludesOutside(id, NitricAcidLetters, Toluene, 1);
    NotIncludesOutside(id, NitricAcidLetters, Xylene, 0);
    NotIncludesOutside(id, NitricAcidLetters, Diesel, 2);
    NotIncludesOutside(id, NitricAcidLetters, Gasoline, 0);
  }

  lemma NitricAcidMissesAmmoniaOrAqueous(id: string)
    requires AllIn(id, NitricAcidLetters)
    ensures NoAmmoniaOrAqueous(id)
  {
    NotIncludesOutside(id, NitricAcidLetters, Ammonia, 1);
    NotIncludesOutside(id, NitricAcidLetters, Water, 0);
    NotIncludesOutside(id, NitricAcidLetters, Glycol, 0);
    NotIncludesOutside(id, NitricAcidLetters, AmmoniumNitrate, 1);
    NotIncludesOutside(id, NitricAcidLetters, Fertilizer, 0);
  }

  /** The characters of `sodium-hydroxide-50`. */
  const SodiumHydroxide50Letters: set<char> := {'s', 'o', 'd', 'i', 'u', 'm', '-', 'h', 'y', 'r', 'x', 'e', '5', '0'}

  lemma SodiumHydroxide50MissesFluorideOxidizerOrBase(id: string)
    requires AllIn(id, SodiumHydroxide50Letters)
    ensures NoFluorideOxidizerOrBase(id)
  {
    NotIncludesOutside(id, SodiumHydroxide50Letters, Hf, 1);
    NotIncludesOutside(id, SodiumHydroxide50Letters, Fluoride, 0);
    NotIncludesOutside(id, SodiumHydroxide50Letters, Hno3, 1);
    NotIncludesOutside(id, SodiumHydroxide50Letters, H2o2, 1);
    NotIncludesOutside(id, SodiumHydroxide50Letters, Chromic, 0);
    NotIncludesOutside(id, SodiumHydroxide50Letters, Naoh, 0);
    NotIncludesOutside(id, SodiumHydroxide50Letters, Koh, 0);
    NotIncludesOutside(id, SodiumHydroxide50Letters, Caustic, 0);
  }

  lemma SodiumHydroxide50MissesToxicOrHalogen(id: string)
    requires AllIn(id, SodiumHydroxide50Letters)
    ensures NoToxicOrHalogen(id)
  {
    NotIncludesOutside(id, SodiumHydroxide50Letters, Cyanide, 0);
    NotIncludesOutside(id, SodiumHydroxide50Letters, Arsenic, 0);
    NotIncludesOutside(id, SodiumHydroxide50Letters, Mercury, 3);
    NotIncludesOutside(id, SodiumHydroxide50Letters, Benzene, 0);
    NotIncludesOutside(id, SodiumHydroxide50Letters, Chlorine, 0);
    NotIncludesOutside(id, SodiumHydroxide50Letters, Hcl, 1);
    NotIncludesOutside(id, SodiumHydroxide50Letters, Chloride, 0);
    NotIncludesOutside(id, SodiumHydroxide50Letters, Seawater, 2);
    NotIncludesOutside(id, SodiumHydroxide50Letters, Hypochlorite, 2);
    NotIncludesOutside(id, SodiumHydroxide50Letters, Brine, 0);
    NotIncludesOutside(id, SodiumHydroxide50Letters, FerricChloride, 0);
  }

  lemma SodiumHydroxide50MissesAcidOrSolvent(id: string)
    requires AllIn(id, SodiumHydroxide50Letters)
    ensures NoAcidOrSolvent(id)
  {
    NotIncludesOutside(id, SodiumHydroxide50Letters, H2so4, 1);
    NotIncludesOutside(id, SodiumHydroxide50Letters, Oleum, 1);
    NotIncludesOutside(id, SodiumHydroxide50Letters, H3po4, 1);
    NotIncludesOutside(id, SodiumHydroxide50Letters, Acetic, 0);
    NotIncludesOutside(id, SodiumHydroxide50Letters, Formic, 0);
    NotIncludesOutside(id, SodiumHydroxide50Letters, Citric, 0);
    NotIncludesOutside(id, SodiumHydroxide50Letters, Methanol, 2);
    NotIncludesOutside(id, SodiumHydroxide50Letters, Ethanol, 1);
    NotIncludesOutside(id, SodiumHydroxide50Letters, Acetone, 0);
    NotIncludesOutside(id, SodiumHydroxide50Letters, Toluene, 0);
    NotIncludesOutside(id, SodiumHydroxide50Letters, Xylene, 2);
    NotIncludesOutside(id, SodiumHydroxide50Letters, Diesel, 5);
    NotIncludesOutside(id, SodiumHydroxide50Letters, Gasoline, 0);
  }

  lemma SodiumHydroxide50MissesAmmoniaOrAqueous(id: string)
    requires AllIn(id, SodiumHydroxide50Letters)
    ensures NoAmmoniaOrAqueous(id)
  {
    NotIncludesOutside(id, SodiumHydroxide50Letters, Ammonia, 0);
    NotIncludesOutside(id, SodiumHydroxide50Letters, Water, 0);
    NotIncludesOutside(id, SodiumHydroxide50Letters, Glycol, 0);
    NotIncludesOutside(id, SodiumHydroxide50Letters, AmmoniumNitrate, 0);
    NotIncludesOutside(id, SodiumHydroxide50Letters, Fertilizer, 0);
  }

  /** The characters of `mek`. */
  const MekLetters: set<char> := {'m', 'e', 'k'}

  lemma MekMissesFluorideOxidizerOrBase(id: string)
    requires AllIn(id, MekLetters)
    ensures NoFluorideOxidizerOrBase(id)
  {
    NotIncludesOutside(id, MekLetters, Hf, 0);
    NotIncludesOutside(id, MekLetters, Fluoride, 0);
    NotIncludesOutside(id, MekLetters, Hno3, 0);
    NotIncludesOutside(id, MekLetters, H2o2, 0);
    NotIncludesOutside(id, MekLetters, Chromic, 0);
    NotIncludesOutside(id, MekLetters, Naoh, 0);
    NotIncludesOutside(id, MekLetters, Koh, 1);
    NotIncludesOutside(id, MekLetters, Caustic, 0);
  }

  lemma MekMissesToxicOrHalogen(id: string)
    requires AllIn(id, MekLetters)
    ensures NoToxicOrHalogen(id)
  {
    NotIncludesOutside(id, MekLetters, Cyanide, 0);
    NotIncludesOutside(id, MekLetters, Arsenic, 0);
    NotIncludesOutside(id, MekLetters, Mercury, 2);
    NotIncludesOutside(id, MekLetters, Benzene, 0);
    NotIncludesOutside(id, MekLetters, Chlorine, 0);
    NotIncludesOutside(id, MekLetters, Hcl, 0);
    NotIncludesOutside(id, MekLetters, Chloride, 0);
    NotIncludesOutside(id, MekLetters, Seawater, 0);
    NotIncludesOutside(id, MekLetters, Hypochlorite, 0);
    NotIncludesOutside(id, MekLetters, Brine, 0);
    NotIncludesOutside(id, MekLetters, FerricChloride, 0);
  }

  lemma MekMissesAcidOrSolvent(id: string)
    requires AllIn(id, MekLetters)
    ensures NoAcidOrSolvent(id)
  {
    NotIncludesOutside(id, MekLetters, H2so4, 0);
    NotIncludesOutside(id, MekLetters, Oleum, 0);
    NotIncludesOutside(id, MekLetters, H3po4, 0);
    NotIncludesOutside(id, MekLetters, Acetic, 0);
    NotIncludesOutside(id, MekLetters, Formic, 0);
    NotIncludesOutside(id, MekLetters, Citric, 0);
    NotIncludesOutside(id, MekLetters, Methanol, 2);
    NotIncludesOutside(id, MekLetters, Ethanol, 1);
    NotIncludesOutside(id, MekLetters, Acetone, 0);
    NotIncludesOutside(id, MekLetters, Toluene, 0);
    NotIncludesOutside(id, MekLetters, Xylene, 0);
    NotIncludesOutside(id, MekLetters, Diesel, 0);
    NotIncludesOutside(id, MekLetters, Gasoline, 0);
  }

  lemma MekMissesAmmoniaOrAqueous(id: string)
    requires AllIn(id, MekLetters)
    ensures NoAmmoniaOrAqueous(id)
  {
    NotIncludesOutside(id, MekLetters, Ammonia, 0);
    NotIncludesOutside(id, MekLetters, Water, 0);
    NotIncludesOutside(id, MekLetters, Glycol, 0);
    NotIncludesOutside(id, MekLetters, AmmoniumNitrate, 0);
    NotIncludesOutside(id, MekLetters, Fertilizer, 0);
  }

  /** The characters of `hydrofluoric-acid`. */
  const HydrofluoricAcidLetters: set<char> := {'h', 'y', 'd', 'r', 'o', 'f', 'l', 'u', 'i', 'c', '-', 'a'}

  lemma HydrofluoricAcidMissesFluorideOxidizerOrBase(id: string)
    requires AllIn(id, HydrofluoricAcidLetters) && !Includes(id, Hf)
    ensures NoFluorideOxidizerOrBase(id)
  {
    NotIncludesOutside(id, HydrofluoricAcidLetters, Fluoride, 7);
    NotIncludesOutside(id, HydrofluoricAcidLetters, Hno3, 1);
    NotIncludesOutside(id, HydrofluoricAcidLetters, H2o2, 1);
    NotIncludesOutside(id, HydrofluoricAcidLetters, Chromic, 4);
    NotIncludesOutside(id, HydrofluoricAcidLetters, Naoh, 0);
    NotIncludesOutside(id, HydrofluoricAcidLetters, Koh, 0);
    NotIncludesOutside(id, HydrofluoricAcidLetters, Caustic, 3);
  }

  lemma HydrofluoricAcidMissesToxicOrHalogen(id: string)
    requires AllIn(id, HydrofluoricAcidLetters) && !Includes(id, Hcl)
    ensures NoToxicOrHalogen(id)
  {
    NotIncludesOutside(id, HydrofluoricAcidLetters, Cyanide, 3);
    NotIncludesOutside(id, HydrofluoricAcidLetters, Arsenic, 2);
    NotIncludesOutside(id, HydrofluoricAcidLetters, Mercury, 0);
    NotIncludesOutside(id, HydrofluoricAcidLetters, Benzene, 0);
    NotIncludesOutside(id, HydrofluoricAcidLetters, Chlorine, 6);
    NotIncludesOutside(id, HydrofluoricAcidLetters, Chloride, 7);
    NotIncludesOutside(id, HydrofluoricAcidLetters, Seawater, 0);
    NotIncludesOutside(id, HydrofluoricAcidLetters, Hypochlorite, 2);
    NotIncludesOutside(id, HydrofluoricAcidLetters, Brine, 0);
    NotIncludesOutside(id, HydrofluoricAcidLetters, FerricChloride, 1);
  }

  lemma HydrofluoricAcidMissesAcidOrSolvent(id: string)
    requires AllIn(id, HydrofluoricAcidLetters)
    ensures NoAcidOrSolvent(id)
  {
    NotIncludesOutside(id, HydrofluoricAcidLetters, H2so4, 1);
    NotIncludesOutside(id, HydrofluoricAcidLetters, Oleum, 2);
    NotIncludesOutside(id, HydrofluoricAcidLetters, H3po4, 1);
    NotIncludesOutside(id, HydrofluoricAcidLetters, Acetic, 2);
    NotIncludesOutside(id, HydrofluoricAcidLetters, Formic, 3);
    NotIncludesOutside(id, HydrofluoricAcidLetters, Citric, 2);
    NotIncludesOutside(id, HydrofluoricAcidLetters, Methanol, 0);
    NotIncludesOutside(id, HydrofluoricAcidLetters, Ethanol, 0);
    NotIncludesOutside(id, HydrofluoricAcidLetters, Acetone, 2);
    NotIncludesOutside(id, HydrofluoricAcidLetters, Toluene, 0);
    NotIncludesOutside(id, HydrofluoricAcidLetters, Xylene, 0);
    NotIncludesOutside(id, HydrofluoricAcidLetters, Diesel, 2);
    NotIncludesOutside(id, HydrofluoricAcidLetters, Gasoline, 0);
  }

  lemma HydrofluoricAcidMissesAmmoniaOrAqueous(id: string)
    requires AllIn(id, HydrofluoricAcidLetters)
    ensures NoAmmoniaOrAqueous(id)
  {
    NotIncludesOutside(id, HydrofluoricAcidLetters, Ammonia, 1);
    NotIncludesOutside(id, HydrofluoricAcidLetters, Water, 0);
    NotIncludesOutside(id, HydrofluoricAcidLetters, Glycol, 0);
    NotIncludesOutside(id, HydrofluoricAcidLetters, AmmoniumNitrate, 1);
    NotIncludesOutside(id, HydrofluoricAcidLetters, Fertilizer, 1);
  }

  lemma HydrofluoricAcidMissesOtherGateKeyword(id: string)
    requires AllIn(id, HydrofluoricAcidLetters) && !Includes(id, Hydrochloric)
    ensures NoOtherGateKeyword(id)
  {
    NotIncludesOutside(id, HydrofluoricAcidLetters, Nitric, 0);
    NotIncludesOutside(id, HydrofluoricAcidLetters, Sulfuric, 0);
    NotIncludesOutside(id, HydrofluoricAcidLetters, Muriatic, 0);
    NotIncludesOutside(id, HydrofluoricAcidLetters, Phosphoric, 0);
    NotIncludesOutside(id, HydrofluoricAcidLetters, SodiumHydroxide, 0);
    NotIncludesOutside(id, HydrofluoricAcidLetters, PotassiumHydroxide, 0);
    NotIncludesOutside(id, HydrofluoricAcidLetters, Peroxide, 0);
    NotIncludesOutside(id, HydrofluoricAcidLetters, Mek, 0);
    NotIncludesOutside(id, HydrofluoricAcidLetters, Bleach, 0);
    NotIncludesOutside(id, HydrofluoricAcidLetters, Kerosene, 0);
    NotIncludesOutside(id, HydrofluoricAcidLetters, Ammonium, 1);
    NotIncludesOutside(id, HydrofluoricAcidLetters, Nitrate, 0);
    NotIncludesOutside(id, HydrofluoricAcidLetters, Urea, 2);
  }

  /** `nitric-acid` does not mention `citric`: `acid` and `itric` are too short, and `n` and `-` are not in it. */
  lemma NitricAcidLacksCitric()
    ensures !Includes("nitric-acid", Citric)
  {
    NotIncludesShort("", Citric);
    NotIncludesShort("itric", Citric);
    NotIncludesAcross("", 'n', "itric", Citric);
    assert "" + ['n'] + "itric" == "nitric";
    NotIncludesShort("acid", Citric);
    NotIncludesAcross("nitric", '-', "acid", Citric);
    assert "nitric" + ['-'] + "acid" == "nitric-acid";
  }

  /**
   * `hydrofluoric-acid` mentions neither `hf`, `hcl` nor `hydrochloric`:
   * its only `h` is the first character, which `y` follows.
   */
  /** The letters of `hydrofluoric-acid` after its first two. */
  const HydrofluoricAcidTail: set<char> := {'d', 'r', 'o', 'f', 'l', 'u', 'i', 'c', '-', 'a'}

  lemma HydrofluoricAcidLacksHydrogenHalides()
    ensures !Includes("hydrofluoric-acid", Hf)
    ensures !Includes("hydrofluoric-acid", Hcl)
    ensures !Includes("hydrofluoric-acid", Hydrochloric)
  {
    HydrofluoricAcidLacksHf();
    HydrofluoricAcidLacksHcl();
    HydrofluoricAcidLacksHydrochloric();
  }

  lemma HydrofluoricAcidLacksHf()
    ensures !Includes("hydrofluoric-acid", Hf)
  {
    var tail := "drofluoric-acid";
    assert "h" + ['y'] + tail == "hydrofluoric-acid";
    assert AllIn(tail, HydrofluoricAcidTail);
    NotIncludesShort("h", Hf);
    NotIncludesOutside(tail, HydrofluoricAcidTail, Hf, 0);
    NotIncludesAcross("h", 'y', tail, Hf);
  }

  lemma HydrofluoricAcidLacksHcl()
    ensures !Includes("hydrofluoric-acid", Hcl)
  {
    var tail := "drofluoric-acid";
    assert "h" + ['y'] + tail == "hydrofluoric-acid";
    assert AllIn(tail, HydrofluoricAcidTail);
    NotIncludesShort("h", Hcl);
    NotIncludesOutside(tail, HydrofluoricAcidTail, Hcl, 0);
    NotIncludesAcross("h", 'y', tail, Hcl);
  }

  lemma HydrofluoricAcidLacksHydrochloric()
    ensures !Includes("hydrofluoric-acid", Hydrochloric)
  {
    var rest := "luoric-acid";
    assert "hydro" + ['f'] + rest == "hydrofluoric-acid";
    assert AllIn(rest, HydrofluoricAcidTail);
    NotIncludesShort("hydro", Hydrochloric);
    NotIncludesOutside(rest, HydrofluoricAcidTail, Hydrochloric, 0);
    NotIncludesAcross("hydro", 'f', rest, Hydrochloric);
  }

  /** `kerosene` passes the gate but no classifier rule names it: NEUTRAL. */
  lemma KeroseneIsNeutral()
    ensures IsValidFluid("kerosene") && ResolvePrimaryRegime("kerosene") == Classification(Neutral, [])
  {
    KeroseneIsValid();
    KeroseneIsUnclassified();
  }

  lemma KeroseneIsValid()
    ensures IsValidFluid("kerosene")
  {
    IncludesItself(Kerosene);
    assert Kerosene in GateKeywords;
  }

  lemma KeroseneIsUnclassified()
    ensures ResolvePrimaryRegime("kerosene") == Classification(Neutral, [])
  {
    var id := "kerosene";
    assert AllIn(id, KeroseneLetters);
    KeroseneMissesFluorideOxidizerOrBase(id);
    KeroseneMissesToxicOrHalogen(id);
    KeroseneMissesAcidOrSolvent(id);
    KeroseneMissesAmmoniaOrAqueous(id);
    UnclassifiedIsNeutral(id, ExtractConcentration(id));
  }

  /** A `kerosene` run at 25 °C is STANDARD_ALLOWED, and a single seal is allowed. */
  lemma KeroseneIsStandardAllowed(runId: string)
    ensures ResolveSealEligibility(Some(CreateRunContext(runId, Some("kerosene"), Some(25.0), Some("C")))).state == StandardAllowed
    ensures Single in ResolveSealEligibility(Some(CreateRunContext(runId, Some("kerosene"), Some(25.0), Some("C")))).allowedCategories
  {
    KeroseneIsNeutral();
    NeutralFluidIsStandardAllowed(runId, "kerosene");
  }

  /** `nitric-acid` passes the gate through `nitric`, but the classifier looks for `hno3`: NEUTRAL. */
  lemma NitricAcidByNameIsNeutral()
    ensures IsValidFluid("nitric-acid") && ResolvePrimaryRegime("nitric-acid") == Classification(Neutral, [])
  {
    NitricAcidIsValid();
    NitricAcidIsUnclassified();
  }

  lemma NitricAcidIsValid()
    ensures IsValidFluid("nitric-acid")
  {
    IncludesItself(Nitric);
    IncludesInContext("", Nitric, "-acid", Nitric);
    assert "" + Nitric + "-acid" == "nitric-acid";
    assert Nitric in GateKeywords;
  }

  lemma NitricAcidIsUnclassified()
    ensures ResolvePrimaryRegime("nitric-acid") == Classification(Neutral, [])
  {
    var id := "nitric-acid";
    assert AllIn(id, NitricAcidLetters);
    NitricAcidLacksCitric();
    NitricAcidMissesFluorideOxidizerOrBase(id);
    NitricAcidMissesToxicOrHalogen(id);
    NitricAcidMissesAcidOrSolvent(id);
    NitricAcidMissesAmmoniaOrAqueous(id);
    UnclassifiedIsNeutral(id, ExtractConcentration(id));
  }

  /** A `nitric-acid` run at 25 °C is STANDARD_ALLOWED, and a single seal is allowed. */
  lemma NitricAcidByNameIsStandardAllowed(runId: string)
    ensures ResolveSealEligibility(Some(CreateRunContext(runId, Some("nitric-acid"), Some(25.0), Some("C")))).state == StandardAllowed
    ensures Single in ResolveSealEligibility(Some(CreateRunContext(runId, Some("nitric-acid"), Some(25.0), Some("C")))).allowedCategories
  {
    NitricAcidByNameIsNeutral();
    NeutralFluidIsStandardAllowed(runId, "nitric-acid");
  }

  /** `sodium-hydroxide-50` passes the gate through `sodium-hydroxide`, but the caustic rule looks for `naoh`, `koh` and `caustic`: NEUTRAL. */
  lemma SodiumHydroxideByNameIsNeutral()
    ensures IsValidFluid("sodium-hydroxide-50") && ResolvePrimaryRegime("sodium-hydroxide-50") == Classification(Neutral, [])
  {
    SodiumHydroxide50IsValid();
    SodiumHydroxide50IsUnclassified();
  }

  lemma SodiumHydroxide50IsValid()
    ensures IsValidFluid("sodium-hydroxide-50")
  {
    IncludesItself(SodiumHydroxide);
    IncludesInContext("", SodiumHydroxide, "-50", SodiumHydroxide);
    assert "" + SodiumHydroxide + "-50" == "sodium-hydroxide-50";
    assert SodiumHydroxide in GateKeywords;
  }

  lemma SodiumHydroxide50IsUnclassified()
    ensures ResolvePrimaryRegime("sodium-hydroxide-50") == Classification(Neutral, [])
  {
    var id := "sodium-hydroxide-50";
    assert AllIn(id, SodiumHydroxide50Letters);
    SodiumHydroxide50MissesFluorideOxidizerOrBase(id);
    SodiumHydroxide50MissesToxicOrHalogen(id);
    SodiumHydroxide50MissesAcidOrSolvent(id);
    SodiumHydroxide50MissesAmmoniaOrAqueous(id);
    UnclassifiedIsNeutral(id, ExtractConcentration(id));
  }

  /** A `sodium-hydroxide-50` run at 25 °C is STANDARD_ALLOWED, and a single seal is allowed. */
  lemma SodiumHydroxideByNameIsStandardAllowed(runId: string)
    ensures ResolveSealEligibility(Some(CreateRunContext(runId, Some("sodium-hydroxide-50"), Some(25.0), Some("C")))).state == StandardAllowed
    ensures Single in ResolveSealEligibility(Some(CreateRunContext(runId, Some("sodium-hydroxide-50"), Some(25.0), Some("C")))).allowedCategories
  {
    SodiumHydroxideByNameIsNeutral();
    NeutralFluidIsStandardAllowed(runId, "sodium-hydroxide-50");
  }

  /** `mek` passes the gate but the solvent rule does not name it: NEUTRAL. */
  lemma MekIsNeutral()
    ensures IsValidFluid("mek") && ResolvePrimaryRegime("mek") == Classification(Neutral, [])
  {
    MekIsValid();
    MekIsUnclassified();
  }

  lemma MekIsValid()
    ensures IsValidFluid("mek")
  {
    IncludesItself(Mek);
    assert Mek in GateKeywords;
  }

  lemma MekIsUnclassified()
    ensures ResolvePrimaryRegime("mek") == Classification(Neutral, [])
  {
    var id := "mek";
    assert AllIn(id, MekLetters);
    MekMissesFluorideOxidizerOrBase(id);
    MekMissesToxicOrHalogen(id);
    MekMissesAcidOrSolvent(id);
    MekMissesAmmoniaOrAqueous(id);
    UnclassifiedIsNeutral(id, ExtractConcentration(id));
  }

  /** A `mek` run at 25 °C is STANDARD_ALLOWED, and a single seal is allowed. */
  lemma MekIsStandardAllowed(runId: string)
    ensures ResolveSealEligibility(Some(CreateRunContext(runId, Some("mek"), Some(25.0), Some("C")))).state == StandardAllowed
    ensures Single in ResolveSealEligibility(Some(CreateRunContext(runId, Some("mek"), Some(25.0), Some("C")))).allowedCategories
  {
    MekIsNeutral();
    NeutralFluidIsStandardAllowed(runId, "mek");
  }

  /**
   * `hydrofluoric-acid` names neither `hf` nor `fluoride` nor any other gate
   * keyword: it fails the gate, so its context is UNKNOWN_RESTRICTED and its
   * seal selection is suppressed (GT-2).
   */
  lemma HydrofluoricAcidByNameIsSuppressed(runId: string)
    ensures !IsValidFluid("hydrofluoric-acid")
    ensures CreateRunContext(runId, Some("hydrofluoric-acid"), Some(25.0), Some("C")).primaryRegime == UnknownRestricted
    ensures ResolveSealEligibility(Some(CreateRunContext(runId, Some("hydrofluoric-acid"), Some(25.0), Some("C")))).state == SealSelectionSuppressed
  {
    HydrofluoricAcidIsInvalid();
  }

  lemma HydrofluoricAcidIsInvalid()
    ensures !IsValidFluid("hydrofluoric-acid")
  {
    var id := "hydrofluoric-acid";
    assert AllIn(id, HydrofluoricAcidLetters);
    HydrofluoricAcidLacksHydrogenHalides();
    HydrofluoricAcidMissesFluorideOxidizerOrBase(id);
    HydrofluoricAcidMissesToxicOrHalogen(id);
    HydrofluoricAcidMissesAcidOrSolvent(id);
    HydrofluoricAcidMissesAmmoniaOrAqueous(id);
    HydrofluoricAcidMissesOtherGateKeyword(id);
    UngatedIsInvalid(id);
  }

  /** The empty id is invalid and its seal selection is suppressed (GT-133). */
  lemma EmptyIdIsSuppressed(runId: string)
    ensures !CreateRunContext(runId, Some(""), Some(25.0), Some("C")).valid
    ensures ResolveSealEligibility(Some(CreateRunContext(runId, Some(""), Some(25.0), Some("C")))).state == SealSelectionSuppressed
  {
  }
}
