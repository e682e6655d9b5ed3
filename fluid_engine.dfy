/**
 * The fluid decision core: the validity gate, the ordered regime
 * classifier, concentration and tag extraction, run contexts, the
 * seal-eligibility table, the per-material compatibility rules and the
 * oxidizer metal rule.
 */
module FluidEngine {
  import opened Wrappers
  import opened Text
  import opened Vocabulary
  import opened Keywords

  /** The version stamped on every run context. */
  const PolicyVersion: string := "V15.0"

  // ---------------------------------------------------------------------
  // Validity gate
  // ---------------------------------------------------------------------

  /** The keywords that make a fluid id known; the classifier-only keywords are not among them. */
  const GateKeywords: set<FluidKeyword> := {
    Water, Glycol, Hf, Fluoride, Hno3, Nitric, H2so4, Sulfuric, Oleum, Hcl, Hydrochloric, Muriatic,
    H3po4, Phosphoric, Naoh, Caustic, SodiumHydroxide, Koh, PotassiumHydroxide, H2o2, Peroxide,
    Benzene, Toluene, Xylene, Methanol, Ethanol, Acetone, Mek, Cyanide, Mercury, Arsenic, Chromic,
    Ammonia, Chlorine, Hypochlorite, Bleach, Seawater, Brine, Chloride, Acetic, Formic, Citric,
    Diesel, Gasoline, Kerosene, Ammonium, Nitrate, Fertilizer, Urea}

  // The gate keywords, ten at a time in their declared order. Splitting the
  // set this way keeps each membership argument small.
  const GatePart0: set<FluidKeyword> := {Water, Glycol, Hf, Fluoride, Hno3, Nitric, H2so4, Sulfuric, Oleum, Hcl}
  const GatePart1: set<FluidKeyword> := {Hydrochloric, Muriatic, H3po4, Phosphoric, Naoh, Caustic, SodiumHydroxide, Koh, PotassiumHydroxide, H2o2}
  const GatePart2: set<FluidKeyword> := {Peroxide, Benzene, Toluene, Xylene, Methanol, Ethanol, Acetone, Mek, Cyanide, Mercury}
  const GatePart3: set<FluidKeyword> := {Arsenic, Chromic, Ammonia, Chlorine, Hypochlorite, Bleach, Seawater, Brine, Chloride, Acetic}
  const GatePart4: set<FluidKeyword> := {Formic, Citric, Diesel, Gasoline, Kerosene, Ammonium, Nitrate, Fertilizer, Urea}

  lemma GateKeywordsInParts(k: FluidKeyword)
    requires k in GateKeywords
    ensures k in GatePart0 || k in GatePart1 || k in GatePart2 || k in GatePart3 || k in GatePart4
  {
  }

  /** The id mentions some gate keyword, case-insensitively. */
  predicate KnownFluid(id: string)
  {
    exists k :: k in GateKeywords && Includes(id, k)
  }

  /** Every gate keyword has at least two letters. */
  lemma GateKeywordsAreLong(k: FluidKeyword)
    requires k in GateKeywords
    ensures 2 <= |k|
  {
    GateKeywordsInParts(k);
    if k in GatePart0 {
    } else if k in GatePart1 {
    } else if k in GatePart2 {
    } else if k in GatePart3 {
    }
  }

  /**
   * A fluid id is valid when it is non-empty and mentions a known fluid
   * family; as the shortest family keyword is `hf`, a valid id has at least
   * two characters.
   */
  predicate IsValidFluid(id: string): (b: bool)
    ensures b ==> 2 <= |id|
  {
    if id != [] && KnownFluid(id) then
      var k :| k in GateKeywords && Includes(id, k);
      GateKeywordsAreLong(k);
      IncludesLength(id, k);
      true
    else
      false
  }

  /** Adding text around a valid id keeps it valid: the gate looks for substrings. */
  lemma ValidFluidInContext(a: string, id: string, b: string)
    requires IsValidFluid(id)
    ensures IsValidFluid(a + id + b)
  {
    var k :| k in GateKeywords && Includes(id, k);
    IncludesInContext(a, id, b, k);
  }

  // ---------------------------------------------------------------------
  // Concentration and tags
  // ---------------------------------------------------------------------

  /** The longest suffix of `s` made only of decimal digits. */
  function TrailingDigits(s: string): (d: string)
    ensures AllDigits(d) && |d| <= |s|
  {
    if |s| > 0 && IsDigit(s[|s| - 1]) then TrailingDigits(s[..|s| - 1]) + [s[|s| - 1]] else []
  }

  /** The trailing digits are a suffix of `s`, and the character before them is not a digit. */
  lemma {:induction false} TrailingDigitsIsLongestSuffix(s: string)
    ensures TrailingDigits(s) == s[|s| - |TrailingDigits(s)|..]
    ensures |TrailingDigits(s)| < |s| ==> !IsDigit(s[|s| - |TrailingDigits(s)| - 1])
    decreases |s|
  {
    if |s| > 0 && IsDigit(s[|s| - 1]) {
      var init := s[..|s| - 1];
      TrailingDigitsIsLongestSuffix(init);
      assert init[|init| - |TrailingDigits(init)|..] + [s[|s| - 1]] == s[|s| - |TrailingDigits(s)|..];
    }
  }

  /**
   * The number in a trailing `-<digits>` of the id (the pattern `/-(\d+)$/`),
   * or 0 when the id does not end that way.
   */
  function ExtractConcentration(id: string): (c: nat)
    ensures c != 0 ==> 2 <= |id| && IsDigit(id[|id| - 1]) && '-' in id[..|id| - 1]
  {
    TrailingDigitsIsLongestSuffix(id);
    var d := TrailingDigits(id);
    if 0 < |d| < |id| && id[|id| - |d| - 1] == '-' then DigitsValue(d) else 0
  }

  lemma {:induction false} TrailingDigitsOfDigits(prefix: string, digits: string)
    requires AllDigits(digits)
    requires prefix == [] || !IsDigit(prefix[|prefix| - 1])
    ensures TrailingDigits(prefix + digits) == digits
    decreases |digits|
  {
    if digits == [] {
      assert prefix + digits == prefix;
    } else {
      var init := digits[..|digits| - 1];
      assert (prefix + digits)[..|prefix + digits| - 1] == prefix + init;
      TrailingDigitsOfDigits(prefix, init);
      assert init + [digits[|digits| - 1]] == digits;
    }
  }

  /** An id of the form `prefix-<digits>` has exactly that concentration. */
  lemma ConcentrationOfSuffix(prefix: string, digits: string)
    requires AllDigits(digits) && |digits| > 0
    ensures ExtractConcentration(prefix + "-" + digits) == DigitsValue(digits)
  {
    assert prefix + "-" + digits == (prefix + "-") + digits;
    TrailingDigitsOfDigits(prefix + "-", digits);
  }

  /** A non-zero concentration comes from a `-<digits>` ending of the id. */
  lemma NonZeroConcentrationHasDashSuffix(id: string)
    requires ExtractConcentration(id) != 0
    ensures exists prefix, digits :: AllDigits(digits) && |digits| > 0 && id == prefix + "-" + digits
  {
    var d := TrailingDigits(id);
    TrailingDigitsIsLongestSuffix(id);
    var prefix := id[..|id| - |d| - 1];
    assert id == prefix + "-" + d;
  }

  lemma {:induction false} LowerKeepsTrailingDigits(s: string)
    ensures TrailingDigits(Lower(s)) == TrailingDigits(s)
    decreases |s|
  {
    if |s| > 0 {
      var init := s[..|s| - 1];
      var c := s[|s| - 1];
      var ls := Lower(s);
      assert ls[..|s| - 1] == Lower(init);
      assert ls[|s| - 1] == LowerChar(c);
      LowerKeepsTrailingDigits(init);
      if IsDigit(c) {
        assert LowerChar(c) == c;
      } else {
        assert !IsDigit(LowerChar(c));
      }
    }
  }

  /** Two ids with the same trailing digits and the same dash, or not, before them have the same concentration. */
  lemma SameConcentration(a: string, b: string)
    requires |a| == |b| && TrailingDigits(a) == TrailingDigits(b)
    requires 0 < |TrailingDigits(a)| < |a| ==>
      (a[|a| - |TrailingDigits(a)| - 1] == '-' <==> b[|b| - |TrailingDigits(b)| - 1] == '-')
    ensures ExtractConcentration(a) == ExtractConcentration(b)
  {
    var d := TrailingDigits(a);
    var ka, kb := |a| - |d| - 1, |b| - |d| - 1;
    assert ka == kb;
    if 0 < |d| < |a| && a[ka] == '-' {
      assert ExtractConcentration(a) == DigitsValue(d) == ExtractConcentration(b);
    } else {
      assert ExtractConcentration(a) == 0 == ExtractConcentration(b);
    }
  }

  /** Lower-casing the id, as the classifier does, does not change its concentration. */
  lemma ConcentrationIgnoresCase(id: string)
    ensures ExtractConcentration(Lower(id)) == ExtractConcentration(id)
  {
    LowerKeepsTrailingDigits(id);
    var d := TrailingDigits(id);
    var lower := Lower(id);
    if 0 < |d| < |id| {
      var k := |id| - |d| - 1;
      assert lower[k] == LowerChar(id[k]);
    }
    SameConcentration(lower, id);
  }

  /** The tags the `i`-th tag rule adds, in the order the engine pushes them. */
  function RuleTags(id: string, i: nat): seq<Tag>
  {
    match i
    case 0 => if Includes(id, Acid) then [AcidTag] else []
    case 1 => if Includes(id, Naoh) || Includes(id, Koh) then [BaseTag] else []
    case 2 => if Includes(id, Hf) || Includes(id, Fluoride) then [FluorideTag, ToxicTag] else []
    case 3 => if Includes(id, Hcl) || Includes(id, Chloride) then [ChlorideTag] else []
    case 4 => if Includes(id, H2o2) then [OxidizerTag, PeroxideTag] else []
    case 5 => if Includes(id, Hno3) then [OxidizerTag, NitricTag] else []
    case 6 => if Includes(id, Cyanide) then [ToxicTag, CyanideTag] else []
    case 7 => if Includes(id, Water) then [AqueousTag, BenignTag] else []
    case _ => []
  }

  /** The number of tag rules. */
  const TagRuleCount: nat := 8

  /** The tags the first `n` rules add, in order. */
  function TagsUpTo(id: string, n: nat): seq<Tag>
  {
    if n == 0 then [] else TagsUpTo(id, n - 1) + RuleTags(id, n - 1)
  }


  /** Which keywords each tag stands for. */
  predicate TagApplies(id: string, t: Tag)
  {
    match t
    case AcidTag => Includes(id, Acid)
    case BaseTag => Includes(id, Naoh) || Includes(id, Koh)
    case FluorideTag => Includes(id, Hf) || Includes(id, Fluoride)
    case ToxicTag => Includes(id, Hf) || Includes(id, Fluoride) || Includes(id, Cyanide)
    case ChlorideTag => Includes(id, Hcl) || Includes(id, Chloride)
    case OxidizerTag => Includes(id, H2o2) || Includes(id, Hno3)
    case PeroxideTag => Includes(id, H2o2)
    case NitricTag => Includes(id, Hno3)
    case CyanideTag => Includes(id, Cyanide)
    case AqueousTag => Includes(id, Water)
    case BenignTag => Includes(id, Water)
  }

  lemma {:induction false} TagsUpToMembership(id: string, n: nat, t: Tag)
    ensures t in TagsUpTo(id, n) <==> exists i :: 0 <= i < n && t in RuleTags(id, i)
  {
    if n > 0 {
      TagsUpToMembership(id, n - 1, t);
      if t in RuleTags(id, n - 1) {
        assert 0 <= n - 1 < n && t in RuleTags(id, n - 1);
      }
      if i :| 0 <= i < n && t in RuleTags(id, i) {
        if i < n - 1 {
          assert 0 <= i < n - 1 && t in RuleTags(id, i);
        }
      }
    }
  }

  /** A rule that adds a tag only does so when one of the tag's keywords is mentioned. */
  lemma RuleTagsSound(id: string, i: nat, t: Tag)
    requires t in RuleTags(id, i)
    ensures TagApplies(id, t)
  {
  }

  /** The rule that adds a tag whose keyword is mentioned. */
  lemma RuleForTag(id: string, t: Tag) returns (i: nat)
    requires TagApplies(id, t)
    ensures i < TagRuleCount && t in RuleTags(id, i)
  {
    match t
    case AcidTag => i := 0;
    case BaseTag => i := 1;
    case FluorideTag => i := 2;
    case ToxicTag => i := if Includes(id, Cyanide) then 6 else 2;
    case ChlorideTag => i := 3;
    case OxidizerTag => i := if Includes(id, H2o2) then 4 else 5;
    case PeroxideTag => i := 4;
    case NitricTag => i := 5;
    case CyanideTag => i := 6;
    case AqueousTag => i := 7;
    case BenignTag => i := 7;
  }

  /** A tag is among those all the rules add exactly when one of its keywords is mentioned. */
  lemma TagsMeaning(id: string, t: Tag)
    ensures t in TagsUpTo(id, TagRuleCount) <==> TagApplies(id, t)
  {
    TagsUpToMembership(id, TagRuleCount, t);
    if t in TagsUpTo(id, TagRuleCount) {
      var i :| 0 <= i < TagRuleCount && t in RuleTags(id, i);
      RuleTagsSound(id, i, t);
    }
    if TagApplies(id, t) {
      var i := RuleForTag(id, t);
    }
  }

  /**
   * The tags of a fluid id, in the order the engine pushes them: a tag is
   * there exactly when one of its keywords is mentioned, in any case.
   */
  function GetFluidTags(id: string): (tags: seq<Tag>)
    ensures forall t :: t in tags <==> TagApplies(id, t)
  {
    assert forall t :: t in TagsUpTo(id, TagRuleCount) <==> TagApplies(id, t) by {
      forall t ensures t in TagsUpTo(id, TagRuleCount) <==> TagApplies(id, t) {
        TagsMeaning(id, t);
      }
    }
    TagsUpTo(id, TagRuleCount)
  }

  // ---------------------------------------------------------------------
  // Ordered regime classifier
  // ---------------------------------------------------------------------

  /** A primary regime with its secondary regimes. */
  datatype Classification = Classification(primary: Regime, secondary: seq<Regime>)

  /** The secondary regimes that always accompany a primary regime. */
  function SecondaryFor(primary: Regime): seq<Regime>
  {
    match primary
    case FluorideAcid => [ToxicSpecial]
    case Halogenated => [AqueousCorrosive]
    case ReducingAcid => [Dehydrating]
    case AlkalineSpecial => [ToxicSpecial]
    case _ => []
  }

  /** The regimes the classifier can produce. */
  predicate IsClassifierRegime(r: Regime)
  {
    r in {FluorideAcid, OxidizingAcid, StrongBase, ToxicSpecial, Halogenated, ReducingAcid,
          AqueousCorrosive, OrganicSolvent, AlkalineSpecial, AqueousNonHazardous, OxidizerAdjacent, Neutral}
  }

  /**
   * The classification rules, first match wins, over the keywords an id
   * mentions and its concentration.
   */
  function ClassifyKeywords(id: string, conc: nat): (c: Classification)
    ensures IsClassifierRegime(c.primary)
    ensures c.secondary == SecondaryFor(c.primary)
  {
    if Includes(id, Hf) || Includes(id, Fluoride) then
      Classification(FluorideAcid, [ToxicSpecial])
    else if (Includes(id, Hno3) && conc >= 65) || (Includes(id, H2o2) && conc >= 30) || Includes(id, Chromic) then
      Classification(OxidizingAcid, [])
    else if (Includes(id, Naoh) || Includes(id, Koh) || Includes(id, Caustic)) && conc >= 30 then
      Classification(StrongBase, [])
    else if Includes(id, Cyanide) || Includes(id, Arsenic) || Includes(id, Mercury) || Includes(id, Benzene) || Includes(id, Chlorine) then
      Classification(ToxicSpecial, [])
    else if Includes(id, Hcl) || Includes(id, Chloride) || Includes(id, Seawater) || Includes(id, Hypochlorite) || Includes(id, Brine) || Includes(id, FerricChloride) then
      Classification(Halogenated, [AqueousCorrosive])
    else if Includes(id, H2so4) && conc >= 90 then
      Classification(ReducingAcid, [Dehydrating])
    else if Includes(id, Oleum) then
      Classification(ReducingAcid, [Dehydrating])
    else if Includes(id, H2so4) || Includes(id, H3po4) || Includes(id, Acetic) || Includes(id, Formic) || Includes(id, Citric) then
      Classification(AqueousCorrosive, [])
    else if Includes(id, Methanol) || Includes(id, Ethanol) || Includes(id, Acetone) || Includes(id, Toluene) || Includes(id, Xylene) || Includes(id, Diesel) || Includes(id, Gasoline) then
      Classification(OrganicSolvent, [])
    else if Includes(id, Ammonia) then
      Classification(AlkalineSpecial, [ToxicSpecial])
    else if Includes(id, Water) || Includes(id, Glycol) then
      Classification(AqueousNonHazardous, [])
    else if Includes(id, AmmoniumNitrate) || Includes(id, Fertilizer) then
      Classification(OxidizerAdjacent, [])
    else
      Classification(Neutral, [])
  }

  /**
   * The regime of a fluid id. The engine reads the concentration from the
   * lower-cased id, which is the concentration of the id itself.
   */
  function ResolvePrimaryRegime(fluidId: string): (c: Classification)
    ensures c == ClassifyKeywords(fluidId, ExtractConcentration(fluidId))
  {
    ConcentrationIgnoresCase(fluidId);
    ClassifyKeywords(fluidId, ExtractConcentration(Lower(fluidId)))
  }

  /** Any id mentioning `hf` or `fluoride` is FLUORIDE_ACID with a TOXIC_SPECIAL secondary, whatever else it contains. */
  lemma FluorideDominates(id: string)
    requires Includes(id, "hf") || Includes(id, "fluoride")
    ensures ResolvePrimaryRegime(id) == Classification(FluorideAcid, [ToxicSpecial])
  {
  }

  /** No keyword of the fluoride and oxidizer rules is mentioned. */
  predicate NoFluorideOrOxidizerKeyword(id: string)
  {
    !Includes(id, Hf) && !Includes(id, Fluoride) && !Includes(id, Hno3) && !Includes(id, H2o2) && !Includes(id, Chromic)
  }

  /** Nitric acid (`hno3`) is OXIDIZING_ACID exactly from 65 upwards, when no earlier or other oxidizer keyword occurs. */
  lemma NitricThreshold(id: string, conc: nat)
    requires Includes(id, Hno3) && !Includes(id, Hf) && !Includes(id, Fluoride) && !Includes(id, H2o2) && !Includes(id, Chromic)
    ensures ClassifyKeywords(id, conc).primary == OxidizingAcid <==> conc >= 65
  {
  }

  /** Hydrogen peroxide (`h2o2`) is OXIDIZING_ACID exactly from 30 upwards, when no earlier or other oxidizer keyword occurs. */
  lemma PeroxideThreshold(id: string, conc: nat)
    requires Includes(id, H2o2) && !Includes(id, Hf) && !Includes(id, Fluoride) && !Includes(id, Hno3) && !Includes(id, Chromic)
    ensures ClassifyKeywords(id, conc).primary == OxidizingAcid <==> conc >= 30
  {
  }

  /** Caustics (`naoh`, `koh`, `caustic`) are STRONG_BASE exactly from 30 upwards, when the earlier rules' keywords do not occur. */
  lemma CausticThreshold(id: string, conc: nat)
    requires Includes(id, Naoh) || Includes(id, Koh) || Includes(id, Caustic)
    requires NoFluorideOrOxidizerKeyword(id)
    ensures ClassifyKeywords(id, conc).primary == StrongBase <==> conc >= 30
  {
  }

  /** No keyword of the rules before the sulfuric rules is mentioned. */
  predicate NoKeywordBeforeSulfuric(id: string)
  {
    NoFluorideOrOxidizerKeyword(id) && !Includes(id, Naoh) && !Includes(id, Koh) && !Includes(id, Caustic) &&
    !Includes(id, Cyanide) && !Includes(id, Arsenic) && !Includes(id, Mercury) && !Includes(id, Benzene) && !Includes(id, Chlorine) &&
    !Includes(id, Hcl) && !Includes(id, Chloride) && !Includes(id, Seawater) && !Includes(id, Hypochlorite) && !Includes(id, Brine) && !Includes(id, FerricChloride)
  }

  /**
   * Sulfuric acid (`h2so4`) is REDUCING_ACID with DEHYDRATING from 90 upwards
   * or as oleum, and AQUEOUS_CORROSIVE otherwise.
   */
  lemma SulfuricThreshold(id: string, conc: nat)
    requires Includes(id, H2so4) && NoKeywordBeforeSulfuric(id)
    ensures conc >= 90 || Includes(id, Oleum) ==> ClassifyKeywords(id, conc) == Classification(ReducingAcid, [Dehydrating])
    ensures conc < 90 && !Includes(id, Oleum) ==> ClassifyKeywords(id, conc) == Classification(AqueousCorrosive, [])
  {
  }

  /** Every id the classifier takes away from NEUTRAL is known to the gate, or mentions ferric chloride or ammonium nitrate. */
  lemma ClassifiedKeywordsAreKnown(id: string, conc: nat)
    requires ClassifyKeywords(id, conc).primary != Neutral
    ensures KnownFluid(id) || Includes(id, FerricChloride) || Includes(id, AmmoniumNitrate)
  {
  }

  /** An id that mentions `ferric-chloride` mentions `chloride`. */
  lemma FerricChlorideMentionsChloride(id: string)
    requires Includes(id, FerricChloride)
    ensures Includes(id, Chloride)
  {
    assert FerricChloride == "ferric-" + Chloride;
    IncludesPieces(id, "ferric-", Chloride);
  }

  /** An id that mentions `ammonium-nitrate` mentions `ammonium`. */
  lemma AmmoniumNitrateMentionsAmmonium(id: string)
    requires Includes(id, AmmoniumNitrate)
    ensures Includes(id, Ammonium)
  {
    assert AmmoniumNitrate == Ammonium + "-nitrate";
    IncludesPieces(id, Ammonium, "-nitrate");
  }

  /** Every non-empty id the classifier takes away from NEUTRAL passes the validity gate. */
  lemma ClassifiedFluidIsValid(id: string)
    requires id != [] && ResolvePrimaryRegime(id).primary != Neutral
    ensures IsValidFluid(id)
  {
    ClassifiedKeywordsAreKnown(id, ExtractConcentration(id));
    if Includes(id, FerricChloride) {
      FerricChlorideMentionsChloride(id);
      assert Chloride in GateKeywords;
    } else if Includes(id, AmmoniumNitrate) {
      AmmoniumNitrateMentionsAmmonium(id);
      assert Ammonium in GateKeywords;
    }
  }

  // ---------------------------------------------------------------------
  // Run contexts
  // ---------------------------------------------------------------------

  /** The record a run starts from. `fluidTags` and `concentration` exist only on valid contexts. */
  datatype RunContext = RunContext(
    runId: string,
    fluidId: string,
    temperature: real,
    unit: string,
    primaryRegime: Regime,
    secondaryRegimes: seq<Regime>,
    fluidTags: Option<seq<Tag>>,
    concentration: Option<nat>,
    valid: bool,
    policyVersion: string)

  /** `temp || 25`: a missing or zero temperature becomes 25. */
  function EffectiveTemperature(temp: Option<real>): (t: real)
    ensures t != 0.0
    ensures temp.Some? && temp.value != 0.0 ==> t == temp.value
    ensures temp.None? || temp.value == 0.0 ==> t == 25.0
  {
    if temp.None? || temp.value == 0.0 then 25.0 else temp.value
  }

  /** Fahrenheit to Celsius. */
  function FahrenheitToCelsius(f: real): real
  {
    (f - 32.0) * 5.0 / 9.0
  }

  /** Celsius to Fahrenheit. */
  function CelsiusToFahrenheit(c: real): real
  {
    c * 9.0 / 5.0 + 32.0
  }

  /** The two conversions are inverse to each other. */
  lemma FahrenheitRoundTrip(f: real)
    ensures CelsiusToFahrenheit(FahrenheitToCelsius(f)) == f
    ensures FahrenheitToCelsius(CelsiusToFahrenheit(f)) == f
  {
  }

  /**
   * Builds a run context. An absent, empty or unknown fluid id gives an
   * invalid context whose regime is UNKNOWN_RESTRICTED; otherwise the
   * temperature is normalised to Celsius and the id classified.
   * `runId` stands for the clock- and random-based run id.
   */
  function CreateRunContext(runId: string, fluidId: Option<string>, temp: Option<real>, unit: Option<string>): (ctx: RunContext)
    ensures ctx.policyVersion == PolicyVersion && ctx.runId == runId
    ensures ctx.valid <==> fluidId.Some? && IsValidFluid(fluidId.value)
    ensures !ctx.valid ==>
      ctx.primaryRegime == UnknownRestricted && ctx.secondaryRegimes == [] &&
      ctx.fluidTags.None? && ctx.concentration.None? &&
      ctx.temperature == EffectiveTemperature(temp) &&
      ctx.fluidId == (if fluidId.None? || fluidId.value == [] then "INVALID" else fluidId.value) &&
      ctx.unit == (if unit.None? || unit.value == [] then "C" else unit.value)
    ensures ctx.valid ==>
      ctx.unit == "C" && ctx.fluidId == fluidId.value &&
      ctx.primaryRegime != UnknownRestricted && ctx.secondaryRegimes == SecondaryFor(ctx.primaryRegime) &&
      ctx.primaryRegime == ResolvePrimaryRegime(fluidId.value).primary &&
      ctx.fluidTags == Some(GetFluidTags(fluidId.value)) &&
      ctx.concentration == Some(ExtractConcentration(fluidId.value))
    ensures ctx.valid && unit == Some("F") ==> CelsiusToFahrenheit(ctx.temperature) == EffectiveTemperature(temp)
    ensures ctx.valid && unit != Some("F") ==> ctx.temperature == EffectiveTemperature(temp)
  {
    var fid := fluidId.GetOr("");
    if fid == [] || !IsValidFluid(fid) then
      RunContext(runId, if fid == [] then "INVALID" else fid, EffectiveTemperature(temp),
                 if unit.None? || unit.value == [] then "C" else unit.value,
                 UnknownRestricted, [], None, None, false, PolicyVersion)
    else
      var tempC := if unit == Some("F") then FahrenheitToCelsius(EffectiveTemperature(temp)) else EffectiveTemperature(temp);
      var regime := ResolvePrimaryRegime(fid);
      FahrenheitRoundTrip(EffectiveTemperature(temp));
      RunContext(runId, fid, tempC, "C", regime.primary, regime.secondary,
                 Some(GetFluidTags(fid)), Some(ExtractConcentration(fid)), true, PolicyVersion)
  }

  /** A zero temperature is stored as 25 on both branches unless a valid context converts it from Fahrenheit. */
  lemma ZeroTemperatureBecomesDefault(runId: string, fluidId: Option<string>, unit: Option<string>)
    requires unit != Some("F")
    ensures CreateRunContext(runId, fluidId, Some(0.0), unit).temperature == 25.0
  {
    var ctx := CreateRunContext(runId, fluidId, Some(0.0), unit);
    assert EffectiveTemperature(Some(0.0)) == 25.0;
  }

  /** The invalid branch stores the raw temperature and the given unit, without converting Fahrenheit. */
  lemma InvalidContextKeepsFahrenheit(runId: string, fluidId: Option<string>, temp: real)
    requires temp != 0.0
    requires fluidId.None? || !IsValidFluid(fluidId.value)
    ensures CreateRunContext(runId, fluidId, Some(temp), Some("F")).temperature == temp
    ensures CreateRunContext(runId, fluidId, Some(temp), Some("F")).unit == "F"
  {
  }

  // ---------------------------------------------------------------------
  // Seal eligibility
  // ---------------------------------------------------------------------

  datatype SealDecision = SealDecision(state: SealState, reason: string, allowedCategories: seq<SealCategory>)

  /**
   * The seal-eligibility table. It consults only the context's primary
   * regime; a missing context is suppressed.
   */
  function ResolveSealEligibility(ctx: Option<RunContext>): (d: SealDecision)
    ensures (Single in d.allowedCategories) <==> d.state == StandardAllowed
    ensures d.allowedCategories == [] <==> d.state == SealSelectionSuppressed
    ensures d.state == SealSelectionSuppressed <==> ctx.None? || ctx.value.primaryRegime == UnknownRestricted
    ensures d.state == SeallessRequired <==> ctx.Some? && ctx.value.primaryRegime in {FluorideAcid, ExplosiveEnergetic}
    ensures d.state == SeallessRequired ==> d.allowedCategories == [MagneticDrive, CannedMotor]
    ensures d.state == StandardAllowed ==> d.allowedCategories == [Single, Double, Cartridge]
    ensures d.state == ReinforcedRequired ==> d.allowedCategories == [Double, Cartridge]
    ensures ctx.Some? && ctx.value.primaryRegime == ToxicSpecial ==>
      d.allowedCategories == [SpecializedCartridge, OemEngineered, Double]
    ensures ctx.Some? && ctx.value.primaryRegime == AlkalineSpecial ==> d.allowedCategories == [SpecializedCartridge, Double]
    ensures d.state == SpecializedRequired <==> ctx.Some? && ctx.value.primaryRegime in {ToxicSpecial, AlkalineSpecial}
    ensures d.state == ReinforcedRequired <==>
      ctx.Some? && ctx.value.primaryRegime in {OxidizingAcid, Halogenated, StrongBase, ReducingAcid, AqueousCorrosive, OrganicSolvent}
  {
    if ctx.None? then SealDecision(SealSelectionSuppressed, "Invalid context", [])
    else
      var r := ctx.value.primaryRegime;
      if r == Neutral || r == AqueousNonHazardous then
        SealDecision(StandardAllowed, RulePrefix + "13.3: Benign fluid", [Single, Double, Cartridge])
      else if r == FluorideAcid || r == ExplosiveEnergetic then
        SealDecision(SeallessRequired, RulePrefix + "13.4: " + RegimeName(r) + " sealless", [MagneticDrive, CannedMotor])
      else if r == ToxicSpecial then
        SealDecision(SpecializedRequired, RulePrefix + "13.4: Toxic specialized", [SpecializedCartridge, OemEngineered, Double])
      else if r in {OxidizingAcid, Halogenated, StrongBase, ReducingAcid, AqueousCorrosive, OrganicSolvent} then
        SealDecision(ReinforcedRequired, RulePrefix + "13.4: Reinforced", [Double, Cartridge])
      else if r == AlkalineSpecial then
        SealDecision(SpecializedRequired, "V15: Ammonia specialized", [SpecializedCartridge, Double])
      else if r == UnknownRestricted then
        SealDecision(SealSelectionSuppressed, RulePrefix + "9: Unknown", [])
      else
        SealDecision(StandardAllowed, RulePrefix + "13.3: Standard", [Single, Double, Cartridge])
  }

  /** Two contexts with the same primary regime get the same decision, valid or not. */
  lemma SealDependsOnlyOnRegime(c1: RunContext, c2: RunContext)
    requires c1.primaryRegime == c2.primaryRegime
    ensures ResolveSealEligibility(Some(c1)) == ResolveSealEligibility(Some(c2))
  {
  }

  /** Every context the engine builds from an unknown fluid has its seal selection suppressed. */
  lemma InvalidFluidIsSuppressed(runId: string, fluidId: Option<string>, temp: Option<real>, unit: Option<string>)
    requires fluidId.None? || !IsValidFluid(fluidId.value)
    ensures ResolveSealEligibility(Some(CreateRunContext(runId, fluidId, temp, unit))).state == SealSelectionSuppressed
    ensures ResolveSealEligibility(Some(CreateRunContext(runId, fluidId, temp, unit))).allowedCategories == []
  {
  }

  /** A valid context is never suppressed: the classifier never yields UNKNOWN_RESTRICTED. */
  lemma ValidFluidIsNotSuppressed(runId: string, id: string, temp: Option<real>, unit: Option<string>)
    requires IsValidFluid(id)
    ensures ResolveSealEligibility(Some(CreateRunContext(runId, Some(id), temp, unit))).state != SealSelectionSuppressed
  {
  }

  // ---------------------------------------------------------------------
  // Material compatibility
  // ---------------------------------------------------------------------

  /** Metals HF attacks. */
  predicate HfAttackedMetal(mat: string)
  {
    Includes(mat, Carbon) || Includes(mat, Iron) || Includes(mat, Steel) || Includes(mat, Grade316) || Includes(mat, Grade304)
  }

  /** Elastomers not rated for HF. */
  predicate HfUnratedElastomer(mat: string)
  {
    Includes(mat, Epdm) || Includes(mat, Nbr) || Includes(mat, Neoprene) || Includes(mat, Silicone)
  }

  /** Polymers limited to 80 °C. */
  predicate HeatLimitedPolymer(mat: string)
  {
    Includes(mat, Pvc) || Includes(mat, Pp) || Includes(mat, Hdpe) || Includes(mat, Epdm) || Includes(mat, Nbr) || Includes(mat, Neoprene)
  }

  /** The context carries the CHLORIDE tag (`fluidTags?.includes('CHLORIDE')`). */
  predicate ChlorideTagged(ctx: RunContext)
  {
    ctx.fluidTags.Some? && ChlorideTag in ctx.fluidTags.value
  }

  /**
   * Compatibility of a material in a run context: regime-specific rules
   * first, then the 80 °C polymer ceiling, then COMPATIBLE.
   */
  function EvaluateMaterialCompatibility(mat: string, ctx: Option<RunContext>): (a: Assessment)
    ensures a.status == InsufficientData <==> ctx.None? || !ctx.value.valid
    ensures a.status in {Compatible, Conditional, Fail, InsufficientData}
    ensures a.status == Conditional ==>
      ctx.value.primaryRegime == FluorideAcid || (ctx.value.primaryRegime == Halogenated && ChlorideTagged(ctx.value))
  {
    if ctx.None? || !ctx.value.valid then Assessment(InsufficientData, "Invalid context")
    else
      var r := ctx.value.primaryRegime;
      var t := ctx.value.temperature;
      var chloride := ChlorideTagged(ctx.value);
      if r == FluorideAcid && HfAttackedMetal(mat) then Assessment(Fail, RulePrefix + "12.2: HF attacks")
      else if r == FluorideAcid && HfUnratedElastomer(mat) then Assessment(Fail, RulePrefix + "12.2: Elastomer not HF rated")
      else if r == FluorideAcid && (Includes(mat, Ptfe) || Includes(mat, Hastelloy) || Includes(mat, Kalrez)) then
        Assessment(Conditional, RulePrefix + "12.2: Verify HF grade")
      else if r == StrongBase && (Includes(mat, Aluminum) || Includes(mat, Zinc)) then Assessment(Fail, RulePrefix + "12.3: Amphoteric attacked")
      else if r == StrongBase && Includes(mat, Titanium) && t > 60.0 then Assessment(Fail, RulePrefix + "12.3: Ti attacked hot caustic")
      else if r == Halogenated && chloride && Includes(mat, Titanium) then Assessment(Fail, "Ti attacked by HCl")
      else if r == Halogenated && chloride && (Includes(mat, Grade316) || Includes(mat, Grade304)) then Assessment(Conditional, "Chloride SCC risk")
      else if r == ReducingAcid && Includes(mat, Hastelloy) then Assessment(Fail, "Hastelloy attacked conc H2SO4")
      else if r == ReducingAcid && Includes(mat, Titanium) then Assessment(Fail, "Ti attacked reducing acids")
      else if r == OxidizingAcid && Includes(mat, Titanium) then Assessment(Compatible, "Ti excellent oxidizers")
      else if t > 80.0 && HeatLimitedPolymer(mat) then Assessment(Fail, "V15: Temp exceeds polymer limit")
      else Assessment(Compatible, "Compatible")
  }

  /** HF attacks carbon steel, iron and the 300-series stainless steels in any valid FLUORIDE_ACID context. */
  lemma HfFailsListedMetals(mat: string, ctx: RunContext)
    requires ctx.valid && ctx.primaryRegime == FluorideAcid
    requires Includes(mat, "carbon") || Includes(mat, "iron") || Includes(mat, "steel") || Includes(mat, "316") || Includes(mat, "304")
    ensures EvaluateMaterialCompatibility(mat, Some(ctx)) == Assessment(Fail, RulePrefix + "12.2: HF attacks")
  {
    assert HfAttackedMetal(mat);
  }

  /** HF: an elastomer not rated for it fails, when no attacked metal is named first. */
  lemma HfFailsUnratedElastomer(mat: string, ctx: RunContext)
    requires ctx.valid && ctx.primaryRegime == FluorideAcid
    requires !HfAttackedMetal(mat) && HfUnratedElastomer(mat)
    ensures EvaluateMaterialCompatibility(mat, Some(ctx)) == Assessment(Fail, RulePrefix + "12.2: Elastomer not HF rated")
  {
  }

  /** HF: PTFE, Hastelloy and Kalrez are CONDITIONAL, when no earlier HF rule applies. */
  lemma HfConditionalForRatedMaterial(mat: string, ctx: RunContext)
    requires ctx.valid && ctx.primaryRegime == FluorideAcid
    requires !HfAttackedMetal(mat) && !HfUnratedElastomer(mat)
    requires Includes(mat, Ptfe) || Includes(mat, Hastelloy) || Includes(mat, Kalrez)
    ensures EvaluateMaterialCompatibility(mat, Some(ctx)) == Assessment(Conditional, RulePrefix + "12.2: Verify HF grade")
  {
  }

  /** Strong bases attack the amphoteric metals aluminium and zinc at any temperature. */
  lemma StrongBaseFailsAmphoteric(mat: string, ctx: RunContext)
    requires ctx.valid && ctx.primaryRegime == StrongBase
    requires Includes(mat, Aluminum) || Includes(mat, Zinc)
    ensures EvaluateMaterialCompatibility(mat, Some(ctx)) == Assessment(Fail, RulePrefix + "12.3: Amphoteric attacked")
  {
  }

  /** Strong bases attack titanium above 60 °C, and only above it. */
  lemma StrongBaseTitaniumByTemperature(mat: string, ctx: RunContext)
    requires ctx.valid && ctx.primaryRegime == StrongBase
    requires !Includes(mat, Aluminum) && !Includes(mat, Zinc) && Includes(mat, Titanium)
    ensures ctx.temperature > 60.0 ==>
      EvaluateMaterialCompatibility(mat, Some(ctx)) == Assessment(Fail, RulePrefix + "12.3: Ti attacked hot caustic")
    ensures ctx.temperature <= 60.0 ==> EvaluateMaterialCompatibility(mat, Some(ctx)) == Assessment(Compatible, "Compatible")
  {
  }

  /** Halogenated fluids tagged CHLORIDE: titanium fails. */
  lemma ChlorideFailsTitanium(mat: string, ctx: RunContext)
    requires ctx.valid && ctx.primaryRegime == Halogenated && ChlorideTagged(ctx)
    requires Includes(mat, Titanium)
    ensures EvaluateMaterialCompatibility(mat, Some(ctx)) == Assessment(Fail, "Ti attacked by HCl")
  {
  }

  /** Halogenated fluids tagged CHLORIDE: the 300-series stainless steels are CONDITIONAL (stress-corrosion cracking). */
  lemma ChlorideConditionalStainless(mat: string, ctx: RunContext)
    requires ctx.valid && ctx.primaryRegime == Halogenated && ChlorideTagged(ctx)
    requires !Includes(mat, Titanium) && (Includes(mat, Grade316) || Includes(mat, Grade304))
    ensures EvaluateMaterialCompatibility(mat, Some(ctx)) == Assessment(Conditional, "Chloride SCC risk")
  {
  }

  /** Reducing acids attack Hastelloy. */
  lemma ReducingAcidFailsHastelloy(mat: string, ctx: RunContext)
    requires ctx.valid && ctx.primaryRegime == ReducingAcid
    requires Includes(mat, Hastelloy)
    ensures EvaluateMaterialCompatibility(mat, Some(ctx)) == Assessment(Fail, "Hastelloy attacked conc H2SO4")
  {
  }

  /** Reducing acids attack titanium, when Hastelloy is not named first. */
  lemma ReducingAcidFailsTitanium(mat: string, ctx: RunContext)
    requires ctx.valid && ctx.primaryRegime == ReducingAcid
    requires !Includes(mat, Hastelloy) && Includes(mat, Titanium)
    ensures EvaluateMaterialCompatibility(mat, Some(ctx)) == Assessment(Fail, "Ti attacked reducing acids")
  {
  }

  /** Oxidizing acids: titanium is COMPATIBLE, at any temperature and even in a heat-limited polymer's name. */
  lemma OxidizingAcidTitaniumCompatible(mat: string, ctx: RunContext)
    requires ctx.valid && ctx.primaryRegime == OxidizingAcid
    requires Includes(mat, Titanium)
    ensures EvaluateMaterialCompatibility(mat, Some(ctx)) == Assessment(Compatible, "Ti excellent oxidizers")
  {
  }

  /** Some regime-specific rule decides the material in this context. */
  predicate RegimeRuleApplies(mat: string, ctx: RunContext)
  {
    var r := ctx.primaryRegime;
    (r == FluorideAcid && (HfAttackedMetal(mat) || HfUnratedElastomer(mat) ||
                          Includes(mat, Ptfe) || Includes(mat, Hastelloy) || Includes(mat, Kalrez)))
    || (r == StrongBase && (Includes(mat, Aluminum) || Includes(mat, Zinc) || (Includes(mat, Titanium) && ctx.temperature > 60.0)))
    || (r == Halogenated && ChlorideTagged(ctx) && (Includes(mat, Titanium) || Includes(mat, Grade316) || Includes(mat, Grade304)))
    || (r == ReducingAcid && (Includes(mat, Hastelloy) || Includes(mat, Titanium)))
    || (r == OxidizingAcid && Includes(mat, Titanium))
  }

  /**
   * The polymer ceiling never overrides a regime rule: when one applies,
   * the verdict is not the polymer one. When none applies, the polymer
   * ceiling decides, and without it the material is COMPATIBLE.
   */
  lemma PolymerCeilingOnlyWithoutRegimeRule(mat: string, ctx: RunContext)
    requires ctx.valid
    ensures RegimeRuleApplies(mat, ctx) ==>
      EvaluateMaterialCompatibility(mat, Some(ctx)).reason != "V15: Temp exceeds polymer limit"
    ensures !RegimeRuleApplies(mat, ctx) && ctx.temperature > 80.0 && HeatLimitedPolymer(mat) ==>
      EvaluateMaterialCompatibility(mat, Some(ctx)) == Assessment(Fail, "V15: Temp exceeds polymer limit")
    ensures !RegimeRuleApplies(mat, ctx) && !(ctx.temperature > 80.0 && HeatLimitedPolymer(mat)) ==>
      EvaluateMaterialCompatibility(mat, Some(ctx)) == Assessment(Compatible, "Compatible")
  {
  }

  /**
   * Above 80 °C a listed polymer is never COMPATIBLE, except through the
   * earlier titanium-in-oxidizer rule; an earlier rule may make it CONDITIONAL.
   */
  lemma HotPolymerNeverCompatible(mat: string, ctx: RunContext)
    requires ctx.valid && ctx.temperature > 80.0 && HeatLimitedPolymer(mat)
    requires !(ctx.primaryRegime == OxidizingAcid && Includes(mat, Titanium))
    ensures EvaluateMaterialCompatibility(mat, Some(ctx)).status in {Fail, Conditional}
  {
  }

  /**
   * The chloride rules need the CHLORIDE tag: in a HALOGENATED context
   * without it, a material that is not a heat-limited polymer is COMPATIBLE.
   */
  lemma HalogenatedWithoutChlorideTag(mat: string, ctx: RunContext)
    requires ctx.valid && ctx.primaryRegime == Halogenated && !ChlorideTagged(ctx)
    requires ctx.temperature <= 80.0 || !HeatLimitedPolymer(mat)
    ensures EvaluateMaterialCompatibility(mat, Some(ctx)) == Assessment(Compatible, "Compatible")
  {
  }

  /** A FAIL or CONDITIONAL verdict always comes from a regime rule or the polymer ceiling. */
  lemma NonCompatibleHasCause(mat: string, ctx: RunContext)
    requires ctx.valid
    requires EvaluateMaterialCompatibility(mat, Some(ctx)).status in {Fail, Conditional}
    ensures ctx.primaryRegime in {FluorideAcid, StrongBase, Halogenated, ReducingAcid} ||
            (ctx.temperature > 80.0 && HeatLimitedPolymer(mat))
  {
  }

  // ---------------------------------------------------------------------
  // Oxidizer metal rule
  // ---------------------------------------------------------------------

  /** Metals other than titanium that are not recommended for oxidizing acids. */
  predicate OxidizerUnsafeMetal(mat: string)
  {
    Includes(mat, Carbon) || Includes(mat, Steel) || Includes(mat, Iron) || Includes(mat, Grade316) || Includes(mat, Grade304) || Includes(mat, Hastelloy) || Includes(mat, Monel)
  }

  /** Only titanium is recommended among the listed metals for oxidizing acids. */
  function IsMetalRecommendable(mat: string, regime: Regime): (ok: bool)
    ensures !ok <==> regime == OxidizingAcid && !Includes(mat, "titanium") && OxidizerUnsafeMetal(mat)
  {
    if regime == OxidizingAcid then
      if Includes(mat, Titanium) then true
      else if OxidizerUnsafeMetal(mat) then false
      else true
    else true
  }
}
