# certa decision core and its rule tables, in Dafny

This project models the decision core of certa, a fail-closed tool that rates
fluids against seals and construction materials. It also models the small rule
tables and state machines around that core. Each module follows one source file.

- `FluidEngine` (`fluid_engine.dfy`, with `Keywords` and `Vocabulary`) is the
  rules evaluator of the golden test bench. It covers:
  - the validity gate;
  - the ordered regime classifier, the concentration and tag extractors;
  - the seal-eligibility table;
  - the per-material compatibility rules and the metal recommendability rule.
- `FluidGolden` states the bench's golden cases as lemmas about that evaluator.
- `MaterialEngine` and `MaterialGolden` are the material-expansion rule table,
  its PROVISIONAL/VERIFIED status, and its golden cases.
- `MaterialsRegistry` is the static registry of 26 materials with its lookups
  and filters.
- `Promotion` is the material promotion run. It is a class whose loop promotes
  registry entries in place and appends to the promotion log.
- `AuthTiers` holds the user tiers, the assessment quota and the feature-access
  check.
- `RevenueGates` is the gate engine. Its MRR updates unlock gates
  monotonically, in trigger order.
- `Rollback` covers:
  - the bounded deployment history, newest first;
  - the automatic rollback triggers;
  - the state changes of a rollback.
- `VercelChamber` covers the deployment pipeline's gates, the environment check,
  and the rollback agent's bounded history, oldest first.
- `EnforcementChamber` and `EnforcementSubAgents` are the governance checkers:
  - violation detection and the deployment gate;
  - fix validation and certificate checks;
  - the UI and chemistry monitors and the execution trace.
- `Analytics` and `Observability` are the in-memory metric counters, the bounded
  windows and buffers, the alert thresholds, the health status and the uptime
  text.
- `Text`, `ObjectTables` and `Wrappers` state, once, the JavaScript behaviour
  the rest relies on:
  - substring search on a lower-cased string, and number-to-text;
  - objects as ordered key tables, with the names every object inherits
    (`constructor`, `toString`, ...) and the spread `{...a, ...b}`;
  - `x || default` on optional values.

The model follows the code as written. Where the code and its own comments or
test expectations disagree, the code wins. The places where the code is
evidently wrong are listed under "## Findings". For each of them the model
states the code as written and also a corrected definition, and proves the
intended property of the corrected one. The rollback history
(`Rollback.DeploymentHistory`) and the material status use the code as written.
The feature-access check has two forms: `AuthTiers.CheckFeatureAccessAsWritten`
is the code as written, and `AuthTiers.CheckFeatureAccess` is the corrected
check.

Each state-changing operation is a method of a class with those fields, and is
proved against a function of its inputs and old state. Each pure operation is a
function whose contract states what its result means. Lemmas relate the
operations to each other and to the golden cases.

## Model

| member | source | states |
|---|---|---|
| FluidEngine.GateKeywordsAreLong | tests/golden/v15-golden-tests-150.js:42-60 | every keyword the gate looks for has at least two letters |
| FluidEngine.IsValidFluid | tests/golden/v15-golden-tests-150.js:38-61 | a valid id has at least two characters, so the empty id and one-letter ids fail the gate |
| FluidEngine.ExtractConcentration | tests/golden/v15-golden-tests-150.js:81 | a non-zero concentration only comes from an id that ends in a digit and has a `-` before it |
| FluidEngine.ValidFluidInContext | tests/golden/v15-golden-tests-150.js:38-61 | the validity gate looks for substrings only, so text around a valid id keeps it valid |
| FluidEngine.TrailingDigits | tests/golden/v15-golden-tests-150.js:81 | the digits `-(\d+)$` captures are all decimal digits and no longer than the id |
| FluidEngine.TrailingDigitsIsLongestSuffix | tests/golden/v15-golden-tests-150.js:81 | the captured digits are a suffix of the id and the character before them is not a digit (the `\d+` match is greedy) |
| FluidEngine.TrailingDigitsOfDigits | tests/golden/v15-golden-tests-150.js:81 | appending digits to a text that does not end in a digit yields exactly those digits as the capture |
| FluidEngine.ConcentrationOfSuffix | tests/golden/v15-golden-tests-150.js:81 | `extractConcentration` of `prefix-<digits>` is the decimal value of the digits |
| FluidEngine.NonZeroConcentrationHasDashSuffix | tests/golden/v15-golden-tests-150.js:81 | a non-zero concentration only comes from an id ending in `-` followed by digits |
| FluidEngine.LowerKeepsTrailingDigits | tests/golden/v15-golden-tests-150.js:65-81 | lower-casing an id does not change its trailing digits |
| FluidEngine.ConcentrationIgnoresCase | tests/golden/v15-golden-tests-150.js:65-81 | the classifier, which reads the concentration of the lower-cased id, sees the same concentration as the original id |
| FluidEngine.TagsUpToMembership | tests/golden/v15-golden-tests-150.js:83-93 | a tag is among those the first n rules push exactly when one of those rules pushes it |
| FluidEngine.RuleTagsSound | tests/golden/v15-golden-tests-150.js:85-92 | a rule pushes a tag only when one of that tag's keywords occurs in the id |
| FluidEngine.RuleForTag | tests/golden/v15-golden-tests-150.js:85-92 | when a tag's keyword occurs, some rule pushes that tag |
| FluidEngine.TagsMeaning | tests/golden/v15-golden-tests-150.js:83-94 | the tags all eight rules push contain a tag exactly when one of its keywords occurs in the id, in any case |
| FluidEngine.GetFluidTags | tests/golden/v15-golden-tests-150.js:83-94 | `getFluidTags` contains a tag exactly when one of that tag's keywords occurs in the id, in any case |
| FluidEngine.ClassifyKeywords | tests/golden/v15-golden-tests-150.js:64-79 | the primary regime is one the classifier can produce and the secondary list is the one fixed for that primary |
| FluidEngine.ResolvePrimaryRegime | tests/golden/v15-golden-tests-150.js:64-79 | the id is classified with the concentration extracted from that same id |
| FluidEngine.FluorideDominates | tests/golden/v15-golden-tests-150.js:66 | any id mentioning `hf` or `fluoride` is FLUORIDE_ACID with a TOXIC_SPECIAL secondary, whatever else it mentions |
| FluidEngine.NitricThreshold | tests/golden/v15-golden-tests-150.js:67 | nitric acid with no fluoride, peroxide or chromic keyword is OXIDIZING_ACID if and only if its concentration is at least 65 |
| FluidEngine.PeroxideThreshold | tests/golden/v15-golden-tests-150.js:67 | peroxide with no fluoride, nitric or chromic keyword is OXIDIZING_ACID if and only if its concentration is at least 30 |
| FluidEngine.CausticThreshold | tests/golden/v15-golden-tests-150.js:68 | a caustic with no earlier keyword is STRONG_BASE if and only if its concentration is at least 30 |
| FluidEngine.SulfuricThreshold | tests/golden/v15-golden-tests-150.js:71-73 | sulfuric acid is REDUCING_ACID with DEHYDRATING from 90 or as oleum, and AQUEOUS_CORROSIVE below 90 otherwise |
| FluidEngine.ClassifiedKeywordsAreKnown | tests/golden/v15-golden-tests-150.js:38-79 | every id the classifier takes away from NEUTRAL is known to the gate, or mentions ferric chloride or ammonium nitrate |
| FluidEngine.FerricChlorideMentionsChloride | tests/golden/v15-golden-tests-150.js:57-70 | an id mentioning `ferric-chloride` mentions `chloride`, which the gate knows |
| FluidEngine.AmmoniumNitrateMentionsAmmonium | tests/golden/v15-golden-tests-150.js:60-77 | an id mentioning `ammonium-nitrate` mentions `ammonium`, which the gate knows |
| FluidEngine.ClassifiedFluidIsValid | tests/golden/v15-golden-tests-150.js:30-79 | every non-empty id the classifier takes away from NEUTRAL passes the validity gate |
| FluidEngine.EffectiveTemperature | tests/golden/v15-golden-tests-150.js:31-33 | `temp \|\| 25`: a missing or zero temperature becomes 25, any other is kept |
| FluidEngine.FahrenheitRoundTrip | tests/golden/v15-golden-tests-150.js:33 | the Fahrenheit-to-Celsius conversion and its inverse undo each other |
| FluidEngine.CreateRunContext | tests/golden/v15-golden-tests-150.js:27-36 | the context is valid exactly for a present id passing the gate; invalid ones are UNKNOWN_RESTRICTED with the raw temperature and unit; valid ones carry the id's regime, tags and concentration and a Celsius temperature |
| FluidEngine.ZeroTemperatureBecomesDefault | tests/golden/v15-golden-tests-150.js:31-33 | a zero temperature outside Fahrenheit is stored as 25 on both branches |
| FluidEngine.InvalidContextKeepsFahrenheit | tests/golden/v15-golden-tests-150.js:30-31 | the invalid branch keeps a Fahrenheit temperature and the unit `F` unconverted |
| FluidEngine.ResolveSealEligibility | tests/golden/v15-golden-tests-150.js:96-106 | each seal state holds exactly for its regimes; a single seal is allowed only in STANDARD_ALLOWED and no category only in SEAL_SELECTION_SUPPRESSED; the categories are Single, Double, Cartridge for STANDARD_ALLOWED, Magnetic Drive, Canned Motor for SEALLESS_REQUIRED, Double, Cartridge for REINFORCED_REQUIRED, Specialized Cartridge, OEM Engineered, Double for TOXIC_SPECIAL and Specialized Cartridge, Double for ALKALINE_SPECIAL |
| FluidEngine.SealDependsOnlyOnRegime | tests/golden/v15-golden-tests-150.js:98-105 | two contexts with the same primary regime get the same seal decision |
| FluidEngine.InvalidFluidIsSuppressed | tests/golden/v15-golden-tests-150.js:27-106 | a context built from an unknown fluid has its seal selection suppressed with no category allowed |
| FluidEngine.ValidFluidIsNotSuppressed | tests/golden/v15-golden-tests-150.js:27-106 | a context built from a valid fluid is never suppressed |
| FluidEngine.EvaluateMaterialCompatibility | tests/golden/v15-golden-tests-150.js:108-131 | INSUFFICIENT_DATA exactly for a missing or invalid context; each CONDITIONAL and FAIL verdict is tied to the regime rule or polymer ceiling that issues it |
| FluidEngine.HfFailsListedMetals | tests/golden/v15-golden-tests-150.js:111-112 | carbon steel, iron and 300-series stainless fail in every valid FLUORIDE_ACID context |
| FluidEngine.HfFailsUnratedElastomer | tests/golden/v15-golden-tests-150.js:112 | in FLUORIDE_ACID, EPDM, NBR, neoprene and silicone fail as not HF rated, unless an attacked metal is named first |
| FluidEngine.HfConditionalForRatedMaterial | tests/golden/v15-golden-tests-150.js:113 | in FLUORIDE_ACID, PTFE, Hastelloy and Kalrez are CONDITIONAL (verify the HF grade) when no earlier HF rule applies |
| FluidEngine.StrongBaseFailsAmphoteric | tests/golden/v15-golden-tests-150.js:116 | in STRONG_BASE, aluminum and zinc fail at any temperature |
| FluidEngine.StrongBaseTitaniumByTemperature | tests/golden/v15-golden-tests-150.js:117 | in STRONG_BASE, titanium fails above 60 °C and is COMPATIBLE at 60 °C or below |
| FluidEngine.ChlorideFailsTitanium | tests/golden/v15-golden-tests-150.js:119-120 | in a HALOGENATED context tagged CHLORIDE, titanium fails |
| FluidEngine.ChlorideConditionalStainless | tests/golden/v15-golden-tests-150.js:119-121 | in a HALOGENATED context tagged CHLORIDE, 316 and 304 stainless are CONDITIONAL for stress-corrosion cracking when titanium is not named |
| FluidEngine.ReducingAcidFailsHastelloy | tests/golden/v15-golden-tests-150.js:123-124 | in REDUCING_ACID, Hastelloy fails |
| FluidEngine.ReducingAcidFailsTitanium | tests/golden/v15-golden-tests-150.js:123-125 | in REDUCING_ACID, titanium fails when Hastelloy is not named |
| FluidEngine.OxidizingAcidTitaniumCompatible | tests/golden/v15-golden-tests-150.js:127 | in OXIDIZING_ACID, titanium is COMPATIBLE at any temperature, ahead of the polymer ceiling |
| FluidEngine.PolymerCeilingOnlyWithoutRegimeRule | tests/golden/v15-golden-tests-150.js:110-129 | a verdict from a regime rule is never replaced by the polymer ceiling; with no regime rule, a heat-limited polymer above 80 °C fails and anything else is `COMPATIBLE` with reason `Compatible` |
| FluidEngine.HotPolymerNeverCompatible | tests/golden/v15-golden-tests-150.js:129 | above 80 °C the listed polymers are never COMPATIBLE, short of the titanium-in-oxidizer exception |
| FluidEngine.HalogenatedWithoutChlorideTag | tests/golden/v15-golden-tests-150.js:120-130 | a HALOGENATED context without the CHLORIDE tag skips the chloride rules and yields COMPATIBLE below the polymer ceiling |
| FluidEngine.NonCompatibleHasCause | tests/golden/v15-golden-tests-150.js:111-129 | a FAIL or CONDITIONAL verdict in a valid context always comes from a regime rule or the polymer ceiling |
| FluidEngine.IsMetalRecommendable | tests/golden/v15-golden-tests-150.js:133-145 | a metal is not recommendable exactly in OXIDIZING_ACID, when it is not titanium and names one of the listed metals |
| FluidGolden.WaterIsNotCorrosiveOrToxic | tests/golden/v15-golden-tests-150.js:66-69 | `water` mentions none of the fluoride, oxidizer, caustic or toxic keywords |
| FluidGolden.WaterIsNotHalogenatedOrSulfuric | tests/golden/v15-golden-tests-150.js:70-72 | `water` mentions none of the halogen or sulfuric keywords |
| FluidGolden.WaterIsNotOrganicOrAmmonia | tests/golden/v15-golden-tests-150.js:73-75 | `water` mentions none of the weak-acid, solvent or ammonia keywords |
| FluidGolden.WaterRegime | tests/golden/v15-golden-tests-150.js:76 | water passes the gate and is AQUEOUS_NON_HAZARDOUS |
| FluidGolden.WaterIsStandardAllowed | tests/golden/v15-golden-tests-150.js:152 | GT-001: water allows standard seals, a single seal among them |
| FluidGolden.BoilingWaterInFahrenheit | tests/golden/v15-golden-tests-150.js:320 | GT-145: 212 °F water is stored as 100 °C |
| FluidGolden.HydrofluoricAcidRegime | tests/golden/v15-golden-tests-150.js:160 | `hf-48` is a valid FLUORIDE_ACID fluid with the FLUORIDE tag |
| FluidGolden.HydrofluoricAcidIsSealless | tests/golden/v15-golden-tests-150.js:157-161 | GT-006 to GT-010: `hf-48` is FLUORIDE_ACID with TOXIC_SPECIAL, sealless, and never a single seal |
| FluidGolden.CarbonSteelFailsInFluorideAcid | tests/golden/v15-golden-tests-150.js:112 | carbon steel fails in every valid FLUORIDE_ACID context |
| FluidGolden.HydrofluoricAcidFailsCarbonSteel | tests/golden/v15-golden-tests-150.js:260 | GT-091: HF attacks carbon steel |
| FluidGolden.ConcentratedNitricIsOxidizing | tests/golden/v15-golden-tests-150.js:162 | GT-011: `hno3-65` is OXIDIZING_ACID |
| FluidGolden.DiluteNitricConcentration | tests/golden/v15-golden-tests-150.js:192 | `hno3-30` carries concentration 30 |
| FluidGolden.DiluteNitricKeywords | tests/golden/v15-golden-tests-150.js:192 | `hno3-30` names nitric acid and no fluoride or other oxidizer |
| FluidGolden.DiluteNitricIsNotOxidizing | tests/golden/v15-golden-tests-150.js:192 | GT-035: `hno3-30` is valid and not OXIDIZING_ACID |
| FluidGolden.StrongNitricIsOxidizing | tests/golden/v15-golden-tests-150.js:163-165 | `hno3-70` is OXIDIZING_ACID |
| FluidGolden.NitricMetalRecommendations | tests/golden/v15-golden-tests-150.js:163-165 | GT-012 to GT-014: carbon steel and 316 are not recommendable in `hno3-70`, titanium is |
| FluidGolden.ConcentratedNitricConcentration | tests/golden/v15-golden-tests-150.js:81 | `hno3-65` carries concentration 65 |
| FluidGolden.StrongNitricConcentration | tests/golden/v15-golden-tests-150.js:81 | `hno3-70` carries concentration 70 |
| FluidGolden.CausticConcentration | tests/golden/v15-golden-tests-150.js:177 | `naoh-50` carries concentration 50 |
| FluidGolden.CausticKeywords | tests/golden/v15-golden-tests-150.js:177 | `naoh-50` names caustic soda and no fluoride or oxidizer |
| FluidGolden.CausticIsStrongBase | tests/golden/v15-golden-tests-150.js:177 | GT-026: `naoh-50` is a valid STRONG_BASE fluid |
| FluidGolden.CausticContext | tests/golden/v15-golden-tests-150.js:178-180 | a `naoh-50` run at a non-zero Celsius temperature is a valid STRONG_BASE context at that temperature |
| FluidGolden.StrongBaseAttacksAluminumAndHotTitanium | tests/golden/v15-golden-tests-150.js:116-118 | aluminum fails in every valid STRONG_BASE context, titanium above 60 °C |
| FluidGolden.CausticDecisions | tests/golden/v15-golden-tests-150.js:178-180 | GT-027 to GT-029: reinforced seals, aluminum fails, titanium at 80 °C fails |
| FluidGolden.UnclassifiedIsNeutral | tests/golden/v15-golden-tests-150.js:64-78 | an id that mentions none of the classifier's keywords falls through to NEUTRAL with no secondary regime |
| FluidGolden.UngatedIsInvalid | tests/golden/v15-golden-tests-150.js:38-61 | an id that mentions none of the gate's keywords fails the gate |
| FluidGolden.NeutralFluidIsStandardAllowed | tests/golden/v15-golden-tests-150.js:96-99 | a valid NEUTRAL id gives a valid NEUTRAL context whose seal decision is STANDARD_ALLOWED with Single, Double and Cartridge |
| FluidGolden.KeroseneIsValid | tests/golden/v15-golden-tests-150.js:59 | `kerosene` passes the gate |
| FluidGolden.KeroseneIsUnclassified | tests/golden/v15-golden-tests-150.js:64-78 | no classifier rule names `kerosene`, so it is NEUTRAL |
| FluidGolden.KeroseneIsNeutral | tests/golden/v15-golden-tests-150.js:38-78 | `kerosene` is a valid NEUTRAL fluid |
| FluidGolden.KeroseneIsStandardAllowed | tests/golden/v15-golden-tests-150.js:96-99 | `kerosene` gets standard seals, a single seal among them |
| FluidGolden.NitricAcidLacksCitric | tests/golden/v15-golden-tests-150.js:58 | `nitric-acid` does not contain `citric` |
| FluidGolden.NitricAcidIsValid | tests/golden/v15-golden-tests-150.js:44 | `nitric-acid` passes the gate through `nitric` |
| FluidGolden.NitricAcidIsUnclassified | tests/golden/v15-golden-tests-150.js:64-78 | the classifier looks for `hno3`, not `nitric`, so `nitric-acid` is NEUTRAL |
| FluidGolden.NitricAcidByNameIsNeutral | tests/golden/v15-golden-tests-150.js:38-78 | `nitric-acid` is a valid NEUTRAL fluid |
| FluidGolden.NitricAcidByNameIsStandardAllowed | tests/golden/v15-golden-tests-150.js:96-99 | `nitric-acid` gets standard seals, a single seal among them |
| FluidGolden.SodiumHydroxide50IsValid | tests/golden/v15-golden-tests-150.js:48 | `sodium-hydroxide-50` passes the gate through `sodium-hydroxide` |
| FluidGolden.SodiumHydroxide50IsUnclassified | tests/golden/v15-golden-tests-150.js:64-78 | the classifier looks for `naoh`, `koh` or `caustic`, so `sodium-hydroxide-50` is NEUTRAL |
| FluidGolden.SodiumHydroxideByNameIsNeutral | tests/golden/v15-golden-tests-150.js:38-78 | `sodium-hydroxide-50` is a valid NEUTRAL fluid |
| FluidGolden.SodiumHydroxideByNameIsStandardAllowed | tests/golden/v15-golden-tests-150.js:96-99 | `sodium-hydroxide-50` gets standard seals, a single seal among them |
| FluidGolden.MekIsValid | tests/golden/v15-golden-tests-150.js:52 | `mek` passes the gate |
| FluidGolden.MekIsUnclassified | tests/golden/v15-golden-tests-150.js:64-78 | the solvent rule does not list `mek`, so `mek` is NEUTRAL |
| FluidGolden.MekIsNeutral | tests/golden/v15-golden-tests-150.js:38-78 | `mek` is a valid NEUTRAL fluid |
| FluidGolden.MekIsStandardAllowed | tests/golden/v15-golden-tests-150.js:96-99 | `mek` gets standard seals, a single seal among them |
| FluidGolden.HydrofluoricAcidLacksHf | tests/golden/v15-golden-tests-150.js:43 | `hydrofluoric-acid` does not contain `hf` |
| FluidGolden.HydrofluoricAcidLacksHcl | tests/golden/v15-golden-tests-150.js:46 | `hydrofluoric-acid` does not contain `hcl` |
| FluidGolden.HydrofluoricAcidLacksHydrochloric | tests/golden/v15-golden-tests-150.js:46 | `hydrofluoric-acid` does not contain `hydrochloric` |
| FluidGolden.HydrofluoricAcidLacksHydrogenHalides | tests/golden/v15-golden-tests-150.js:43-46 | `hydrofluoric-acid` contains none of `hf`, `hcl` and `hydrochloric` |
| FluidGolden.HydrofluoricAcidIsInvalid | tests/golden/v15-golden-tests-150.js:38-61 | `hydrofluoric-acid` fails the gate |
| FluidGolden.HydrofluoricAcidByNameIsSuppressed | tests/golden/v15-golden-tests.js:158-168 | GT-2: `hydrofluoric-acid` fails the gate, so its context is UNKNOWN_RESTRICTED and its seal selection is suppressed, one of the two states the test accepts |
| FluidGolden.EmptyIdIsSuppressed | tests/golden/v15-golden-tests-150.js:308 | GT-133: the empty id gives an invalid context whose seal selection is suppressed |
| MaterialEngine.Rule | tests/golden/v15-golden-tests-materials.js:39-143 | a family's rule, when it has one for the regime and temperature, is COMPATIBLE, CONDITIONAL or FAIL, never UNKNOWN |
| MaterialEngine.FirstApplicableRule | tests/golden/v15-golden-tests-materials.js:33-145 | the verdict is UNKNOWN exactly when no family of the list both matches the id and has a rule |
| MaterialEngine.EvaluateMaterialCompatibility | tests/golden/v15-golden-tests-materials.js:33-146 | `evaluateMaterialCompatibility` answers UNKNOWN ("not in test database") exactly when no family block returns |
| MaterialEngine.FirstApplicableDecides | tests/golden/v15-golden-tests-materials.js:33-145 | in any family list the first family that matches and has a rule decides the verdict |
| MaterialEngine.FirstFamilyDecides | tests/golden/v15-golden-tests-materials.js:33-145 | the blocks are tried in source order: the first block that matches the id and returns decides |
| MaterialEngine.ShortIdMentionsNoLongerKeyword | tests/golden/v15-golden-tests-materials.js:39-72 | `includes` never finds a keyword longer than the id |
| MaterialEngine.ShortIdNamesNoMetal | tests/golden/v15-golden-tests-materials.js:39-72 | an id of at most four characters names no metal family |
| MaterialEngine.NoMetalFamilyOfLower | tests/golden/v15-golden-tests-materials.js:34-72 | the metal tests read the lower-cased id, so lower-casing does not change whether a metal is named |
| MaterialEngine.LongPolymerNamesNameNoMetal | tests/golden/v15-golden-tests-materials.js:95-128 | `neoprene`, `silicone` and `uhmwpe` name no metal family |
| MaterialEngine.NamedFamilyDecides | tests/golden/v15-golden-tests-materials.js:84-135 | an id named exactly after a polymer or elastomer family gets that family's verdict whenever it has a rule |
| MaterialEngine.NamedIdNamesNoMetal | tests/golden/v15-golden-tests-materials.js:84-128 | an id named exactly after a polymer or elastomer family names no metal family, so no metal block can pre-empt it |
| MaterialEngine.EncapsulatedIsCompatible | tests/golden/v15-golden-tests-materials.js:140-143 | a PTFE-encapsulated id is COMPATIBLE whenever no metal block returns first |
| MaterialEngine.EncapsulatedIsNeverUnknown | tests/golden/v15-golden-tests-materials.js:140-145 | a PTFE-encapsulated id is never UNKNOWN, whatever the regime and temperature |
| MaterialEngine.DuplexColdFails | tests/golden/v15-golden-tests-materials.js:60-61 | duplex below -50 °C fails under every regime once the monel and inconel blocks do not return |
| MaterialEngine.DuplexCausticLimit | tests/golden/v15-golden-tests-materials.js:60-66 | duplex in STRONG_BASE fails if and only if above 80 °C, and is CONDITIONAL from -50 °C to 80 °C |
| MaterialEngine.InconelHotIsCompatible | tests/golden/v15-golden-tests-materials.js:50-51 | inconel above 500 °C is COMPATIBLE under every regime once the monel block does not return |
| MaterialEngine.PeekFailsInStrongBase | tests/golden/v15-golden-tests-materials.js:84-85 | PEEK in STRONG_BASE fails at every temperature, before the 250 °C rule |
| MaterialEngine.PeekUpTo250IsCompatible | tests/golden/v15-golden-tests-materials.js:84-86 | PEEK outside STRONG_BASE is COMPATIBLE at any non-zero temperature up to 250 °C (`tempC && tempC <= 250`) |
| MaterialEngine.UhmwpeHotFails | tests/golden/v15-golden-tests-materials.js:95-96 | UHMWPE above 80 °C fails under every regime |
| MaterialEngine.FrpLimits | tests/golden/v15-golden-tests-materials.js:106-108 | FRP and GRP fail in FLUORIDE_ACID at any temperature and above 120 °C under every regime |
| MaterialEngine.FirstDashFromMeaning | tests/golden/v15-golden-tests-materials.js:151 | the search finds the first dash of the pattern, as `replace('-', '')` does |
| MaterialEngine.RemoveFirstDashWithoutDash | tests/golden/v15-golden-tests-materials.js:151 | `replace('-', '')` leaves a pattern without a dash unchanged |
| MaterialEngine.RemoveFirstDashSplits | tests/golden/v15-golden-tests-materials.js:151 | `replace('-', '')` removes only the first dash, keeping what precedes and follows it |
| MaterialEngine.AnyPatternIncludedMeaning | tests/golden/v15-golden-tests-materials.js:151 | `some` holds exactly when one pattern, with its first dash removed, occurs in the lower-cased id |
| MaterialEngine.GetMaterialStatus | tests/golden/v15-golden-tests-materials.js:148-156 | PROVISIONAL exactly when some listed pattern, with its first dash removed, occurs in the id; VERIFIED otherwise |
| MaterialEngine.DashFreePatternsAreProvisional | tests/golden/v15-golden-tests-materials.js:148-156 | an id containing a dash-free listed pattern (`peek`, `frp`, ...) is PROVISIONAL |
| MaterialEngine.MonelIdMissesMetalPatterns | tests/golden/v15-golden-tests-materials.js:149-151 | `monel-400` contains none of the metal patterns once their first dash is removed |
| MaterialEngine.MonelIdMissesPolymerPatterns | tests/golden/v15-golden-tests-materials.js:149-151 | `monel-400` contains none of the polymer patterns |
| MaterialEngine.MonelIdMissesElastomerPatterns | tests/golden/v15-golden-tests-materials.js:149-151 | `monel-400` contains none of the elastomer or encapsulated patterns |
| MaterialEngine.DashedIdIsVerified | tests/golden/v15-golden-tests-materials.js:148-156 | as written, `monel-400`, which is on the provisional list, is reported VERIFIED |
| MaterialEngine.UndashedIdsAreProvisional | tests/golden/v15-golden-tests-materials.js:148-156 | `Monel400` and `PEEK` are PROVISIONAL |
| MaterialEngine.AnyPatternNamedMeaning | tests/golden/v15-golden-tests-materials.js:149-151 | the corrected scan holds exactly when a listed pattern, as written, occurs in the id |
| MaterialEngine.CorrectedMaterialStatus | tests/golden/v15-golden-tests-materials.js:148-156 | PROVISIONAL exactly when the id contains a listed pattern in either spelling, with or without its dash; it never demotes an id the original reports PROVISIONAL |
| MaterialEngine.IncludesItself | tests/golden/v15-golden-tests-materials.js:151 | a lower-case pattern is found in itself |
| MaterialEngine.ListedIdsAreProvisional | tests/golden/v15-golden-tests-materials.js:149-150 | under the corrected status every listed id, `monel-400` among them, is PROVISIONAL |
| MaterialGolden.MonelCases | tests/golden/v15-golden-tests-materials.js:169-196 | GT-151 to GT-153: any id naming monel is CONDITIONAL in HF, COMPATIBLE in HCl and fails in oxidizers |
| MaterialGolden.InconelAtHighTemperature | tests/golden/v15-golden-tests-materials.js:203-210 | GT-154: inconel at 800 °C is COMPATIBLE |
| MaterialGolden.InconelInOxidizer | tests/golden/v15-golden-tests-materials.js:213-220 | GT-155: inconel is CONDITIONAL in oxidizers |
| MaterialGolden.InconelInChloride | tests/golden/v15-golden-tests-materials.js:223-230 | GT-156: inconel is COMPATIBLE in chlorides |
| MaterialGolden.DuplexCases | tests/golden/v15-golden-tests-materials.js:237-264 | GT-157 to GT-159: duplex is COMPATIBLE in chlorides, fails at -60 °C and in caustic at 90 °C |
| MaterialGolden.CastIronInWater | tests/golden/v15-golden-tests-materials.js:271-278 | GT-160: cast iron is COMPATIBLE in water |
| MaterialGolden.CastIronInAcid | tests/golden/v15-golden-tests-materials.js:281-288 | GT-161: cast iron fails in reducing acid |
| MaterialGolden.CastIronInChloride | tests/golden/v15-golden-tests-materials.js:291-298 | GT-162: cast iron fails in chlorides |
| MaterialGolden.PeekCases | tests/golden/v15-golden-tests-materials.js:305-332 | GT-163 to GT-165: PEEK in any letter case is COMPATIBLE hot, fails in caustic, COMPATIBLE in solvents |
| MaterialGolden.UhmwpeCases | tests/golden/v15-golden-tests-materials.js:339-366 | GT-166 to GT-168: UHMWPE is COMPATIBLE in slurry, fails at 90 °C, CONDITIONAL in oxidizers |
| MaterialGolden.FrpCases | tests/golden/v15-golden-tests-materials.js:373-400 | GT-169 to GT-171: FRP is COMPATIBLE in oxidizing acid, fails in HF and at 150 °C |
| MaterialGolden.NeopreneCases | tests/golden/v15-golden-tests-materials.js:407-434 | GT-172 to GT-174: neoprene is COMPATIBLE in oil, fails in oxidizers, CONDITIONAL in solvents |
| MaterialGolden.SiliconeAtHighTemperature | tests/golden/v15-golden-tests-materials.js:441-448 | GT-175: silicone is COMPATIBLE at 200 °C |
| MaterialGolden.SiliconeInOil | tests/golden/v15-golden-tests-materials.js:451-458 | GT-176: silicone fails in oil |
| MaterialGolden.SiliconeForFood | tests/golden/v15-golden-tests-materials.js:461-468 | GT-177: silicone is COMPATIBLE for food and pharma service |
| MaterialGolden.EncapsulatedCases | tests/golden/v15-golden-tests-materials.js:475-502 | GT-178 to GT-180: a PTFE-encapsulated id naming no metal is COMPATIBLE in HF, caustic and solvents |
| MaterialGolden.PeekGradeIsUnknown | tests/golden/v15-golden-tests-materials.js:84-145 | the polymer blocks compare the whole id, so `peek-450g` is UNKNOWN in caustic |
| MaterialsRegistry.WithType | src/data/materials-registry.js:557-559 | the type filter keeps exactly the entries of that type and never lengthens the list |
| MaterialsRegistry.WithStatus | src/data/materials-registry.js:561-563 | the status filter keeps exactly the entries of that status and never lengthens the list |
| MaterialsRegistry.WithStatusConcat | src/data/materials-registry.js:561-563 | filtering a concatenation filters each part, in order |
| MaterialsRegistry.WithStatusOfUniform | src/data/materials-registry.js:561-563 | filtering entries that all share a status keeps them all under that status and none under another |
| MaterialsRegistry.GetMaterial | src/data/materials-registry.js:553-555 | an entry is found exactly for the registry's keys, and it is the entry stored under that key |
| MaterialsRegistry.GetMaterialsByType | src/data/materials-registry.js:557-559 | the result holds exactly the registry's entries of the type |
| MaterialsRegistry.GetMaterialsByStatus | src/data/materials-registry.js:561-563 | the result holds exactly the registry's entries of the status |
| MaterialsRegistry.GetRegimeBehavior | src/data/materials-registry.js:581-585 | the verdict the entry records for the regime when the id is a key, the entry documents regime behaviour and maps that regime; UNKNOWN when the id is not a key, the entry has no regime behaviour, or the regime is unmapped |
| MaterialsRegistry.ExistingKeysDistinct | src/data/materials-registry.js:28-50 | the original sixteen keys are distinct |
| MaterialsRegistry.NewKeysDistinct | src/data/materials-registry.js:56-538 | the ten new keys are distinct |
| MaterialsRegistry.NoKeyOverlap | src/data/materials-registry.js:28-538 | no new key repeats an original one |
| MaterialsRegistry.ExistingAreVerifiedAndBare | src/data/materials-registry.js:28-50 | every original entry is VERIFIED and documents no regime behaviour |
| MaterialsRegistry.NewAreProvisional | src/data/materials-registry.js:56-538 | every new entry is PROVISIONAL |
| MaterialsRegistry.EntryIdsAreKeys | src/data/materials-registry.js:28-538 | every entry's `id` is the key it is stored under |
| MaterialsRegistry.RegistryIsSpread | src/data/materials-registry.js:544-547 | the object spread lists the original entries followed by the new ones, none overwritten |
| MaterialsRegistry.MaterialCount | src/data/materials-registry.js:573-579 | the registry holds 26 distinct keys, 16 original and 10 new |
| MaterialsRegistry.RegistryIdsAreKeys | src/data/materials-registry.js:544-547 | every registry entry's `id` is its key |
| MaterialsRegistry.NewLimitsAreOrdered | src/data/materials-registry.js:88-91 | every new material's minimum service temperature lies below its maximum |
| MaterialsRegistry.FilterOfUniformParts | src/data/materials-registry.js:561-571 | verified entries followed by provisional ones split back into the two parts by status, with nothing deprecated |
| MaterialsRegistry.StatusListsFollowOrigin | src/data/materials-registry.js:565-571 | the provisional list is exactly the new materials and the verified list exactly the original ones, in order |
| MaterialsRegistry.StatusListsCoverRegistry | src/data/materials-registry.js:565-579 | the provisional and verified lists together are as long as the registry |
| MaterialsRegistry.StatusListsAreDisjoint | src/data/materials-registry.js:565-571 | no entry is both provisional and verified |
| MaterialsRegistry.ProvisionalLookupInParts | src/data/materials-registry.js:587-590 | in verified entries followed by provisional ones with other keys, a lookup finds a provisional entry exactly for the second part's keys |
| MaterialsRegistry.IsProvisionalIffNew | src/data/materials-registry.js:587-590 | `isProvisional` holds exactly for the new materials' keys, compared case-sensitively |
| MaterialsRegistry.RegimeBehaviorUnknownOutsideNew | src/data/materials-registry.js:581-585 | every regime reads UNKNOWN for an original material or an id that is not a key |
| MaterialsRegistry.MonelEntry | src/data/materials-registry.js:61-65 | `Monel-400` finds the first new entry |
| MaterialsRegistry.MonelFailsInOxidizingAcid | src/data/materials-registry.js:78-86 | Monel 400 fails in oxidizing acid |
| MaterialsRegistry.MonelIsConditionalInFluorideAcid | src/data/materials-registry.js:78-86 | Monel 400 is only conditional in fluoride acid |
| MaterialsRegistry.LowerCaseMonelIsUnknown | src/data/materials-registry.js:553-590 | keys are matched exactly: `monel-400` is no key, reads UNKNOWN and is not provisional |
| Promotion.DocumentedCount | tests/promote-materials.js:106-121 | the documentation count never exceeds the number of listed materials |
| Promotion.AllDocumentedCount | tests/promote-materials.js:106-121 | when every listed material is present and documented the count is the list's length |
| Promotion.LogOf | tests/promote-materials.js:187-193 | one log entry is written per promotion record |
| Promotion.LogOfConcat | tests/promote-materials.js:187-193 | logging two batches of records is logging each batch in turn |
| Promotion.RecordIds | tests/promote-materials.js:177-183 | one id per promotion record |
| Promotion.Pointwise | tests/promote-materials.js:169-195 | the reference outcome keeps the registry's size |
| Promotion.PointwiseKeys | tests/promote-materials.js:169-195 | the reference outcome keeps every key, in order |
| Promotion.PromoteAllIsPointwise | tests/promote-materials.js:169-195 | with distinct keys the loop promotes exactly the listed PROVISIONAL entries and leaves every other entry and the key order alone |
| Promotion.PromotionTouchesOnlyListedProvisional | tests/promote-materials.js:169-195 | after the loop every key is kept and each entry is promoted exactly when it is listed and was PROVISIONAL, otherwise unchanged |
| Promotion.NothingToPromote | tests/promote-materials.js:169-171 | a run over ids none of which names a PROVISIONAL entry changes nothing and records nothing |
| Promotion.SecondRunPromotesNothing | tests/promote-materials.js:169-195 | a second run over the same list changes nothing and records nothing |
| Promotion.RecordsFromOriginalEntries | tests/promote-materials.js:169-183 | with distinct ids each record is built from the entry as it stood before the run |
| Promotion.AllProvisionalRecordIds | tests/promote-materials.js:169-183 | when every listed id names a PROVISIONAL entry, one record per id is produced, in list order |
| Promotion.ToPromoteIsNew | tests/promote-materials.js:41-52 | the promotion list is exactly the new materials' keys, in registry order |
| Promotion.NewAreDocumented | tests/promote-materials.js:111-113 | every new entry carries regime behaviour, failure modes and references |
| Promotion.SecondPartDocumentedAndProvisional | tests/promote-materials.js:108-121 | a key of the documented PROVISIONAL part of a registry is found PROVISIONAL and documented |
| Promotion.PartsPromotedToVerified | tests/promote-materials.js:169-195 | promoting the PROVISIONAL part's keys leaves every entry VERIFIED |
| Promotion.DocumentationComplete | tests/promote-materials.js:106-131 | stage 2 counts all ten listed materials as documented |
| Promotion.FirstRunPromotesAllTen | tests/promote-materials.js:169-225 | the first run records all ten materials in list order and leaves 26 VERIFIED entries and none PROVISIONAL, as the summary claims |
| Promotion.MaterialPromotionEngine.constructor | tests/promote-materials.js:58-61 | an engine takes no argument and starts from the registry as shipped, with an empty promotion log |
| Promotion.MaterialPromotionEngine.CountDocumented | tests/promote-materials.js:106-121 | the loop's count is the documentation count of the registry |
| Promotion.MaterialPromotionEngine.PromoteOne | tests/promote-materials.js:170-194 | one iteration promotes the entry only if it is PROVISIONAL, and records and logs exactly that change |
| Promotion.MaterialPromotionEngine.ExecutePromotion | tests/promote-materials.js:169-195 | the loop leaves the registry, the records and the log as the specification functions say |
| Promotion.MaterialPromotionEngine.RunPromotion | tests/promote-materials.js:67-228 | a failed golden suite blocks the run with nothing changed; otherwise the five stages are reported and the promotion is executed |
| AuthTiers.TierName | src/auth/auth0-config.js:134-135 | a missing or empty tier reads as `free`, so the tier id is never empty |
| AuthTiers.GetUserTier | src/auth/auth0-config.js:130-138 | the tier returned is always one of the four table entries |
| AuthTiers.MissingTierIsFree | src/auth/auth0-config.js:131-137 | no user, no metadata, no tier or an empty tier all give FREE |
| AuthTiers.UnknownTierIsFree | src/auth/auth0-config.js:135-137 | a tier id that upper-cases to no table key gives FREE |
| AuthTiers.TierIdIgnoresCase | src/auth/auth0-config.js:135-137 | tier ids equal after upper-casing give the same tier |
| AuthTiers.TierIdsRoundTrip | src/auth/auth0-config.js:55-137 | each tier is reached from its own lower-case `id` |
| AuthTiers.ProInAnyCase | src/auth/auth0-config.js:135-137 | `Pro` and `PRO` give the Pro tier |
| AuthTiers.CanPerformAssessment | src/auth/auth0-config.js:148-169 | an unlimited tier is always allowed; a limited one is allowed exactly below its quota; a refusal, and only a refusal, carries the upgrade link |
| AuthTiers.RemainingIsReported | src/auth/auth0-config.js:165-168 | below a limited quota the reason reports the quota minus the count as the assessments remaining |
| AuthTiers.QuotaIsMonotone | src/auth/auth0-config.js:157 | using fewer assessments never turns an allowed request into a refused one |
| AuthTiers.FreeQuotaIsFive | src/auth/auth0-config.js:56-169 | an anonymous user is allowed exactly below five assessments; PRO, TEAM and ENTERPRISE users are never refused |
| AuthTiers.CheckFeatureAccess | src/auth/auth0-config.js:227-253 | a feature is allowed exactly when it is a safety feature or the tier's own feature table maps it to true; a refusal, and only a refusal, carries the upgrade link |
| AuthTiers.SafetyFeaturesAlwaysAllowed | src/auth/auth0-config.js:231-241 | the five safety features are open to every user and every visitor, with the safety reason |
| AuthTiers.EmptyTiersDenyConvenience | src/auth/auth0-config.js:98-121 | TEAM and ENTERPRISE list no features, so they are refused everything but the safety features |
| AuthTiers.ProConvenienceFeatures | src/auth/auth0-config.js:91-95 | PRO unlocks batch processing and Excel export but not API access |
| AuthTiers.AnonymousConvenienceFeatures | src/auth/auth0-config.js:69-73 | a visitor gets FREE, which unlocks no convenience feature |
| AuthTiers.CheckFeatureAccessAsWritten | src/auth/auth0-config.js:244 | as written, `tier.features[feature]` is also truthy for a property every object inherits |
| AuthTiers.AsWrittenAgreesOnOrdinaryNames | src/auth/auth0-config.js:244 | the code as written and the corrected check agree on every feature name that is not an inherited property |
| AuthTiers.InheritedNameUnlocksFeature | src/auth/auth0-config.js:98-109 | as written, the feature `constructor` is allowed on TEAM, which lists no features; the corrected check refuses it |
| RevenueGates.GatesWellFormed | src/billing/revenue-gates.js:13-134 | the six gates have distinct ids and positive MRR triggers |
| RevenueGates.Unlock | src/billing/revenue-gates.js:156-171 | opening keeps the number of gates |
| RevenueGates.UnlockedIds | src/billing/revenue-gates.js:157-158 | the unlocked set only grows |
| RevenueGates.RecordsOf | src/billing/revenue-gates.js:162-167 | one history record per newly unlocked gate |
| RevenueGates.RecordIds | src/billing/revenue-gates.js:162-167 | one gate id per history record |
| RevenueGates.RecordIdsOf | src/billing/revenue-gates.js:162-167 | the history records name the newly unlocked gates, in order |
| RevenueGates.NewlyIsExactlyCrossing | src/billing/revenue-gates.js:156-171 | a gate is returned exactly when its trigger is reached and it was not already unlocked |
| RevenueGates.GateIds | src/billing/revenue-gates.js:156-171 | one id per gate |
| RevenueGates.NewlyAreFreshAndDistinct | src/billing/revenue-gates.js:156-171 | every returned gate is a table gate that is now UNLOCKED, was not unlocked before, and none is returned twice |
| RevenueGates.UnlockOpensReachedGates | src/billing/revenue-gates.js:156-171 | opening keeps every gate's id, name and trigger, and a gate's status is UNLOCKED exactly when its id is in the new unlocked set |
| RevenueGates.LowerMrrRelocksNothing | src/billing/revenue-gates.js:152-174 | a later, lower MRR relocks nothing and opens nothing new |
| RevenueGates.Locked | src/billing/revenue-gates.js:190-191 | the filter keeps exactly the gates whose id is not unlocked |
| RevenueGates.FirstCheapest | src/billing/revenue-gates.js:192-194 | the gate the ascending sort puts first has the least trigger, and there is one exactly when the list is non-empty |
| RevenueGates.NextGate | src/billing/revenue-gates.js:189-195 | no next gate exactly when every gate is unlocked; otherwise a locked gate whose trigger is the least among locked gates |
| RevenueGates.MrrToNextUnlock | src/billing/revenue-gates.js:201-205 | never negative, 0 with no next gate, and when positive it is exactly the MRR still missing to the next trigger |
| RevenueGates.MaxBelow | src/billing/revenue-gates.js:215-217 | the previous gate's trigger is the largest trigger strictly below, and there is none exactly when no trigger lies below |
| RevenueGates.Percent | src/billing/revenue-gates.js:221 | no progress at or below the floor, full progress at or above the ceiling |
| RevenueGates.Clamp | src/billing/revenue-gates.js:223 | `Math.min(100, Math.max(0, p))` lies between 0 and 100 |
| RevenueGates.Progress | src/billing/revenue-gates.js:211-224 | progress lies between 0 and 100; 100 with no next gate or once its trigger is reached; 0 at or below the previous gate's trigger |
| RevenueGates.AllGates | src/billing/revenue-gates.js:230-236 | one view per gate, in order, unlocked exactly when its id is, needing no more MRR exactly when its trigger is reached |
| RevenueGates.UnlockKeepsGatesWellFormed | src/billing/revenue-gates.js:156-171 | opening keeps ids distinct and triggers positive, and only gate ids get unlocked |
| RevenueGates.HistoryAfterUpdate | src/billing/revenue-gates.js:162-167 | after the update the history still names only unlocked gates, each at most once |
| RevenueGates.UpdateKeepsInvariant | src/billing/revenue-gates.js:152-174 | `updateMRR` keeps statuses, unlocked set and history consistent with each other |
| RevenueGates.UnlockPrefixStep | src/billing/revenue-gates.js:156-171 | one more gate visited by `forEach` adds it to the unlocked set and to the returned gates exactly when it crosses |
| RevenueGates.RecordsOfConcat | src/billing/revenue-gates.js:162-167 | records of two batches are the records of each batch in turn |
| RevenueGates.UnlockTableStep | src/billing/revenue-gates.js:156-171 | one more pass can only change the gate it visits |
| RevenueGates.ClosedStep | src/billing/revenue-gates.js:156-171 | one more pass moves the closed form of the loop's state by one gate |
| RevenueGates.VisitedClosedForm | src/billing/revenue-gates.js:156-171 | after any number of passes the loop has opened exactly the crossing gates among those visited |
| RevenueGates.RevenueGateEngine.constructor | src/billing/revenue-gates.js:141-145 | the engine starts at MRR 0 with nothing unlocked, no history and the gate table as defined |
| RevenueGates.RevenueGateEngine.IsGateUnlockedMatchesStatus | src/billing/revenue-gates.js:181-183 | a gate id is unlocked exactly when that gate's own status is UNLOCKED |
| RevenueGates.RevenueGateEngine.GetNextGate | src/billing/revenue-gates.js:189-195 | no next gate exactly when every gate is unlocked |
| RevenueGates.RevenueGateEngine.GetMrrToNextUnlock | src/billing/revenue-gates.js:201-205 | never negative, and 0 once every gate is unlocked |
| RevenueGates.RevenueGateEngine.GetProgressToNextGate | src/billing/revenue-gates.js:211-224 | between 0 and 100, and 100 once every gate is unlocked |
| RevenueGates.RevenueGateEngine.GetAllGates | src/billing/revenue-gates.js:230-236 | one view per gate, unlocked exactly when `isGateUnlocked` says so |
| RevenueGates.RevenueGateEngine.VisitGate | src/billing/revenue-gates.js:157-170 | one pass of the loop changes the state as the specification's step does |
| RevenueGates.RevenueGateEngine.UpdateMRR | src/billing/revenue-gates.js:152-174 | the new MRR is stored, exactly the crossing gates are opened, recorded and returned in table order, and the invariant is kept |
| RevenueGates.ThousandOpensTwoGates | src/billing/revenue-gates.js:14-35 | from a fresh start, MRR 1000 unlocks RG-001 and RG-002 |
| RevenueGates.GatesAscending | src/billing/revenue-gates.js:13-134 | triggers strictly increase along the table |
| RevenueGates.NextOfAscending | src/billing/revenue-gates.js:189-195 | in an ascending table whose first k gates are the unlocked ones, gate k is next |
| RevenueGates.FloorOfAscending | src/billing/revenue-gates.js:215-219 | in an ascending table the floor below gate k is gate k - 1's trigger |
| RevenueGates.TeamTierIsNext | src/billing/revenue-gates.js:50-53 | with RG-001 and RG-002 unlocked, RG-003 (Team Tier) is next |
| RevenueGates.ProgressOfAscending | src/billing/revenue-gates.js:211-224 | in an ascending table progress runs linearly from the previous trigger to the next one, clamped |
| RevenueGates.TeamTierIsFourThousandAway | src/billing/revenue-gates.js:201-205 | at MRR 1000 Team Tier is 4000 away |
| RevenueGates.PercentWithin | src/billing/revenue-gates.js:221-223 | between floor and ceiling no clamping happens |
| Rollback.NewRecord | src/deployment/rollback.js:47-60 | the new entry is active, carries the given version, and is in `production` unless a non-empty environment is named |
| Rollback.RecordedShape | src/deployment/rollback.js:62-72 | as written, `record` keeps at most 20 entries, puts the new one first, marks the old head superseded and shifts the rest down by one |
| Rollback.RecordedTouchesOnlyHead | src/deployment/rollback.js:62-67 | as written, only the old head's status changes: every older entry, active or not, is kept as it was |
| Rollback.FirstWhere | src/deployment/rollback.js:82 | `find` returns the first position that satisfies the test, and none exactly when no entry does |
| Rollback.Current | src/deployment/rollback.js:81-84 | `getCurrent` returns an active entry of the history, and null exactly when no entry is active |
| Rollback.LastKnownGood | src/deployment/rollback.js:89-94 | the result passed its golden tests and was healthy at deployment; null only when no entry did |
| Rollback.ById | src/deployment/rollback.js:101-104 | the result carries the id asked for; null only when no entry does |
| Rollback.SupersededOf | src/deployment/rollback.js:110-111 | the filter keeps exactly the superseded entries |
| Rollback.RollbackTargets | src/deployment/rollback.js:109-113 | at most five superseded entries, the newest ones, in history order |
| Rollback.CurrentAfterRecord | src/deployment/rollback.js:46-84 | after `record` the new entry is the current deployment |
| Rollback.CheckAutoRollbackTriggers | src/deployment/rollback.js:132-191 | a rollback is called for exactly when some automatic trigger holds; the trigger reported holds and carries its own severity |
| Rollback.ReportedTriggerIsFirst | src/deployment/rollback.js:135-183 | the triggers are tried in a fixed order: none before the reported one holds |
| Rollback.ThresholdsAreStrict | src/deployment/rollback.js:14-21 | a 5% error rate, 99% availability, 5000 ms and 50% degradation trigger nothing: every comparison is strict |
| Rollback.TargetIndex | src/deployment/rollback.js:223-227 | `last_known_good` selects the last known good entry, any other id the entry with that id |
| Rollback.RollbackChanges | src/deployment/rollback.js:275-281 | a rollback keeps the length, activates the target, marks the old current entry rolled back with the rollback's id, and leaves every other entry alone |
| Rollback.RollbackMakesTargetCurrent | src/deployment/rollback.js:275-281 | from a history with at most one active entry, the target ends as the only active entry, so `getCurrent` finds it |
| Rollback.RollbackRecordOf | src/deployment/rollback.js:208-317 | the record is COMPLETE with all six steps exactly when the target exists; otherwise FAILED with no step and the target-not-found error |
| Rollback.HistoryAfterRollback | src/deployment/rollback.js:229-281 | a rollback keeps the history's length and changes nothing when the target is missing |
| Rollback.RecordedCorrectedKeepsOneActive | src/deployment/rollback.js:62-67 | the corrected `record` supersedes the current entry, so the new entry is the only active one |
| Rollback.SecondRollbackLeavesFirstTargetCurrent | src/deployment/rollback.js:62-67 | as written, record Z, A and B, roll back to A, record C and roll back to Z: C is rolled back and Z is active, but A stays active before it, so `getCurrent` returns A |
| Rollback.RecordAfterRollbackAsWritten | src/deployment/rollback.js:62-67 | as written, `record` after a rollback leaves two active entries and makes the rolled-back entry a rollback target again |
| Rollback.DeploymentHistory.constructor | src/deployment/rollback.js:37-40 | an empty history |
| Rollback.DeploymentHistory.Record | src/deployment/rollback.js:46-75 | the history becomes `Recorded` of the old one, as written: the new entry is put first and is the current deployment, only the old head is superseded, and the history stays at most 20 entries |
| Rollback.DeploymentHistory.GetCurrent | src/deployment/rollback.js:81-84 | `getCurrent` on the stored history |
| Rollback.DeploymentHistory.GetLastKnownGood | src/deployment/rollback.js:89-94 | `getLastKnownGood` on the stored history |
| Rollback.DeploymentHistory.GetById | src/deployment/rollback.js:101-104 | `getById` on the stored history |
| Rollback.DeploymentHistory.GetRollbackTargets | src/deployment/rollback.js:109-113 | `getRollbackTargets` on the stored history |
| Rollback.RollbackEngine.constructor | src/deployment/rollback.js:121-125 | a fresh, empty history, an empty log and no rollback running |
| Rollback.RollbackEngine.ExecuteRollback | src/deployment/rollback.js:201-318 | refused with no change while a rollback runs; otherwise exactly one record is logged and the flag is cleared; a found target becomes active, the entry `getCurrent` returned before, if it is another one, becomes rolled back with the rollback's id, and the target is the current deployment when at most one entry was active before |
| VercelChamber.DeploymentType | src/agents/vercel-chamber.js:46-61 | only `preview`, `production` and the names every object inherits find a deployment type; any other name finds none |
| VercelChamber.Deploy | src/agents/vercel-chamber.js:69-123 | a deployment fails exactly for an unknown type, is blocked exactly when its type needs a certificate and none is given, carries an error exactly when it is not ready, and when ready ends with `vercel --prod` for production and `vercel` otherwise |
| VercelChamber.PreviewNeverBlocked | src/agents/vercel-chamber.js:92-121 | a preview deployment is always ready, whatever the certificate, and passes through the test gate |
| VercelChamber.ProductionNeedsCertificate | src/agents/vercel-chamber.js:101-105 | a production deployment is ready exactly when a certificate is given, and is blocked with the certificate message otherwise |
| VercelChamber.UnknownTypeFails | src/agents/vercel-chamber.js:84-89 | an unknown type stops after the first stage with `Unknown deployment type: <type>` |
| VercelChamber.InheritedTypeDeploys | src/agents/vercel-chamber.js:84-121 | a type named after an inherited object property (`constructor`) skips both the test gate and the certificate check and deploys |
| VercelChamber.PromoteToProduction | src/agents/vercel-chamber.js:126-141 | promotion succeeds exactly with a valid certificate, records the preview id and certificate id, and otherwise fails with the certificate message |
| VercelChamber.MissingOf | src/agents/vercel-chamber.js:196-200 | the missing list holds exactly the required variables the environment leaves unset or empty |
| VercelChamber.KnownKeys | src/agents/vercel-chamber.js:214 | the configured list holds exactly the environment's keys that name a known variable or an inherited object property |
| VercelChamber.ValidateEnvironment | src/agents/vercel-chamber.js:192-216 | the environment is valid exactly when nothing is missing and exactly when there are no issues; missing and configured are as above |
| VercelChamber.OnlyPortIsOptional | src/agents/vercel-chamber.js:154-180 | of the sixteen variables, every one except `PORT` is required |
| VercelChamber.PortNeverMissing | src/agents/vercel-chamber.js:157 | `PORT` is never reported missing |
| VercelChamber.FullEnvironmentIsValid | src/agents/vercel-chamber.js:196-211 | an environment giving every required variable a non-empty value is valid |
| VercelChamber.EmptyValueIsMissing | src/agents/vercel-chamber.js:197 | a required variable set to the empty string is reported missing and makes the environment invalid |
| VercelChamber.AppendRecordShape | src/agents/vercel-chamber.js:513-532 | recording keeps at most ten entries, puts the new one last, supersedes the one before it and keeps the older ones in order |
| VercelChamber.AfterRollback | src/agents/vercel-chamber.js:562-566 | a rollback keeps the history's length, rolls back the newest entry, reactivates the one before it and leaves the older ones alone |
| VercelChamber.RollbackTwiceIsOnce | src/agents/vercel-chamber.js:535-566 | rolling back twice leaves the history as rolling back once, since both pick the same two newest entries |
| VercelChamber.RollbackAgent.constructor | src/agents/vercel-chamber.js:510 | the agent starts with an empty history |
| VercelChamber.RollbackAgent.RecordDeployment | src/agents/vercel-chamber.js:513-532 | the history becomes the recorded one (see `AppendRecordShape`) and never exceeds ten entries |
| VercelChamber.RollbackAgent.ExecuteRollback | src/agents/vercel-chamber.js:535-582 | with fewer than two entries the rollback fails with its message and changes nothing; otherwise the history is rolled back (see `AfterRollback`) and the report names the newest entry as source, the one before as target, the reason and the three notification channels |
| VercelChamber.RollbackAgent.TestRollback | src/agents/vercel-chamber.js:585-593 | a rollback is reported possible exactly when `ExecuteRollback` would succeed, with the count of entries; the target is the second-newest entry's id whenever that entry exists and its id is non-empty, and null exactly otherwise |
| EnforcementChamber.FailedIds | src/agents/enforcement-chamber.js:140-142 | the ids kept are exactly the ranked ids that the failed-materials list names, and none when that list is missing |
| EnforcementChamber.ViolationOf | src/agents/enforcement-chamber.js:93-151 | each check's violation is tagged with that check; UI checks give HIGH `VIO-UI`, engine checks give CRITICAL `VIO-ENG`, and CRITICAL means the HF-seal or TCO check |
| EnforcementChamber.Run | src/agents/enforcement-chamber.js:93-151 | one check adds at most one violation, and adds one exactly when it fires |
| EnforcementChamber.Detect | src/agents/enforcement-chamber.js:89-154 | `detect` reports at most four violations, and each is the violation of one of its checks |
| EnforcementChamber.DetectedViolationsAreTyped | src/agents/enforcement-chamber.js:93-151 | every reported violation comes from a check that fired, with that check's type and severity |
| EnforcementChamber.DetectReportsFiringChecks | src/agents/enforcement-chamber.js:93-151 | a violation of a check's kind is reported exactly when that check fires: seal mismatch, run-id mismatch, HF with an ordinary seal, failed material in the TCO ranking |
| EnforcementChamber.CountOf | src/agents/enforcement-chamber.js:158-159 | the count of a severity is at most the number of violations, and zero exactly when none has that severity |
| EnforcementChamber.CanDeploy | src/agents/enforcement-chamber.js:157-168 | deployment is allowed exactly when no violation is CRITICAL or HIGH; a refusal gives the CRITICAL count when there is one and the HIGH count otherwise |
| EnforcementChamber.DetectThenDeploy | src/agents/enforcement-chamber.js:89-168 | an assessment may be deployed exactly when none of the four checks fires |
| EnforcementChamber.HfWithSealBlocks | src/agents/enforcement-chamber.js:123-136 | FLUORIDE_ACID with a seal state other than sealless or suppressed always blocks deployment on a CRITICAL violation |
| EnforcementChamber.PatternIssues | src/agents/enforcement-chamber.js:377-381 | one issue at most per pattern, and none exactly when the code contains no pattern |
| EnforcementChamber.CodeIssues | src/agents/enforcement-chamber.js:376-382 | a fix has no pattern issues exactly when it has no code or its code contains none of the prohibited patterns |
| EnforcementChamber.VerificationIssues | src/agents/enforcement-chamber.js:385-388 | no verification issue exactly when the golden, regression and determinism flags are all set; a missing verification gives all three |
| EnforcementChamber.ValidateFix | src/agents/enforcement-chamber.js:372-398 | a fix is approved exactly when it has no issues, exactly when its code holds no prohibited pattern, the three checks are verified and technical-architecture approval is given |
| EnforcementChamber.TimingHackIsRefused | src/agents/enforcement-chamber.js:330-333 | a fix whose code contains `setTimeout` is never approved |
| EnforcementChamber.ValidateForDeployment | src/agents/enforcement-chamber.js:596-614 | a certificate allows deployment exactly when it has no issues, exactly when the golden gate passed, nothing is unresolved and the regression guardian approved; an unresolved count is reported in its issue |
| EnforcementSubAgents.Raise | src/agents/enforcement-sub-agents.js:14-42 | each violation kind carries its severity: run-id and regime mismatches HIGH, every other kind CRITICAL |
| EnforcementSubAgents.When | src/agents/enforcement-sub-agents.js:14-22 | a check adds its violation exactly when it fails, and nothing else |
| EnforcementSubAgents.Monitor | src/agents/enforcement-sub-agents.js:12-24 | the UI is consistent exactly when run id, seal state and regime all equal the engine's, exactly when no violation is reported |
| EnforcementSubAgents.MonitorReportsEachMismatch | src/agents/enforcement-sub-agents.js:14-22 | each mismatch is reported under its own kind exactly when it occurs, and the seal mismatch is the monitor's only CRITICAL finding |
| EnforcementSubAgents.Validate | src/agents/enforcement-sub-agents.js:33-44 | an assessment is compliant exactly when neither the HF-regime rule nor the HF-seal rule is broken, exactly when there are no violations; all violations are CRITICAL |
| EnforcementSubAgents.ValidateReportsEachRule | src/agents/enforcement-sub-agents.js:36-42 | each rule is reported under its own kind exactly when it is broken |
| EnforcementSubAgents.HfFluidNeedsFluorideAcidAndNoSeal | src/agents/enforcement-sub-agents.js:36-42 | a fluid whose id contains `hf` is compliant exactly when it is FLUORIDE_ACID with a sealless or suppressed seal state |
| EnforcementSubAgents.UpperCaseHfIsHf | src/agents/enforcement-sub-agents.js:36 | the fluid id is lower-cased before the test, so `HF` counts as HF |
| EnforcementSubAgents.SealRuleAgreesWithChamber | src/agents/enforcement-sub-agents.js:40 | the validator's seal rule flags exactly the assessments the enforcement chamber's `detect` flags for HF seals |
| EnforcementSubAgents.TraceExecution | src/agents/enforcement-sub-agents.js:62-68 | the trace has the nineteen stages numbered 0 to 18 in order, each executed exactly when the log marks that stage executed |
| EnforcementSubAgents.UnresolvedCount | src/agents/enforcement-sub-agents.js:195 | the unresolved count is at most the number of violations, and zero exactly when all are resolved |
| EnforcementSubAgents.GenerateCertificate | src/agents/enforcement-sub-agents.js:186-205 | `v15Compliant` exactly when 150 tests passed; the gate passed exactly when its status is PASSED; deployment allowed exactly when the gate passed and every violation is resolved; it expires thirty days after issue |
| EnforcementSubAgents.ValidateCertificate | src/agents/enforcement-sub-agents.js:207-213 | a certificate is valid exactly when it has no issues, exactly when it has not expired, its gate passed and nothing is unresolved |
| EnforcementSubAgents.FreshCertificateValidatesAsIssued | src/agents/enforcement-sub-agents.js:186-213 | within its thirty days a generated certificate validates exactly when it was issued as deployable |
| EnforcementSubAgents.ExpiredCertificateIsRefused | src/agents/enforcement-sub-agents.js:192-209 | after its thirty days no generated certificate validates, and the expiry is among its issues |
| Analytics.LookupAssign | src/monitoring/analytics.js:191 | setting a counter changes the lookup of that key and of no other |
| Analytics.BumpCounts | src/monitoring/analytics.js:191 | incrementing a key raises its count by one and leaves every other key's count as it was |
| Analytics.AssignTotal | src/monitoring/analytics.js:191 | replacing a key's count changes the sum of all counts by the difference |
| Analytics.BumpTotal | src/monitoring/analytics.js:216-217 | incrementing any key raises the sum of all counts by exactly one |
| Analytics.WindowKeepsMostRecent | src/monitoring/analytics.js:194-197 | a push followed by a shift past 1000 keeps at most 1000 entries, ends with the new one, and holds the most recent ones in arrival order |
| Analytics.WindowBounded | src/monitoring/analytics.js:135-138 | a buffer within its bound stays within it after a push and a shift |
| Analytics.InsertPermutes | src/monitoring/analytics.js:200 | inserting into a sorted list adds exactly that one value |
| Analytics.InsertAbove | src/monitoring/analytics.js:200 | inserting a value into a list keeps every lower bound the value and the list share |
| Analytics.InsertSorted | src/monitoring/analytics.js:200 | inserting into a sorted list keeps it sorted |
| Analytics.SortOfSortsAndPermutes | src/monitoring/analytics.js:200 | the numeric sort of the window is ascending and a permutation of it |
| Analytics.PercentilesOrdered | src/monitoring/analytics.js:200-203 | p50 <= p95 <= p99, and each percentile of a non-empty window is one of its durations |
| Analytics.PercentilesOf | src/monitoring/analytics.js:200-203 | the three stored percentiles are in order |
| Analytics.UniformWindowPercentile | src/monitoring/analytics.js:200-203 | when every duration in the window is the same, the percentiles are that duration |
| Analytics.Or | src/monitoring/analytics.js:124 | `a || b` gives `a` when it is a non-empty string and one of the two otherwise |
| Analytics.EventOf | src/monitoring/analytics.js:115-129 | the event records its name, data and time, and has metadata exactly when a request is given, with the request's path and its ip or forwarded address |
| Analytics.PathKey | src/monitoring/analytics.js:190 | a request counts under its non-empty path, and never under the empty key |
| Analytics.OrUnknown | src/monitoring/analytics.js:213-214 | an assessment counts under its non-empty fluid or regime, and never under the empty key |
| Analytics.Metrics.constructor | src/monitoring/analytics.js:150-173 | the metrics start with every counter zero, every breakdown and window empty and no active user |
| Analytics.Metrics.RecordRequest | src/monitoring/analytics.js:181-204 | `total` rises by one and exactly one of success (status 200 to 399) or error; the path's count rises by one; the duration window keeps the latest 1000 and the percentiles are recomputed from it; success + error == total and the path counts sum to total are kept; nothing else changes |
| Analytics.Metrics.CountRequest | src/monitoring/analytics.js:182-191 | the counting half of `recordRequest` keeps success + error == total and the path counts summing to total |
| Analytics.Metrics.RecordDuration | src/monitoring/analytics.js:194-203 | the timing half of `recordRequest` keeps at most 1000 durations and p50 <= p95 <= p99 |
| Analytics.Metrics.RecordAssessment | src/monitoring/analytics.js:210-218 | the assessment total and the fluid's and regime's counts (`unknown` when missing) each rise by one, so both breakdowns keep summing to the total; nothing else changes |
| Analytics.Metrics.RecordUserActivity | src/monitoring/analytics.js:224-226 | the user is added to the active set, which only grows; nothing else changes |
| Analytics.Metrics.TrackServerEvent | src/monitoring/analytics.js:114-141 | the event is appended to the buffer, which keeps at most the 1000 most recent events; the counters do not change |
| Analytics.RequestCountsUnderItsPath | src/monitoring/analytics.js:190-191 | a request counts under its own path, or `/` when it has none, and under no other |
| Observability.ErrorRate | src/monitoring/observability.js:291-294 | the error rate is a percentage between 0 and 100 while errors do not exceed requests, and 0 with no requests |
| Observability.TriggerAlert | src/monitoring/observability.js:267-285 | an alert carries its severity, message and data, the time and the source `VERCEL-4` |
| Observability.RequestAlerts | src/monitoring/observability.js:217-231 | at most two alerts: a critical one exactly when the error rate is strictly above 5%, a warning exactly when the duration is strictly above 3000 ms |
| Observability.ThresholdsAreStrict | src/monitoring/observability.js:217-231 | an error rate of exactly 5% and a duration of exactly 3000 ms raise no alert |
| Observability.StatusOf | src/monitoring/observability.js:303-304 | healthy exactly below 1%, degraded exactly from 1% to below 5%, critical exactly from 5% |
| Observability.StatusIsMonotone | src/monitoring/observability.js:303-304 | a higher error rate never reports a better status |
| Observability.AlertMeansCritical | src/monitoring/observability.js:217-304 | an error-rate alert always comes with a critical status, while a rate of exactly 5% is critical without an alert |
| Observability.UptimeOf | src/monitoring/observability.js:308-318 | the two units reported are the two largest non-zero ones, the smaller taken modulo its next unit (hours mod 24, minutes and seconds mod 60), and days are shown exactly from 24 hours |
| Observability.FormatUptime | src/monitoring/observability.js:308-318 | the uptime text is never empty |
| Observability.UptimeBoundsElapsed | src/monitoring/observability.js:308-318 | the units shown bound the elapsed time: what is dropped is less than one of the smallest unit shown |
| Observability.OneDayOneHour | src/monitoring/observability.js:308-318 | ninety thousand seconds read `1d 1h` |
| Observability.MonitoringService.constructor | src/monitoring/observability.js:197-204 | the service starts with zero counters at the given start time |
| Observability.MonitoringService.TrackRequest | src/monitoring/observability.js:209-232 | requests rise by one, errors by one exactly for a status of 400 or more, so errors never exceed requests; the alerts are those of the new counts |
| Observability.MonitoringService.TrackAssessment | src/monitoring/observability.js:237-238 | only the assessment count moves |
| Observability.MonitoringService.GetMetrics | src/monitoring/observability.js:290-304 | the report carries the counters and the uptime, an error rate of 0 and a healthy status with no requests, and a critical status exactly from 5% and healthy exactly below 1% |

## Left out

- Clocks, random numbers and ids built from them are parameters: `runId`, deployment, rollback, trace and certificate ids, and every timestamp. Nothing is claimed about their uniqueness.
- Logging (`console.*`), `async`/`await`, HTTP and Express handlers, and the external services (Stripe, Auth0 management, Supabase, Sentry) are left out.
- The engine page loaded by the browser-based golden runner is not part of this model. The `MockEngine` rules evaluator, which the golden bench exercises, is modelled instead.
- Hashing and signatures (`hashCertificate`, the certificate generator's SHA-256 signature) are foreign calls and are left out. The certificate is modelled without its signature.
- Temperatures, error rates and progress figures are `real`, so JavaScript's floating-point rounding is not reproduced. The percentile index `floor(n * 0.95)` is taken as the integer quotient `n * 95 / 100`, which agrees with it.
- `toFixed`, `toLocaleString` and other number formatting, and the reason and message texts that embed formatted figures, are left out. The counts written in issue texts are kept.
- Case folding is ASCII-only. The ids and patterns compared are ASCII.
- MaterialsRegistry.GetMaterial: a lookup of a name every object inherits (`constructor`, ...) returns a function in JavaScript, but the model returns none. No registry caller passes such a name.
- Analytics.Metrics.RecordRequest, Analytics.Metrics.RecordAssessment: a path, fluid or regime named after an inherited object property turns the JavaScript counter into text. The model counts it like any other name.
- Rollback.RollbackEngine.ExecuteRollback: the notification, Vercel call and verification steps are stubs that always succeed, so the model treats them as succeeding. The `isRollingBack` flag is modelled for one call at a time, not for concurrent calls.
- `getDashboard`, `getStatus`, `trackWebVital`, `generateEnvTemplate`, `generateVercelJson`, the disaster-recovery tables and `generateViolationReport` are left out. They only format or return constant data.
- `RootCauseAgent.validateRCA` and the regex-based implementation validator are left out. They search `JSON.stringify` text or regular expressions.
- The sub-agents other than the UI monitor, the chemistry validator, the logic-flow tracer and the certificate generator are left out. Their methods return constant records.
- RevenueGates.RevenueGateEngine: in the source the gate table `REVENUE_GATES` is a single module-level object, and `updateMRR` writes each crossed gate's `status` and `unlockedAt` into it, so all engines of a process share those fields. The model gives each engine its own table, which is the same thing only while a process has one engine. `StatusMatches`, the constructor and `IsGateUnlockedMatchesStatus` rely on that. With a second engine, `getAllGates` on that engine would show a gate as UNLOCKED that its own `unlockedGates` does not hold.
- Promotion.MaterialPromotionEngine.constructor: the engine's `registry` field starts as a copy of the shipped registry. In the source the engine has no registry of its own: it writes into the module-level `MATERIALS_REGISTRY` object (tests/promote-materials.js:9, :170-175), which the registry getters also read. The sharing itself is described on the next line.
- Promotion.MaterialPromotionEngine: the promotion run changes `status` (and adds `promotedAt` and `promotedBy`) on the shared registry entries in place, so after a run the registry getters in the same process see VERIFIED entries. In the model the run updates only the engine's own `registry` field. The `MaterialsRegistry` functions `GetMaterial`, `GetMaterialsByType`, `GetMaterialsByStatus`, `GetProvisionalMaterials`, `GetVerifiedMaterials`, `GetRegimeBehavior` and `IsProvisional` always read the table as shipped. So do the lemmas `StatusListsFollowOrigin`, `StatusListsCoverRegistry`, `StatusListsAreDisjoint`, `IsProvisionalIffNew` and `RegimeBehaviorUnknownOutsideNew`. They describe the registry before any promotion has run in the process. The state after a run is stated on the engine's field instead (`Promotion.FirstRunPromotesAllTen`, `Promotion.PartsPromotedToVerified`).
- RevenueGates.RevenueGateEngine.UpdateMRR: MRR is modelled as a whole number (`int`). `updateMRR` stores any JavaScript number as given. A fractional MRR, and the fractional `mrrNeeded`, MRR-to-next-unlock and progress figures it produces (src/billing/revenue-gates.js:153, :204, :221, :234), are outside the model. `RevenueGates.MrrToNextUnlock`, `RevenueGates.AllGates` and `RevenueGates.Progress` take integer MRR for the same reason. The unlock decisions only compare MRR with whole-dollar triggers.
- The revenue-gate stubs (assessment history, Excel export, team management, custom fluid requests, ISO 9001) are left out. The gates' descriptions and feature lists are also left out.
- Analytics `getMetrics` and its derived error rate are left out. Only the counters it reads are modelled.
- The promotion run's stages 3 and 4 are simulated approvals in the source, and are modelled as the constant records it reports. The golden suite's result, which the source obtains by running the material tests, is a parameter of the run.
- The client-side analytics script and its HTML are left out.

## Findings

| source | as written | input that shows it | evidently intended | confidence | as-written member | corrected member |
|---|---|---|---|---|---|---|
| src/auth/auth0-config.js:244 | `tier.features[feature]` also finds the properties every object inherits | `checkFeatureAccess(teamUser, 'constructor')` is allowed, although TEAM lists no features | only features the tier itself lists are allowed | high, not executed | AuthTiers.InheritedNameUnlocksFeature | AuthTiers.CheckFeatureAccess |
| src/deployment/rollback.js:62-67 | `record` supersedes the head of the history, which after a rollback is the rolled-back entry, not the active one | record A, record B, roll back to A, record C: A and C are both active, and B is a rollback target again; after a further rollback to an older Z, `getCurrent` still returns A (`Rollback.SecondRollbackLeavesFirstTargetCurrent`) | the active deployment is the one superseded, so only the new one stays active | high, not executed | Rollback.RecordAfterRollbackAsWritten | Rollback.RecordedCorrectedKeepsOneActive |
| tests/golden/v15-golden-tests-materials.js:151 | `p.replace('-', '')` removes the dash from each listed pattern before the test, so a dashed id no longer contains it | `getMaterialStatus('monel-400')` is VERIFIED, although `monel-400` is on the provisional list | every listed material, dashed or not, is PROVISIONAL | high, not executed | MaterialEngine.DashedIdIsVerified | MaterialEngine.ListedIdsAreProvisional |
