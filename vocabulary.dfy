/** The closed vocabularies shared by the decision core and its checkers. */
module Vocabulary {

  /**
   * How reason texts cite a rule of the V15 policy: `V15`, a space and the
   * section sign, followed by the rule's number.
   */
  const RulePrefix: string := "V15 \U{A7}"

  /**
   * Fluid service regimes. The first thirteen are produced or consumed by
   * the fluid engine; the rest appear only as material-table keys or as a
   * secondary regime.
   */
  datatype Regime =
    | FluorideAcid
    | OxidizingAcid
    | StrongBase
    | ToxicSpecial
    | Halogenated
    | ReducingAcid
    | AqueousCorrosive
    | OrganicSolvent
    | AlkalineSpecial
    | AqueousNonHazardous
    | OxidizerAdjacent
    | Neutral
    | UnknownRestricted
    | ExplosiveEnergetic
    | Dehydrating
    | HighTemp
    | AbrasiveSlurry
    | Petroleum
    | Cryogenic
    | FoodPharma

  /** The regime's name as the system spells it. */
  function RegimeName(r: Regime): string
  {
    match r
    case FluorideAcid => "FLUORIDE_ACID"
    case OxidizingAcid => "OXIDIZING_ACID"
    case StrongBase => "STRONG_BASE"
    case ToxicSpecial => "TOXIC_SPECIAL"
    case Halogenated => "HALOGENATED"
    case ReducingAcid => "REDUCING_ACID"
    case AqueousCorrosive => "AQUEOUS_CORROSIVE"
    case OrganicSolvent => "ORGANIC_SOLVENT"
    case AlkalineSpecial => "ALKALINE_SPECIAL"
    case AqueousNonHazardous => "AQUEOUS_NON_HAZARDOUS"
    case OxidizerAdjacent => "OXIDIZER_ADJACENT"
    case Neutral => "NEUTRAL"
    case UnknownRestricted => "UNKNOWN_RESTRICTED"
    case ExplosiveEnergetic => "EXPLOSIVE_ENERGETIC"
    case Dehydrating => "DEHYDRATING"
    case HighTemp => "HIGH_TEMP"
    case AbrasiveSlurry => "ABRASIVE_SLURRY"
    case Petroleum => "PETROLEUM"
    case Cryogenic => "CRYOGENIC"
    case FoodPharma => "FOOD_PHARMA"
  }

  /** The five seal-eligibility states. */
  datatype SealState =
    | StandardAllowed
    | SeallessRequired
    | SpecializedRequired
    | ReinforcedRequired
    | SealSelectionSuppressed

  /** Seal categories a seal decision may allow. */
  datatype SealCategory =
    | Single
    | Double
    | Cartridge
    | MagneticDrive
    | CannedMotor
    | SpecializedCartridge
    | OemEngineered

  /** Compatibility verdicts of the material rules and the registry. */
  datatype Verdict = Compatible | Conditional | Fail | InsufficientData | Unknown

  /** A verdict with the reason text the rule attaches to it. */
  datatype Assessment = Assessment(status: Verdict, reason: string)

  /** Fluid tags derived from the fluid id. */
  datatype Tag =
    | AcidTag | BaseTag | FluorideTag | ToxicTag | ChlorideTag | OxidizerTag
    | PeroxideTag | NitricTag | CyanideTag | AqueousTag | BenignTag

  /** Severities of violations, rollback triggers and registry failure modes. */
  datatype Severity = Critical | High | Medium | Low

  /** Lifecycle status of a registry material. */
  datatype MaterialStatus = Verified | Provisional | Deprecated

  /** Kind of a registry material. */
  datatype MaterialType = Metal | Plastic | Elastomer | Composite
}
