/**
 * The keywords the fluid and material rules search ids for. Each rule tests
 * `id.toLowerCase().includes(keyword)`, so a keyword is its lower-case
 * spelling, and a rule is stated over the set of keywords an id mentions.
 */
module Keywords {
  import opened Text

  /** A text the fluid rules look for. */
  type FluidKeyword = string

  /** A text the material rules look for. */
  type MaterialKeyword = string

  // The fluid keywords, as the rules spell them.
  const Water: FluidKeyword := "water"
  const Glycol: FluidKeyword := "glycol"
  const Hf: FluidKeyword := "hf"
  const Fluoride: FluidKeyword := "fluoride"
  const Hno3: FluidKeyword := "hno3"
  const Nitric: FluidKeyword := "nitric"
  const H2so4: FluidKeyword := "h2so4"
  const Sulfuric: FluidKeyword := "sulfuric"
  const Oleum: FluidKeyword := "oleum"
  const Hcl: FluidKeyword := "hcl"
  const Hydrochloric: FluidKeyword := "hydrochloric"
  const Muriatic: FluidKeyword := "muriatic"
  const H3po4: FluidKeyword := "h3po4"
  const Phosphoric: FluidKeyword := "phosphoric"
  const Naoh: FluidKeyword := "naoh"
  const Caustic: FluidKeyword := "caustic"
  const SodiumHydroxide: FluidKeyword := "sodium-hydroxide"
  const Koh: FluidKeyword := "koh"
  const PotassiumHydroxide: FluidKeyword := "potassium-hydroxide"
  const H2o2: FluidKeyword := "h2o2"
  const Peroxide: FluidKeyword := "peroxide"
  const Benzene: FluidKeyword := "benzene"
  const Toluene: FluidKeyword := "toluene"
  const Xylene: FluidKeyword := "xylene"
  const Methanol: FluidKeyword := "methanol"
  const Ethanol: FluidKeyword := "ethanol"
  const Acetone: FluidKeyword := "acetone"
  const Mek: FluidKeyword := "mek"
  const Cyanide: FluidKeyword := "cyanide"
  const Mercury: FluidKeyword := "mercury"
  const Arsenic: FluidKeyword := "arsenic"
  const Chromic: FluidKeyword := "chromic"
  const Ammonia: FluidKeyword := "ammonia"
  const Chlorine: FluidKeyword := "chlorine"
  const Hypochlorite: FluidKeyword := "hypochlorite"
  const Bleach: FluidKeyword := "bleach"
  const Seawater: FluidKeyword := "seawater"
  const Brine: FluidKeyword := "brine"
  const Chloride: FluidKeyword := "chloride"
  const Acetic: FluidKeyword := "acetic"
  const Formic: FluidKeyword := "formic"
  const Citric: FluidKeyword := "citric"
  const Diesel: FluidKeyword := "diesel"
  const Gasoline: FluidKeyword := "gasoline"
  const Kerosene: FluidKeyword := "kerosene"
  const Ammonium: FluidKeyword := "ammonium"
  const Nitrate: FluidKeyword := "nitrate"
  const Fertilizer: FluidKeyword := "fertilizer"
  const Urea: FluidKeyword := "urea"
  const FerricChloride: FluidKeyword := "ferric-chloride"
  const AmmoniumNitrate: FluidKeyword := "ammonium-nitrate"
  const Acid: FluidKeyword := "acid"

  // The material keywords, as the rules spell them.
  const Carbon: MaterialKeyword := "carbon"
  const Iron: MaterialKeyword := "iron"
  const Steel: MaterialKeyword := "steel"
  const Grade316: MaterialKeyword := "316"
  const Grade304: MaterialKeyword := "304"
  const Epdm: MaterialKeyword := "epdm"
  const Nbr: MaterialKeyword := "nbr"
  const Neoprene: MaterialKeyword := "neoprene"
  const Silicone: MaterialKeyword := "silicone"
  const Ptfe: MaterialKeyword := "ptfe"
  const Hastelloy: MaterialKeyword := "hastelloy"
  const Kalrez: MaterialKeyword := "kalrez"
  const Aluminum: MaterialKeyword := "aluminum"
  const Zinc: MaterialKeyword := "zinc"
  const Titanium: MaterialKeyword := "titanium"
  const Pvc: MaterialKeyword := "pvc"
  const Pp: MaterialKeyword := "pp"
  const Hdpe: MaterialKeyword := "hdpe"
  const Monel: MaterialKeyword := "monel"
}
