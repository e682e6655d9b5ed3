/**
 * The static materials registry: sixteen VERIFIED materials, ten
 * PROVISIONAL ones with regime behaviour, temperature limits, failure modes
 * and references, merged into one keyed table, plus its lookup helpers.
 */
module MaterialsRegistry {
  import opened Wrappers
  import opened Vocabulary
  import opened ObjectTables

  /** Continuous service limits in °C. */
  datatype Limits = Limits(max: int, min: int)

  /** Who promoted a material and when (absent until promotion). */
  datatype Promotion = Promotion(promotedAt: string, promotedBy: string)

  /**
   * A registry entry. Optional fields are `None` where the source's object
   * has no such property; a failure mode is reduced to its severity and the
   * references to how many there are.
   */
  datatype Material = Material(
    id: string,
    name: string,
    mtype: MaterialType,
    status: MaterialStatus,
    regimeBehavior: Option<map<Regime, Verdict>>,
    temperatureLimits: Option<Limits>,
    failureModes: Option<seq<Severity>>,
    references: Option<nat>,
    promotion: Option<Promotion>)

  /** One of the original entries, which carry only id, name, type and status. */
  function VerifiedEntry(id: string, name: string, mtype: MaterialType): Material
  {
    Material(id, name, mtype, Verified, None, None, None, None, None)
  }

  /** One of the session-4 entries, with its full documentation. */
  function ProvisionalEntry(id: string, name: string, mtype: MaterialType, behavior: map<Regime, Verdict>,
                            max: int, min: int, modes: seq<Severity>): Material
  {
    Material(id, name, mtype, Provisional, Some(behavior), Some(Limits(max, min)), Some(modes), Some(3), None)
  }

  function Existing(): Table<Material>
  {
    [
    ("316SS", VerifiedEntry("316SS", "316 Stainless Steel", Metal)),
    ("304SS", VerifiedEntry("304SS", "304 Stainless Steel", Metal)),
    ("Hastelloy-C", VerifiedEntry("Hastelloy-C", "Hastelloy C-276", Metal)),
    ("Titanium", VerifiedEntry("Titanium", "Titanium Grade 2", Metal)),
    ("Carbon-Steel", VerifiedEntry("Carbon-Steel", "Carbon Steel", Metal)),
    ("Aluminum", VerifiedEntry("Aluminum", "Aluminum", Metal)),
    ("PTFE", VerifiedEntry("PTFE", "PTFE (Teflon)", Plastic)),
    ("PVDF", VerifiedEntry("PVDF", "PVDF (Kynar)", Plastic)),
    ("PP", VerifiedEntry("PP", "Polypropylene", Plastic)),
    ("PVC", VerifiedEntry("PVC", "PVC", Plastic)),
    ("CPVC", VerifiedEntry("CPVC", "CPVC", Plastic)),
    ("HDPE", VerifiedEntry("HDPE", "HDPE", Plastic)),
    ("FKM", VerifiedEntry("FKM", "Viton (FKM)", Elastomer)),
    ("EPDM", VerifiedEntry("EPDM", "EPDM", Elastomer)),
    ("NBR", VerifiedEntry("NBR", "Nitrile (Buna-N)", Elastomer)),
    ("Kalrez", VerifiedEntry("Kalrez", "Kalrez (FFKM)", Elastomer))
    ]
  }

  function New(): Table<Material>
  {
    [
    ("Monel-400", ProvisionalEntry("Monel-400", "Monel 400", Metal,
      map[FluorideAcid := Conditional, ReducingAcid := Compatible, Halogenated := Compatible,
          StrongBase := Compatible, OxidizingAcid := Fail, AqueousCorrosive := Compatible,
          OrganicSolvent := Compatible],
      480, -200, [High, High, Critical])),
    ("Inconel-625", ProvisionalEntry("Inconel-625", "Inconel 625", Metal,
      map[HighTemp := Compatible, OxidizingAcid := Conditional, ReducingAcid := Compatible,
          Halogenated := Compatible, StrongBase := Compatible, AqueousCorrosive := Compatible],
      980, -200, [Medium, Medium, High])),
    ("Duplex-2205", ProvisionalEntry("Duplex-2205", "Duplex 2205 (UNS S32205)", Metal,
      map[Halogenated := Compatible, AqueousCorrosive := Compatible, OrganicSolvent := Compatible,
          ReducingAcid := Conditional, OxidizingAcid := Conditional, StrongBase := Conditional],
      300, -50, [High, Critical, High])),
    ("Cast-Iron", ProvisionalEntry("Cast-Iron", "Ductile Cast Iron", Metal,
      map[AqueousNonHazardous := Compatible, Neutral := Compatible, StrongBase := Conditional,
          ReducingAcid := Fail, OxidizingAcid := Fail, Halogenated := Fail,
          FluorideAcid := Fail],
      350, -30, [Medium, Critical, High, Medium])),
    ("PEEK", ProvisionalEntry("PEEK", "PEEK (Polyetheretherketone)", Plastic,
      map[HighTemp := Compatible, OxidizingAcid := Conditional, ReducingAcid := Compatible,
          OrganicSolvent := Compatible, StrongBase := Fail, Halogenated := Compatible],
      250, -60, [High, High, Medium])),
    ("UHMWPE", ProvisionalEntry("UHMWPE", "UHMWPE (Ultra-High MW Polyethylene)", Plastic,
      map[AbrasiveSlurry := Compatible, AqueousCorrosive := Compatible, ReducingAcid := Compatible,
          StrongBase := Compatible, OrganicSolvent := Conditional, OxidizingAcid := Conditional],
      80, -200, [High, Medium, Medium, Medium, Medium])),
    ("FRP", ProvisionalEntry("FRP", "FRP/GRP (Vinyl Ester)", Composite,
      map[OxidizingAcid := Compatible, ReducingAcid := Compatible, Halogenated := Compatible,
          StrongBase := Conditional, OrganicSolvent := Conditional, HighTemp := Fail,
          FluorideAcid := Fail],
      120, -40, [High, Medium, Medium, Critical])),
    ("Neoprene", ProvisionalEntry("Neoprene", "Neoprene (CR)", Elastomer,
      map[OrganicSolvent := Conditional, AqueousCorrosive := Compatible, ReducingAcid := Conditional,
          OxidizingAcid := Fail, StrongBase := Conditional, Petroleum := Compatible],
      100, -35, [High, High, Medium, Medium])),
    ("Silicone", ProvisionalEntry("Silicone", "Silicone (VMQ)", Elastomer,
      map[HighTemp := Compatible, Cryogenic := Compatible, FoodPharma := Compatible,
          AqueousNonHazardous := Compatible, Petroleum := Fail, OrganicSolvent := Fail,
          ReducingAcid := Fail],
      230, -60, [High, High, Medium])),
    ("PTFE-Encap", ProvisionalEntry("PTFE-Encap", "PTFE-Encapsulated O-Ring", Elastomer,
      map[OxidizingAcid := Compatible, ReducingAcid := Compatible, FluorideAcid := Compatible,
          StrongBase := Compatible, OrganicSolvent := Compatible, Halogenated := Compatible,
          FoodPharma := Compatible],
      200, -60, [Critical, Low, Medium]))
    ]
  }

  // ---------------------------------------------------------------------
  // Filters
  // ---------------------------------------------------------------------

  /** `ms.filter(m => m.type === t)`. */
  function WithType(ms: seq<Material>, t: MaterialType): (r: seq<Material>)
    ensures forall m :: m in r <==> m in ms && m.mtype == t
    ensures |r| <= |ms|
  {
    if ms == [] then []
    else (if ms[0].mtype == t then [ms[0]] else []) + WithType(ms[1..], t)
  }

  /** `ms.filter(m => m.status === s)`. */
  function WithStatus(ms: seq<Material>, s: MaterialStatus): (r: seq<Material>)
    ensures forall m :: m in r <==> m in ms && m.status == s
    ensures |r| <= |ms|
  {
    if ms == [] then []
    else (if ms[0].status == s then [ms[0]] else []) + WithStatus(ms[1..], s)
  }

  lemma {:induction false} WithStatusConcat(a: seq<Material>, b: seq<Material>, s: MaterialStatus)
    ensures WithStatus(a + b, s) == WithStatus(a, s) + WithStatus(b, s)
  {
    if a == [] {
      assert a + b == b;
    } else {
      assert (a + b)[1..] == a[1..] + b;
      WithStatusConcat(a[1..], b, s);
    }
  }

  predicate AllWithStatus(ms: seq<Material>, s: MaterialStatus)
  {
    forall i :: 0 <= i < |ms| ==> ms[i].status == s
  }

  /** Filtering by the status every entry has keeps them all, in order; any other status keeps none. */
  lemma {:induction false} WithStatusOfUniform(ms: seq<Material>, s: MaterialStatus, other: MaterialStatus)
    requires AllWithStatus(ms, s) && other != s
    ensures WithStatus(ms, s) == ms
    ensures WithStatus(ms, other) == []
  {
    if ms != [] {
      WithStatusOfUniform(ms[1..], s, other);
      assert ms == [ms[0]] + ms[1..];
    }
  }

  // ---------------------------------------------------------------------
  // The registry and its helpers
  // ---------------------------------------------------------------------

  /** `{...EXISTING_MATERIALS, ...NEW_MATERIALS}`; the two share no key, so this is `Spread(Existing(), New())` (see `RegistryIsSpread`). */
  function Registry(): Table<Material>
  {
    Existing() + New()
  }

  /** `MATERIALS_REGISTRY[id] || null`: the entry stored under exactly `id`. */
  function GetMaterial(id: string): (r: Option<Material>)
    ensures r.None? <==> id !in GetAllMaterialIds()
    ensures r.Some? ==> (id, r.value) in Registry()
  {
    Lookup(Registry(), id)
  }

  /** The registry's entries whose type is `t`, in key order. */
  function GetMaterialsByType(t: MaterialType): (r: seq<Material>)
    ensures forall m :: m in r <==> m in Values(Registry()) && m.mtype == t
  {
    WithType(Values(Registry()), t)
  }

  /** The registry's entries whose status is `s`, in key order. */
  function GetMaterialsByStatus(s: MaterialStatus): (r: seq<Material>)
    ensures forall m :: m in r <==> m in Values(Registry()) && m.status == s
  {
    WithStatus(Values(Registry()), s)
  }

  function GetProvisionalMaterials(): seq<Material>
  {
    GetMaterialsByStatus(Provisional)
  }

  function GetVerifiedMaterials(): seq<Material>
  {
    GetMaterialsByStatus(Verified)
  }

  function GetAllMaterialIds(): seq<string>
  {
    Keys(Registry())
  }

  function GetMaterialCount(): nat
  {
    |Keys(Registry())|
  }

  /**
   * The verdict the registry records for `regime`; UNKNOWN when the id is
   * not a key, the entry has no regime behaviour, or the regime is unmapped.
   */
  function GetRegimeBehavior(id: string, regime: Regime): (v: Verdict)
    ensures v != Unknown ==> GetMaterial(id).Some? && GetMaterial(id).value.regimeBehavior.Some?
    ensures GetMaterial(id).Some? && GetMaterial(id).value.regimeBehavior.Some? ==>
      && (regime in GetMaterial(id).value.regimeBehavior.value ==> v == GetMaterial(id).value.regimeBehavior.value[regime])
      && (regime !in GetMaterial(id).value.regimeBehavior.value ==> v == Unknown)
    ensures GetMaterial(id).None? ==> v == Unknown
    ensures GetMaterial(id).Some? && GetMaterial(id).value.regimeBehavior.None? ==> v == Unknown
  {
    match GetMaterial(id)
    case None => Unknown
    case Some(m) =>
      match m.regimeBehavior
      case None => Unknown
      case Some(rb) => if regime in rb then rb[regime] else Unknown
  }

  /** `material?.status === PROVISIONAL`. */
  predicate IsProvisional(id: string)
  {
    GetMaterial(id).Some? && GetMaterial(id).value.status == Provisional
  }

  // ---------------------------------------------------------------------
  // Facts about the data
  // ---------------------------------------------------------------------

  predicate IdsAreKeys(t: Table<Material>)
  {
    forall i :: 0 <= i < |t| ==> t[i].1.id == t[i].0
  }

  predicate AllWithoutBehavior(ms: seq<Material>)
  {
    forall i :: 0 <= i < |ms| ==> ms[i].regimeBehavior.None?
  }

  lemma ExistingKeysDistinct()
    ensures Distinct(Keys(Existing()))
  {
  }

  lemma NewKeysDistinct()
    ensures Distinct(Keys(New()))
  {
  }

  lemma NoKeyOverlap()
    ensures Disjoint(Keys(New()), Keys(Existing()))
  {
  }

  lemma ExistingAreVerifiedAndBare()
    ensures AllWithStatus(Values(Existing()), Verified)
    ensures AllWithoutBehavior(Values(Existing()))
  {
  }

  lemma NewAreProvisional()
    ensures AllWithStatus(Values(New()), Provisional)
  {
  }

  lemma EntryIdsAreKeys()
    ensures IdsAreKeys(Existing()) && IdsAreKeys(New())
  {
  }

  /** The spread adds no overlapping key, so it lists the original entries followed by the new ones. */
  lemma RegistryIsSpread()
    ensures Spread(Existing(), New()) == Registry()
  {
    NewKeysDistinct();
    NoKeyOverlap();
    SpreadDisjointAppends(Existing(), New());
  }

  /** The registry holds 26 distinct keys: 16 original and 10 new. */
  lemma MaterialCount()
    ensures |Existing()| == 16 && |New()| == 10
    ensures GetMaterialCount() == |GetAllMaterialIds()| == 26
    ensures Distinct(GetAllMaterialIds())
  {
    KeysConcat(Existing(), New());
    ExistingKeysDistinct();
    NewKeysDistinct();
    NoKeyOverlap();
    DistinctConcat(Keys(Existing()), Keys(New()));
  }

  /** Every entry's `id` is its key. */
  lemma RegistryIdsAreKeys()
    ensures IdsAreKeys(Registry())
  {
    EntryIdsAreKeys();
    var r := Registry();
    forall i | 0 <= i < |r| ensures r[i].1.id == r[i].0 {
      if i >= |Existing()| {
        assert r[i] == New()[i - |Existing()|];
      }
    }
  }

  /** Every new material's minimum temperature lies below its maximum. */
  lemma NewLimitsAreOrdered()
    ensures forall i :: 0 <= i < |New()| ==>
      New()[i].1.temperatureLimits.Some? && New()[i].1.temperatureLimits.value.min < New()[i].1.temperatureLimits.value.max
  {
  }

  /** A list of VERIFIED entries followed by PROVISIONAL ones splits back into the two by status. */
  lemma FilterOfUniformParts(a: seq<Material>, b: seq<Material>)
    requires AllWithStatus(a, Verified) && AllWithStatus(b, Provisional)
    ensures WithStatus(a + b, Provisional) == b
    ensures WithStatus(a + b, Verified) == a
    ensures WithStatus(a + b, Deprecated) == []
  {
    WithStatusOfUniform(b, Provisional, Verified);
    WithStatusOfUniform(b, Provisional, Deprecated);
    WithStatusOfUniform(a, Verified, Provisional);
    WithStatusOfUniform(a, Verified, Deprecated);
    WithStatusConcat(a, b, Provisional);
    WithStatusConcat(a, b, Verified);
    WithStatusConcat(a, b, Deprecated);
  }

  /** The provisional list is exactly the new materials and the verified list exactly the original ones, in order. */
  lemma StatusListsFollowOrigin()
    ensures GetProvisionalMaterials() == Values(New())
    ensures GetVerifiedMaterials() == Values(Existing())
    ensures GetMaterialsByStatus(Deprecated) == []
  {
    ValuesConcat(Existing(), New());
    ExistingAreVerifiedAndBare();
    NewAreProvisional();
    FilterOfUniformParts(Values(Existing()), Values(New()));
  }

  /** No entry is DEPRECATED, so the provisional and verified lists together cover the registry. */
  lemma StatusListsCoverRegistry()
    ensures |GetProvisionalMaterials()| + |GetVerifiedMaterials()| == GetMaterialCount()
  {
    StatusListsFollowOrigin();
  }

  /** No material is both provisional and verified. */
  lemma StatusListsAreDisjoint()
    ensures forall m :: m in GetProvisionalMaterials() ==> m !in GetVerifiedMaterials()
  {
  }

  /** In a table of VERIFIED entries followed by PROVISIONAL ones with other keys, the entry found is PROVISIONAL exactly for the second part's keys. */
  lemma ProvisionalLookupInParts(a: Table<Material>, b: Table<Material>, id: string)
    requires AllWithStatus(Values(a), Verified) && AllWithStatus(Values(b), Provisional)
    requires Disjoint(Keys(b), Keys(a))
    ensures (Lookup(a + b, id).Some? && Lookup(a + b, id).value.status == Provisional) <==> id in Keys(b)
  {
    LookupConcat(a, b, id);
    if id in Keys(a) {
      LookupIsValue(a, id);
    } else if id in Keys(b) {
      LookupIsValue(b, id);
    }
  }

  /** An id is provisional exactly when it is one of the new materials' keys (compared case-sensitively). */
  lemma IsProvisionalIffNew(id: string)
    ensures IsProvisional(id) <==> id in Keys(New())
  {
    ExistingAreVerifiedAndBare();
    NewAreProvisional();
    NoKeyOverlap();
    ProvisionalLookupInParts(Existing(), New(), id);
  }

  /** The original entries carry no regime behaviour, so every regime reads UNKNOWN for them, as for any id that is not a key. */
  lemma RegimeBehaviorUnknownOutsideNew(id: string, regime: Regime)
    requires id !in Keys(New())
    ensures GetRegimeBehavior(id, regime) == Unknown
  {
    LookupConcat(Existing(), New(), id);
    ExistingAreVerifiedAndBare();
    if id in Keys(Existing()) {
      LookupIsValue(Existing(), id);
    }
  }

  /** `Monel-400` is the first of the new entries. */
  lemma MonelEntry()
    ensures GetMaterial("Monel-400") == Some(New()[0].1)
  {
    NoKeyOverlap();
    assert Keys(New())[0] == "Monel-400";
    LookupConcat(Existing(), New(), "Monel-400");
  }

  /** Monel 400 fails in oxidizing acid. */
  lemma MonelFailsInOxidizingAcid()
    ensures GetRegimeBehavior("Monel-400", OxidizingAcid) == Fail
  {
    MonelEntry();
  }

  /** Monel 400 is only conditional in fluoride acid. */
  lemma MonelIsConditionalInFluorideAcid()
    ensures GetRegimeBehavior("Monel-400", FluorideAcid) == Conditional
  {
    MonelEntry();
  }

  /** Keys are compared exactly: lower-case `monel-400` is not a key, so it reads UNKNOWN and is not provisional. */
  lemma LowerCaseMonelIsUnknown()
    ensures GetRegimeBehavior("monel-400", OxidizingAcid) == Unknown
    ensures !IsProvisional("monel-400")
  {
    assert "monel-400" !in Keys(New());
    RegimeBehaviorUnknownOutsideNew("monel-400", OxidizingAcid);
    IsProvisionalIffNew("monel-400");
  }
}
