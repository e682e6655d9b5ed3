/**
 * The material-expansion cases of the golden suite, stated for the rule
 * table: three cases for each of the ten new materials.
 */
module MaterialGolden {
  import opened Text
  import opened Vocabulary
  import opened MaterialEngine

  /** Monel-400, or any id naming monel: CONDITIONAL in HF, COMPATIBLE in HCl, FAIL in oxidizers (GT-151 to GT-153). */
  lemma MonelCases(materialId: string)
    requires Includes(materialId, "monel")
    ensures EvaluateMaterialCompatibility(materialId, FluorideAcid, 25.0).status == Conditional
    ensures EvaluateMaterialCompatibility(materialId, ReducingAcid, 25.0).status == Compatible
    ensures EvaluateMaterialCompatibility(materialId, OxidizingAcid, 25.0).status == Fail
  {
    assert EvaluateMaterialCompatibility(materialId, FluorideAcid, 25.0).status == Conditional by {
      FirstFamilyDecides(materialId, FluorideAcid, 25.0, 0);
    }
    assert EvaluateMaterialCompatibility(materialId, ReducingAcid, 25.0).status == Compatible by {
      FirstFamilyDecides(materialId, ReducingAcid, 25.0, 0);
    }
    assert EvaluateMaterialCompatibility(materialId, OxidizingAcid, 25.0).status == Fail by {
      FirstFamilyDecides(materialId, OxidizingAcid, 25.0, 0);
    }
  }

  /** Inconel-625, or any id naming inconel and not monel: COMPATIBLE at 800 °C (GT-154). */
  lemma InconelAtHighTemperature(materialId: string)
    requires Includes(materialId, "inconel") && !Includes(materialId, "monel")
    ensures EvaluateMaterialCompatibility(materialId, HighTemp, 800.0).status == Compatible
  {
    FirstFamilyDecides(materialId, HighTemp, 800.0, 1);
  }

  /** Inconel-625, or any id naming inconel and not monel: CONDITIONAL in oxidizers (GT-155). */
  lemma InconelInOxidizer(materialId: string)
    requires Includes(materialId, "inconel") && !Includes(materialId, "monel")
    ensures EvaluateMaterialCompatibility(materialId, OxidizingAcid, 25.0).status == Conditional
  {
    FirstFamilyDecides(materialId, OxidizingAcid, 25.0, 1);
  }

  /** Inconel-625, or any id naming inconel and not monel: COMPATIBLE in chlorides (GT-156). */
  lemma InconelInChloride(materialId: string)
    requires Includes(materialId, "inconel") && !Includes(materialId, "monel")
    ensures EvaluateMaterialCompatibility(materialId, Halogenated, 25.0).status == Compatible
  {
    FirstFamilyDecides(materialId, Halogenated, 25.0, 1);
  }

  /** Duplex-2205, or any id naming duplex and no earlier metal: COMPATIBLE in chlorides, FAIL at -60 °C, FAIL in hot caustic (GT-157 to GT-159). */
  lemma DuplexCases(materialId: string)
    requires Includes(materialId, "duplex") && !Includes(materialId, "monel") && !Includes(materialId, "inconel")
    ensures EvaluateMaterialCompatibility(materialId, Halogenated, 25.0).status == Compatible
    ensures EvaluateMaterialCompatibility(materialId, Cryogenic, -60.0).status == Fail
    ensures EvaluateMaterialCompatibility(materialId, StrongBase, 90.0).status == Fail
  {
    assert EvaluateMaterialCompatibility(materialId, Halogenated, 25.0).status == Compatible by {
      FirstFamilyDecides(materialId, Halogenated, 25.0, 2);
    }
    assert EvaluateMaterialCompatibility(materialId, Cryogenic, -60.0).status == Fail by {
      DuplexColdFails(materialId, Cryogenic, -60.0);
    }
    assert EvaluateMaterialCompatibility(materialId, StrongBase, 90.0).status == Fail by {
      DuplexCausticLimit(materialId, 90.0);
    }
  }

  /** Cast iron, or any id naming cast iron and no earlier metal: COMPATIBLE in water (GT-160). */
  lemma CastIronInWater(materialId: string)
    requires Includes(materialId, "cast-iron")
    requires !Includes(materialId, "monel") && !Includes(materialId, "inconel") && !Includes(materialId, "duplex")
    ensures EvaluateMaterialCompatibility(materialId, Neutral, 25.0).status == Compatible
  {
    FirstFamilyDecides(materialId, Neutral, 25.0, 3);
  }

  /** Cast iron, or any id naming cast iron and no earlier metal: FAIL in reducing acid (GT-161). */
  lemma CastIronInAcid(materialId: string)
    requires Includes(materialId, "cast-iron")
    requires !Includes(materialId, "monel") && !Includes(materialId, "inconel") && !Includes(materialId, "duplex")
    ensures EvaluateMaterialCompatibility(materialId, ReducingAcid, 25.0).status == Fail
  {
    FirstFamilyDecides(materialId, ReducingAcid, 25.0, 3);
  }

  /** Cast iron, or any id naming cast iron and no earlier metal: FAIL in chlorides (GT-162). */
  lemma CastIronInChloride(materialId: string)
    requires Includes(materialId, "cast-iron")
    requires !Includes(materialId, "monel") && !Includes(materialId, "inconel") && !Includes(materialId, "duplex")
    ensures EvaluateMaterialCompatibility(materialId, Halogenated, 25.0).status == Fail
  {
    FirstFamilyDecides(materialId, Halogenated, 25.0, 3);
  }

  /** PEEK, in any letter case: COMPATIBLE hot, FAIL in caustic, COMPATIBLE in solvents (GT-163 to GT-165). */
  lemma PeekCases(materialId: string)
    requires Lower(materialId) == "peek"
    ensures EvaluateMaterialCompatibility(materialId, HighTemp, 200.0).status == Compatible
    ensures EvaluateMaterialCompatibility(materialId, StrongBase, 25.0).status == Fail
    ensures EvaluateMaterialCompatibility(materialId, OrganicSolvent, 25.0).status == Compatible
  {
    assert EvaluateMaterialCompatibility(materialId, HighTemp, 200.0).status == Compatible by {
      PeekUpTo250IsCompatible(materialId, HighTemp, 200.0);
    }
    assert EvaluateMaterialCompatibility(materialId, StrongBase, 25.0).status == Fail by {
      PeekFailsInStrongBase(materialId, 25.0);
    }
    assert EvaluateMaterialCompatibility(materialId, OrganicSolvent, 25.0).status == Compatible by {
      PeekUpTo250IsCompatible(materialId, OrganicSolvent, 25.0);
    }
  }

  /** UHMWPE, in any letter case: COMPATIBLE in slurry, FAIL hot, CONDITIONAL in oxidizers (GT-166 to GT-168). */
  lemma UhmwpeCases(materialId: string)
    requires Lower(materialId) == "uhmwpe"
    ensures EvaluateMaterialCompatibility(materialId, AbrasiveSlurry, 25.0).status == Compatible
    ensures EvaluateMaterialCompatibility(materialId, AqueousCorrosive, 90.0).status == Fail
    ensures EvaluateMaterialCompatibility(materialId, OxidizingAcid, 25.0).status == Conditional
  {
    assert EvaluateMaterialCompatibility(materialId, AbrasiveSlurry, 25.0).status == Compatible by {
      NamedFamilyDecides(materialId, AbrasiveSlurry, 25.0, 5);
    }
    assert EvaluateMaterialCompatibility(materialId, AqueousCorrosive, 90.0).status == Fail by {
      UhmwpeHotFails(materialId, AqueousCorrosive, 90.0);
    }
    assert EvaluateMaterialCompatibility(materialId, OxidizingAcid, 25.0).status == Conditional by {
      NamedFamilyDecides(materialId, OxidizingAcid, 25.0, 5);
    }
  }

  /** FRP, in any letter case: COMPATIBLE in acid, FAIL in HF, FAIL at 150 °C (GT-169 to GT-171). */
  lemma FrpCases(materialId: string)
    requires Lower(materialId) == "frp"
    ensures EvaluateMaterialCompatibility(materialId, OxidizingAcid, 25.0).status == Compatible
    ensures EvaluateMaterialCompatibility(materialId, FluorideAcid, 25.0).status == Fail
    ensures EvaluateMaterialCompatibility(materialId, HighTemp, 150.0).status == Fail
  {
    assert EvaluateMaterialCompatibility(materialId, OxidizingAcid, 25.0).status == Compatible by {
      NamedFamilyDecides(materialId, OxidizingAcid, 25.0, 6);
    }
    assert EvaluateMaterialCompatibility(materialId, FluorideAcid, 25.0).status == Fail by {
      FrpLimits(materialId, FluorideAcid, 25.0);
    }
    assert EvaluateMaterialCompatibility(materialId, HighTemp, 150.0).status == Fail by {
      FrpLimits(materialId, HighTemp, 150.0);
    }
  }

  /** Neoprene, in any letter case: COMPATIBLE in oil, FAIL in oxidizers, CONDITIONAL in solvents (GT-172 to GT-174). */
  lemma NeopreneCases(materialId: string)
    requires Lower(materialId) == "neoprene"
    ensures EvaluateMaterialCompatibility(materialId, Petroleum, 25.0).status == Compatible
    ensures EvaluateMaterialCompatibility(materialId, OxidizingAcid, 25.0).status == Fail
    ensures EvaluateMaterialCompatibility(materialId, OrganicSolvent, 25.0).status == Conditional
  {
    assert EvaluateMaterialCompatibility(materialId, Petroleum, 25.0).status == Compatible by {
      NamedFamilyDecides(materialId, Petroleum, 25.0, 7);
    }
    assert EvaluateMaterialCompatibility(materialId, OxidizingAcid, 25.0).status == Fail by {
      NamedFamilyDecides(materialId, OxidizingAcid, 25.0, 7);
    }
    assert EvaluateMaterialCompatibility(materialId, OrganicSolvent, 25.0).status == Conditional by {
      NamedFamilyDecides(materialId, OrganicSolvent, 25.0, 7);
    }
  }

  /** Silicone, in any letter case: COMPATIBLE at 200 °C (GT-175). */
  lemma SiliconeAtHighTemperature(materialId: string)
    requires Lower(materialId) == "silicone"
    ensures EvaluateMaterialCompatibility(materialId, HighTemp, 200.0).status == Compatible
  {
    NamedFamilyDecides(materialId, HighTemp, 200.0, 8);
  }

  /** Silicone, in any letter case: FAIL in oil (GT-176). */
  lemma SiliconeInOil(materialId: string)
    requires Lower(materialId) == "silicone"
    ensures EvaluateMaterialCompatibility(materialId, Petroleum, 25.0).status == Fail
  {
    NamedFamilyDecides(materialId, Petroleum, 25.0, 8);
  }

  /** Silicone, in any letter case: COMPATIBLE for food and pharma service (GT-177). */
  lemma SiliconeForFood(materialId: string)
    requires Lower(materialId) == "silicone"
    ensures EvaluateMaterialCompatibility(materialId, FoodPharma, 25.0).status == Compatible
  {
    NamedFamilyDecides(materialId, FoodPharma, 25.0, 8);
  }

  /** PTFE-encapsulated, or any id naming it and no metal: COMPATIBLE in HF, caustic and solvents (GT-178 to GT-180). */
  lemma EncapsulatedCases(materialId: string)
    requires Includes(materialId, "ptfe-encap") && NoMetalFamily(materialId)
    ensures EvaluateMaterialCompatibility(materialId, FluorideAcid, 25.0).status == Compatible
    ensures EvaluateMaterialCompatibility(materialId, StrongBase, 25.0).status == Compatible
    ensures EvaluateMaterialCompatibility(materialId, OrganicSolvent, 25.0).status == Compatible
  {
    assert EvaluateMaterialCompatibility(materialId, FluorideAcid, 25.0).status == Compatible by {
      EncapsulatedIsCompatible(materialId, FluorideAcid, 25.0);
    }
    assert EvaluateMaterialCompatibility(materialId, StrongBase, 25.0).status == Compatible by {
      EncapsulatedIsCompatible(materialId, StrongBase, 25.0);
    }
    assert EvaluateMaterialCompatibility(materialId, OrganicSolvent, 25.0).status == Compatible by {
      EncapsulatedIsCompatible(materialId, OrganicSolvent, 25.0);
    }
  }

  /** The polymer families match only the exact name: `peek-450g` is UNKNOWN in caustic. */
  lemma PeekGradeIsUnknown()
    ensures EvaluateMaterialCompatibility("peek-450g", StrongBase, 25.0).status == Unknown
  {
    assert !Includes("peek-450g", "monel") && !Includes("peek-450g", "inconel") && !Includes("peek-450g", "duplex");
    assert !Includes("peek-450g", "cast-iron") && !Includes("peek-450g", "castiron");
    assert !Includes("peek-450g", "ptfe-encap") && !Includes("peek-450g", "encapsulated");
    assert |Lower("peek-450g")| == 9;
    forall i | 0 <= i < |FamilyOrder|
      ensures !Matches("peek-450g", FamilyOrder[i])
    {
    }
  }
}
