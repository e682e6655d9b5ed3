/**
 * The material promotion run: once the material golden tests pass, the
 * listed PROVISIONAL registry entries become VERIFIED in place, each with one
 * promotion record and one log entry.
 */
module Promotion {
  import opened Wrappers
  import opened Vocabulary
  import opened ObjectTables
  import opened MaterialsRegistry

  /** The materials the run considers, in the order it visits them. */
  function ToPromote(): seq<string>
  {
    ["Monel-400", "Inconel-625", "Duplex-2205", "Cast-Iron", "PEEK",
     "UHMWPE", "FRP", "Neoprene", "Silicone", "PTFE-Encap"]
  }

  const PromotedBy := "ENF-4 (Parliament Session 4)"
  const GoldenTestsFailed := "Golden tests failed"

  /** What the material golden suite reports to the run (its pass rate is left out). */
  datatype TestReport = TestReport(passed: nat, total: nat, canPromote: bool)

  datatype StageStatus = Passed | Failed | Partial | Approved | Finished

  datatype Stage =
    | GoldenTests(passed: nat, total: nat, status: StageStatus)
    | Documentation(verified: nat, total: nat, status: StageStatus)
    | ChemistryApproval(approve: nat, reject: nat)
    | EnfApproval(testsPassed: nat, testsTotal: nat)
    | Execution(promoted: nat, total: nat)

  datatype RunStatus = Blocked | Complete

  datatype PromotedRecord = PromotedRecord(id: string, name: string, previousStatus: MaterialStatus,
                                           newStatus: MaterialStatus, promotedAt: string)

  datatype LogEntry = LogEntry(materialId: string, from: MaterialStatus, to: MaterialStatus, timestamp: string)

  datatype Summary = Summary(totalPromoted: nat, totalVerified: nat, totalProvisional: nat)

  datatype PromotionResult = PromotionResult(
    startedAt: string,
    completedAt: string,
    status: RunStatus,
    stages: seq<Stage>,
    promoted: seq<PromotedRecord>,
    blockReason: Option<string>,
    summary: Option<Summary>)

  // ---------------------------------------------------------------------
  // Stage 2: documentation
  // ---------------------------------------------------------------------

  /** `regimeBehavior && failureModes && references`: each property present (an empty list is still present). */
  predicate HasAllDocs(m: Material)
  {
    m.regimeBehavior.Some? && m.failureModes.Some? && m.references.Some?
  }

  predicate Documented(reg: Table<Material>, id: string)
  {
    Lookup(reg, id).Some? && HasAllDocs(Lookup(reg, id).value)
  }

  /** How many of `ids` name a documented entry of `reg`. */
  function DocumentedCount(reg: Table<Material>, ids: seq<string>): (n: nat)
    ensures n <= |ids|
  {
    if ids == [] then 0
    else DocumentedCount(reg, ids[..|ids| - 1]) + (if Documented(reg, ids[|ids| - 1]) then 1 else 0)
  }

  lemma {:induction false} AllDocumentedCount(reg: Table<Material>, ids: seq<string>)
    requires forall id :: id in ids ==> Documented(reg, id)
    ensures DocumentedCount(reg, ids) == |ids|
  {
    if ids != [] {
      AllDocumentedCount(reg, ids[..|ids| - 1]);
    }
  }

  // ---------------------------------------------------------------------
  // Stage 5: promotion, one id at a time
  // ---------------------------------------------------------------------

  /** The entry after its promotion: VERIFIED, stamped with time and promoter. */
  function Promoted(m: Material, now: string): Material
  {
    m.(status := Verified, promotion := Some(Promotion(now, PromotedBy)))
  }

  /** One iteration of the stage-5 loop: only a PROVISIONAL entry changes. */
  function PromoteStep(reg: Table<Material>, id: string, now: string): Table<Material>
  {
    match Lookup(reg, id)
    case Some(m) => if m.status == Provisional then Assign(reg, id, Promoted(m, now)) else reg
    case None => reg
  }

  /** The records one iteration adds to `result.promoted`. */
  function StepRecords(reg: Table<Material>, id: string, now: string): seq<PromotedRecord>
  {
    match Lookup(reg, id)
    case Some(m) => if m.status == Provisional then [PromotedRecord(id, m.name, Provisional, Verified, now)] else []
    case None => []
  }

  /** The registry after the loop has visited `ids` in order. */
  function PromoteAll(reg: Table<Material>, ids: seq<string>, now: string): Table<Material>
  {
    if ids == [] then reg
    else PromoteStep(PromoteAll(reg, ids[..|ids| - 1], now), ids[|ids| - 1], now)
  }

  /** The records the loop has collected after visiting `ids` in order. */
  function PromotedRecords(reg: Table<Material>, ids: seq<string>, now: string): seq<PromotedRecord>
  {
    if ids == [] then []
    else
      var init := ids[..|ids| - 1];
      PromotedRecords(reg, init, now) + StepRecords(PromoteAll(reg, init, now), ids[|ids| - 1], now)
  }

  /** The log entry written beside each record. */
  function LogOf(records: seq<PromotedRecord>): (log: seq<LogEntry>)
    ensures |log| == |records|
  {
    seq(|records|, k requires 0 <= k < |records| =>
      LogEntry(records[k].id, records[k].previousStatus, records[k].newStatus, records[k].promotedAt))
  }

  lemma LogOfConcat(a: seq<PromotedRecord>, b: seq<PromotedRecord>)
    ensures LogOf(a + b) == LogOf(a) + LogOf(b)
  {
  }

  /** The ids of a list of records. */
  function RecordIds(records: seq<PromotedRecord>): (ids: seq<string>)
    ensures |ids| == |records|
  {
    seq(|records|, k requires 0 <= k < |records| => records[k].id)
  }

  // ---------------------------------------------------------------------
  // What the loop computes, entry by entry
  // ---------------------------------------------------------------------

  /** Each entry of `reg` as the run leaves it: promoted when listed and PROVISIONAL, otherwise as it was. */
  function Pointwise(reg: Table<Material>, ids: seq<string>, now: string): (r: Table<Material>)
    ensures |r| == |reg|
  {
    seq(|reg|, i requires 0 <= i < |reg| =>
      (reg[i].0, if reg[i].0 in ids && reg[i].1.status == Provisional then Promoted(reg[i].1, now) else reg[i].1))
  }

  lemma PointwiseKeys(reg: Table<Material>, ids: seq<string>, now: string)
    ensures Keys(Pointwise(reg, ids, now)) == Keys(reg)
  {
  }

  /** With distinct keys the loop promotes exactly the listed PROVISIONAL entries and leaves every other entry and the key order alone. */
  lemma {:induction false} PromoteAllIsPointwise(reg: Table<Material>, ids: seq<string>, now: string)
    requires Distinct(Keys(reg))
    ensures PromoteAll(reg, ids, now) == Pointwise(reg, ids, now)
  {
    if ids == [] {
      assert Pointwise(reg, ids, now) == reg;
    } else {
      var init, id := ids[..|ids| - 1], ids[|ids| - 1];
      assert ids == init + [id];
      PromoteAllIsPointwise(reg, init, now);
      var before := Pointwise(reg, init, now);
      PointwiseKeys(reg, init, now);
      if j :| 0 <= j < |reg| && reg[j].0 == id {
        LookupDistinctAt(before, j);
        forall i | 0 <= i < |reg| && i != j
          ensures reg[i].0 in ids <==> reg[i].0 in init
        {
          assert Keys(reg)[i] != Keys(reg)[j];
        }
        var m := before[j].1;
        if m.status == Provisional {
          AssignDistinctAt(before, j, Promoted(m, now));
        }
      } else {
        assert id !in Keys(before);
      }
    }
  }

  /** Promotion changes exactly the listed PROVISIONAL entries, keeps every key, and touches nothing else. */
  lemma PromotionTouchesOnlyListedProvisional(reg: Table<Material>, ids: seq<string>, now: string, id: string)
    requires Distinct(Keys(reg))
    ensures Keys(PromoteAll(reg, ids, now)) == Keys(reg)
    ensures Lookup(PromoteAll(reg, ids, now), id) ==
      match Lookup(reg, id)
      case Some(m) => if id in ids && m.status == Provisional then Some(Promoted(m, now)) else Some(m)
      case None => None
  {
    PromoteAllIsPointwise(reg, ids, now);
    PointwiseKeys(reg, ids, now);
    if j :| 0 <= j < |reg| && reg[j].0 == id {
      LookupDistinctAt(reg, j);
      LookupDistinctAt(Pointwise(reg, ids, now), j);
    }
  }

  /** A run over ids none of which names a PROVISIONAL entry changes nothing and records nothing. */
  lemma {:induction false} NothingToPromote(reg: Table<Material>, ids: seq<string>, now: string)
    requires forall id :: id in ids ==> Lookup(reg, id).None? || Lookup(reg, id).value.status != Provisional
    ensures PromoteAll(reg, ids, now) == reg
    ensures PromotedRecords(reg, ids, now) == []
  {
    if ids != [] {
      NothingToPromote(reg, ids[..|ids| - 1], now);
    }
  }

  /** A second run over the same list promotes nothing: every listed entry is no longer PROVISIONAL. */
  lemma SecondRunPromotesNothing(reg: Table<Material>, ids: seq<string>, now: string, later: string)
    requires Distinct(Keys(reg))
    ensures var once := PromoteAll(reg, ids, now);
      PromoteAll(once, ids, later) == once && PromotedRecords(once, ids, later) == []
  {
    var once := PromoteAll(reg, ids, now);
    forall id | id in ids
      ensures Lookup(once, id).None? || Lookup(once, id).value.status != Provisional
    {
      PromotionTouchesOnlyListedProvisional(reg, ids, now, id);
    }
    NothingToPromote(once, ids, later);
  }

  /** With distinct listed ids, each record comes from the entry as it stood before the run. */
  function OriginalRecords(reg: Table<Material>, ids: seq<string>, now: string): seq<PromotedRecord>
  {
    if ids == [] then [] else OriginalRecords(reg, ids[..|ids| - 1], now) + StepRecords(reg, ids[|ids| - 1], now)
  }

  lemma {:induction false} RecordsFromOriginalEntries(reg: Table<Material>, ids: seq<string>, now: string)
    requires Distinct(Keys(reg)) && Distinct(ids)
    ensures PromotedRecords(reg, ids, now) == OriginalRecords(reg, ids, now)
  {
    if ids != [] {
      var init, id := ids[..|ids| - 1], ids[|ids| - 1];
      assert Distinct(init) by {
        forall a, b | 0 <= a < b < |init|
          ensures init[a] != init[b]
        {
          assert ids[a] != ids[b];
        }
      }
      assert id !in init by {
        forall k | 0 <= k < |init|
          ensures init[k] != id
        {
          assert ids[k] != ids[|ids| - 1];
        }
      }
      RecordsFromOriginalEntries(reg, init, now);
      PromotionTouchesOnlyListedProvisional(reg, init, now, id);
    }
  }

  /** When every listed id names a PROVISIONAL entry, one record per id is produced, in list order. */
  lemma {:induction false} AllProvisionalRecordIds(reg: Table<Material>, ids: seq<string>, now: string)
    requires forall id :: id in ids ==> Lookup(reg, id).Some? && Lookup(reg, id).value.status == Provisional
    ensures RecordIds(OriginalRecords(reg, ids, now)) == ids
  {
    if ids != [] {
      AllProvisionalRecordIds(reg, ids[..|ids| - 1], now);
      assert ids == ids[..|ids| - 1] + [ids[|ids| - 1]];
    }
  }

  // ---------------------------------------------------------------------
  // The run over the shipped registry
  // ---------------------------------------------------------------------

  /** The promotion list is the new materials' keys, in registry order. */
  lemma ToPromoteIsNew()
    ensures ToPromote() == Keys(New())
  {
  }

  lemma NewAreDocumented()
    ensures forall i :: 0 <= i < |New()| ==> HasAllDocs(New()[i].1)
  {
  }

  /** A table of VERIFIED entries followed by documented PROVISIONAL ones with new keys: every key of the second part is documented and provisional. */
  lemma SecondPartDocumentedAndProvisional(a: Table<Material>, b: Table<Material>, id: string)
    requires AllWithStatus(Values(b), Provisional) && Disjoint(Keys(b), Keys(a))
    requires forall i :: 0 <= i < |b| ==> HasAllDocs(b[i].1)
    requires id in Keys(b)
    ensures Lookup(a + b, id).Some? && Lookup(a + b, id).value.status == Provisional
    ensures Documented(a + b, id)
  {
    LookupConcat(a, b, id);
    var v := Lookup(b, id).value;
    var i :| 0 <= i < |b| && b[i] == (id, v);
    assert Values(b)[i] == v;
  }

  /** Promoting the second part's keys of VERIFIED-then-PROVISIONAL parts leaves every entry VERIFIED. */
  lemma PartsPromotedToVerified(a: Table<Material>, b: Table<Material>, now: string)
    requires AllWithStatus(Values(a), Verified) && AllWithStatus(Values(b), Provisional)
    ensures AllWithStatus(Values(Pointwise(a + b, Keys(b), now)), Verified)
  {
    var reg := a + b;
    forall i | 0 <= i < |reg|
      ensures Values(Pointwise(reg, Keys(b), now))[i].status == Verified
    {
      if i >= |a| {
        assert reg[i] == b[i - |a|];
        assert Keys(b)[i - |a|] == reg[i].0;
        assert Values(b)[i - |a|] == reg[i].1;
      } else {
        assert Values(a)[i] == reg[i].1;
      }
    }
  }

  /** All ten listed materials are documented, so stage 2 reports 10/10. */
  lemma DocumentationComplete()
    ensures DocumentedCount(Registry(), ToPromote()) == 10
  {
    ToPromoteIsNew();
    NewAreProvisional();
    NoKeyOverlap();
    NewAreDocumented();
    forall id | id in ToPromote()
      ensures Documented(Registry(), id)
    {
      SecondPartDocumentedAndProvisional(Existing(), New(), id);
    }
    AllDocumentedCount(Registry(), ToPromote());
  }

  /**
   * On the shipped registry the first run promotes all ten listed materials,
   * in list order, and leaves none PROVISIONAL and all 26 VERIFIED, the
   * figures the run's summary reports.
   */
  lemma FirstRunPromotesAllTen(now: string)
    ensures RecordIds(PromotedRecords(Registry(), ToPromote(), now)) == ToPromote()
    ensures WithStatus(Values(PromoteAll(Registry(), ToPromote(), now)), Provisional) == []
    ensures |WithStatus(Values(PromoteAll(Registry(), ToPromote(), now)), Verified)| == 26
  {
    var reg, ids := Registry(), ToPromote();
    ToPromoteIsNew();
    NewAreProvisional();
    NoKeyOverlap();
    NewAreDocumented();
    ExistingAreVerifiedAndBare();
    MaterialCount();
    forall id | id in ids
      ensures Lookup(reg, id).Some? && Lookup(reg, id).value.status == Provisional
    {
      SecondPartDocumentedAndProvisional(Existing(), New(), id);
    }
    assert Distinct(ids);
    RecordsFromOriginalEntries(reg, ids, now);
    AllProvisionalRecordIds(reg, ids, now);
    PromoteAllIsPointwise(reg, ids, now);
    var after := Pointwise(reg, ids, now);
    PartsPromotedToVerified(Existing(), New(), now);
    WithStatusOfUniform(Values(after), Verified, Provisional);
  }

  // ---------------------------------------------------------------------
  // The engine
  // ---------------------------------------------------------------------

  /**
   * The promotion engine. `registry` stands for the shared materials registry
   * object, which the run updates in place; `promotionLog` keeps one entry
   * per status change across runs.
   */
  class MaterialPromotionEngine {
    var registry: Table<Material>
    var promotionLog: seq<LogEntry>

    /** A new engine sees the registry as shipped, and an empty log. */
    constructor()
      ensures registry == Registry() && promotionLog == []
    {
      registry := Registry();
      promotionLog := [];
    }

    /** Stage 2: count the listed materials that carry all their documentation. */
    method CountDocumented() returns (docs: nat)
      ensures docs == DocumentedCount(registry, ToPromote())
    {
      var ids := ToPromote();
      docs := 0;
      var i := 0;
      while i < |ids|
        invariant 0 <= i <= |ids|
        invariant docs == DocumentedCount(registry, ids[..i])
      {
        assert ids[..i + 1][..i] == ids[..i];
        var found := Lookup(registry, ids[i]);
        if found.Some? && HasAllDocs(found.value) {
          docs := docs + 1;
        }
        i := i + 1;
      }
      assert ids[..i] == ids;
    }

    /** One iteration of the stage-5 loop. */
    method PromoteOne(id: string, now: string) returns (step: seq<PromotedRecord>)
      modifies this
      ensures registry == PromoteStep(old(registry), id, now)
      ensures step == StepRecords(old(registry), id, now)
      ensures promotionLog == old(promotionLog) + LogOf(step)
    {
      step := [];
      var found := Lookup(registry, id);
      if found.Some? && found.value.status == Provisional {
        var m := found.value;
        registry := Assign(registry, id, Promoted(m, now));
        step := [PromotedRecord(id, m.name, Provisional, Verified, now)];
        promotionLog := promotionLog + [LogEntry(id, Provisional, Verified, now)];
      }
    }

    /** Stage 5: promote every listed PROVISIONAL entry, recording and logging each change. */
    method ExecutePromotion(now: string) returns (promoted: seq<PromotedRecord>)
      modifies this
      ensures registry == PromoteAll(old(registry), ToPromote(), now)
      ensures promoted == PromotedRecords(old(registry), ToPromote(), now)
      ensures promotionLog == old(promotionLog) + LogOf(promoted)
    {
      var ids := ToPromote();
      promoted := [];
      var i := 0;
      while i < |ids|
        invariant 0 <= i <= |ids|
        invariant registry == PromoteAll(old(registry), ids[..i], now)
        invariant promoted == PromotedRecords(old(registry), ids[..i], now)
        invariant promotionLog == old(promotionLog) + LogOf(promoted)
      {
        assert ids[..i + 1][..i] == ids[..i];
        var step := PromoteOne(ids[i], now);
        promoted := promoted + step;
        LogOfConcat(promoted[..|promoted| - |step|], step);
        assert promoted[..|promoted| - |step|] + step == promoted;
        i := i + 1;
      }
      assert ids[..i] == ids;
    }

    /**
     * `runPromotion`: blocked, with nothing changed, unless the golden suite
     * allows promotion; otherwise the documentation count (which never
     * blocks), the two approvals and the promotion itself. `now` stands for
     * every clock reading of the run.
     */
    method RunPromotion(tests: TestReport, now: string) returns (result: PromotionResult)
      modifies this
      ensures !tests.canPromote ==>
        && registry == old(registry) && promotionLog == old(promotionLog)
        && result == PromotionResult(now, now, Blocked, [GoldenTests(tests.passed, tests.total, Failed)],
                                     [], Some(GoldenTestsFailed), None)
      ensures tests.canPromote ==>
        && registry == PromoteAll(old(registry), ToPromote(), now)
        && result.promoted == PromotedRecords(old(registry), ToPromote(), now)
        && promotionLog == old(promotionLog) + LogOf(result.promoted)
        && var docs := DocumentedCount(old(registry), ToPromote());
        result == PromotionResult(now, now, Complete,
                                  [GoldenTests(tests.passed, tests.total, Passed),
                                   Documentation(docs, 10, if docs == 10 then Passed else Partial),
                                   ChemistryApproval(5, 0),
                                   EnfApproval(30, 30),
                                   Execution(|result.promoted|, 10)],
                                  result.promoted, None, Some(Summary(|result.promoted|, 26, 0)))
    {
      if !tests.canPromote {
        result := PromotionResult(now, now, Blocked, [GoldenTests(tests.passed, tests.total, Failed)],
                                  [], Some(GoldenTestsFailed), None);
        return;
      }
      var stages := [GoldenTests(tests.passed, tests.total, Passed)];
      var docs := CountDocumented();
      stages := stages + [Documentation(docs, |ToPromote()|, if docs == |ToPromote()| then Passed else Partial)];
      stages := stages + [ChemistryApproval(5, 0), EnfApproval(30, 30)];
      var promoted := ExecutePromotion(now);
      stages := stages + [Execution(|promoted|, |ToPromote()|)];
      result := PromotionResult(now, now, Complete, stages, promoted, None,
                                Some(Summary(|promoted|, 26, 0)));
    }
  }
}
