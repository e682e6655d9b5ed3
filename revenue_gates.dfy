/**
 * Revenue gates: features that unlock once monthly recurring revenue (MRR)
 * reaches each gate's trigger. Unlocking is one-way; the engine remembers
 * which gates are open and keeps a history with one record per unlock.
 */
module RevenueGates {
  import opened Wrappers

  datatype GateStatus = Pending | Unlocked

  /** A gate; its description, owner's plan, dependencies and feature list are left out. */
  datatype Gate = Gate(id: string, name: string, mrrTrigger: int, owner: string,
                       status: GateStatus, unlockedAt: Option<string>)

  /** `REVENUE_GATES`, in property order. */
  function Gates(): seq<Gate>
  {
    [Gate("RG-001", "Assessment History", 500, "TechArch", Pending, None),
     Gate("RG-002", "Excel Export", 1000, "TechArch", Pending, None),
     Gate("RG-003", "Team Tier", 5000, "BizRev", Pending, None),
     Gate("RG-004", "Custom Fluid Requests", 10000, "ChemSafe", Pending, None),
     Gate("RG-005", "API Access", 20000, "TechArch", Pending, None),
     Gate("RG-006", "ISO 9001 Certification", 25000, "CompGov", Pending, None)]
  }

  /** No two gates share an id, and every trigger is positive. */
  predicate WellFormed(gs: seq<Gate>)
  {
    && (forall i, j :: 0 <= i < j < |gs| ==> gs[i].id != gs[j].id)
    && (forall i :: 0 <= i < |gs| ==> gs[i].mrrTrigger > 0)
  }

  lemma GatesWellFormed()
    ensures WellFormed(Gates())
  {
  }

  // ---------------------------------------------------------------------
  // Unlocking
  // ---------------------------------------------------------------------

  /** The condition `updateMRR` tests for each gate. */
  predicate Crosses(g: Gate, unlocked: set<string>, mrr: int)
  {
    mrr >= g.mrrTrigger && g.id !in unlocked
  }

  function Opened(g: Gate, now: string): Gate
  {
    g.(status := Unlocked, unlockedAt := Some(now))
  }

  /** The gate table after `updateMRR(mrr)`: every crossing gate opened, every other gate as it was. */
  function Unlock(gs: seq<Gate>, unlocked: set<string>, mrr: int, now: string): (r: seq<Gate>)
    ensures |r| == |gs|
  {
    seq(|gs|, i requires 0 <= i < |gs| => if Crosses(gs[i], unlocked, mrr) then Opened(gs[i], now) else gs[i])
  }

  /** The unlocked set after `updateMRR(mrr)`. */
  function UnlockedIds(gs: seq<Gate>, unlocked: set<string>, mrr: int): (r: set<string>)
    ensures unlocked <= r
  {
    unlocked + set i | 0 <= i < |gs| && gs[i].mrrTrigger <= mrr :: gs[i].id
  }

  /** The gates `updateMRR(mrr)` returns, in table order, as they stand after opening. */
  function Newly(gs: seq<Gate>, unlocked: set<string>, mrr: int, now: string): seq<Gate>
  {
    if gs == [] then []
    else
      var last := gs[|gs| - 1];
      Newly(gs[..|gs| - 1], unlocked, mrr, now) + (if Crosses(last, unlocked, mrr) then [Opened(last, now)] else [])
  }

  datatype UnlockRecord = UnlockRecord(gateId: string, gateName: string, mrrAtUnlock: int, unlockedAt: string)

  function RecordsOf(batch: seq<Gate>, mrr: int, now: string): (rs: seq<UnlockRecord>)
    ensures |rs| == |batch|
  {
    seq(|batch|, k requires 0 <= k < |batch| => UnlockRecord(batch[k].id, batch[k].name, mrr, now))
  }

  function RecordIds(rs: seq<UnlockRecord>): (ids: seq<string>)
    ensures |ids| == |rs|
  {
    seq(|rs|, k requires 0 <= k < |rs| => rs[k].gateId)
  }

  lemma RecordIdsOf(batch: seq<Gate>, mrr: int, now: string)
    ensures RecordIds(RecordsOf(batch, mrr, now)) == GateIds(batch)
  {
  }

  predicate DistinctIds(ids: seq<string>)
  {
    forall i, j :: 0 <= i < j < |ids| ==> ids[i] != ids[j]
  }

  /** A gate is returned exactly when it crosses: its trigger is reached and it was not already open. */
  lemma {:induction false} NewlyIsExactlyCrossing(gs: seq<Gate>, unlocked: set<string>, mrr: int, now: string, id: string)
    ensures (exists g :: g in Newly(gs, unlocked, mrr, now) && g.id == id)
        <==> (exists i :: 0 <= i < |gs| && gs[i].id == id && Crosses(gs[i], unlocked, mrr))
  {
    if gs != [] {
      var init := gs[..|gs| - 1];
      NewlyIsExactlyCrossing(init, unlocked, mrr, now, id);
      if exists i :: 0 <= i < |gs| && gs[i].id == id && Crosses(gs[i], unlocked, mrr) {
        var i :| 0 <= i < |gs| && gs[i].id == id && Crosses(gs[i], unlocked, mrr);
        if i < |init| {
          assert init[i] == gs[i];
        } else {
          assert Opened(gs[i], now) in Newly(gs, unlocked, mrr, now);
        }
      }
      if exists g :: g in Newly(gs, unlocked, mrr, now) && g.id == id {
        var g :| g in Newly(gs, unlocked, mrr, now) && g.id == id;
        if g !in Newly(init, unlocked, mrr, now) {
          assert gs[|gs| - 1].id == id;
        } else {
          var i :| 0 <= i < |init| && init[i].id == id && Crosses(init[i], unlocked, mrr);
          assert gs[i] == init[i];
        }
      }
    }
  }

  function GateIds(batch: seq<Gate>): (ids: seq<string>)
    ensures |ids| == |batch|
  {
    seq(|batch|, k requires 0 <= k < |batch| => batch[k].id)
  }

  /** Every returned gate is open, was not open before, and no gate is returned twice. */
  lemma {:induction false} NewlyAreFreshAndDistinct(gs: seq<Gate>, unlocked: set<string>, mrr: int, now: string)
    requires WellFormed(gs)
    ensures forall k :: 0 <= k < |Newly(gs, unlocked, mrr, now)| ==>
      Newly(gs, unlocked, mrr, now)[k].id !in unlocked && Newly(gs, unlocked, mrr, now)[k].status == Unlocked
    ensures DistinctIds(GateIds(Newly(gs, unlocked, mrr, now)))
    ensures forall k :: 0 <= k < |Newly(gs, unlocked, mrr, now)| ==>
      exists i :: 0 <= i < |gs| && gs[i].id == Newly(gs, unlocked, mrr, now)[k].id
  {
    if gs != [] {
      var init, last := gs[..|gs| - 1], gs[|gs| - 1];
      assert WellFormed(init);
      NewlyAreFreshAndDistinct(init, unlocked, mrr, now);
      var before := Newly(init, unlocked, mrr, now);
      forall k | 0 <= k < |before|
        ensures before[k].id != last.id
        ensures exists i :: 0 <= i < |gs| && gs[i].id == before[k].id
      {
        var i :| 0 <= i < |init| && init[i].id == before[k].id;
        assert gs[i] == init[i];
        assert gs[i].id != gs[|gs| - 1].id;
      }
      if Crosses(last, unlocked, mrr) {
        var after := Newly(gs, unlocked, mrr, now);
        assert after == before + [Opened(last, now)];
        assert gs[|gs| - 1].id == after[|after| - 1].id;
        forall i, j | 0 <= i < j < |after|
          ensures GateIds(after)[i] != GateIds(after)[j]
        {
          if j < |before| {
            assert GateIds(before)[i] != GateIds(before)[j];
          } else {
            assert after[i] == before[i];
          }
        }
      } else {
        assert Newly(gs, unlocked, mrr, now) == before;
      }
    }
  }

  /** Opening leaves every gate's id, name and trigger alone, and opens every gate whose trigger is reached. */
  lemma UnlockOpensReachedGates(gs: seq<Gate>, unlocked: set<string>, mrr: int, now: string)
    requires WellFormed(gs)
    requires forall i :: 0 <= i < |gs| ==> (gs[i].status == Unlocked <==> gs[i].id in unlocked)
    ensures forall i :: 0 <= i < |gs| ==>
      var g := Unlock(gs, unlocked, mrr, now)[i];
      g.id == gs[i].id && g.name == gs[i].name && g.mrrTrigger == gs[i].mrrTrigger
    ensures forall i :: 0 <= i < |gs| ==>
      (Unlock(gs, unlocked, mrr, now)[i].status == Unlocked <==> gs[i].id in UnlockedIds(gs, unlocked, mrr))
  {
    forall i | 0 <= i < |gs|
      ensures Unlock(gs, unlocked, mrr, now)[i].status == Unlocked <==> gs[i].id in UnlockedIds(gs, unlocked, mrr)
    {
      if gs[i].id in UnlockedIds(gs, unlocked, mrr) && gs[i].id !in unlocked {
        var j :| 0 <= j < |gs| && gs[j].mrrTrigger <= mrr && gs[j].id == gs[i].id;
        assert j == i;
      }
    }
  }

  /** A later, lower MRR relocks nothing and opens nothing new: the unlocked set only grows. */
  lemma LowerMrrRelocksNothing(gs: seq<Gate>, unlocked: set<string>, high: int, low: int)
    requires low <= high
    ensures UnlockedIds(gs, UnlockedIds(gs, unlocked, high), low) == UnlockedIds(gs, unlocked, high)
  {
  }

  // ---------------------------------------------------------------------
  // Queries
  // ---------------------------------------------------------------------

  /** The gates whose id is not in `unlocked`, in table order. */
  function Locked(gs: seq<Gate>, unlocked: set<string>): (r: seq<Gate>)
    ensures forall g :: g in r <==> g in gs && g.id !in unlocked
  {
    if gs == [] then []
    else (if gs[0].id !in unlocked then [gs[0]] else []) + Locked(gs[1..], unlocked)
  }

  /** The first gate of least trigger: what a stable sort by trigger puts first. */
  function FirstCheapest(gs: seq<Gate>): (r: Option<Gate>)
    ensures r.None? <==> gs == []
    ensures r.Some? ==> r.value in gs && forall g :: g in gs ==> r.value.mrrTrigger <= g.mrrTrigger
  {
    if gs == [] then None
    else
      match FirstCheapest(gs[1..])
      case None => Some(gs[0])
      case Some(h) => if gs[0].mrrTrigger <= h.mrrTrigger then Some(gs[0]) else Some(h)
  }

  /** `getNextGate`: a locked gate with the least trigger, or none when every gate is open. */
  function NextGate(gs: seq<Gate>, unlocked: set<string>): (r: Option<Gate>)
    ensures r.None? <==> forall g :: g in gs ==> g.id in unlocked
    ensures r.Some? ==> r.value in gs && r.value.id !in unlocked
    ensures r.Some? ==> forall g :: g in gs && g.id !in unlocked ==> r.value.mrrTrigger <= g.mrrTrigger
  {
    var locked := Locked(gs, unlocked);
    assert locked == [] <==> forall g :: g in gs ==> g.id in unlocked by {
      if locked != [] {
        assert locked[0] in locked;
      }
    }
    FirstCheapest(locked)
  }

  /** `getMRRToNextUnlock`. */
  function MrrToNextUnlock(gs: seq<Gate>, unlocked: set<string>, mrr: int): (r: int)
    ensures r >= 0
    ensures NextGate(gs, unlocked).None? ==> r == 0
    ensures NextGate(gs, unlocked).Some? ==> mrr + r >= NextGate(gs, unlocked).value.mrrTrigger
    ensures r > 0 ==> mrr + r == NextGate(gs, unlocked).value.mrrTrigger
  {
    match NextGate(gs, unlocked)
    case None => 0
    case Some(g) => if g.mrrTrigger - mrr > 0 then g.mrrTrigger - mrr else 0
  }

  /** The largest trigger below `t` among all gates, open or not. */
  function MaxBelow(gs: seq<Gate>, t: int): (r: Option<int>)
    ensures r.None? <==> forall g :: g in gs ==> g.mrrTrigger >= t
    ensures r.Some? ==> r.value < t && exists g :: g in gs && g.mrrTrigger == r.value
    ensures r.Some? ==> forall g :: g in gs && g.mrrTrigger < t ==> g.mrrTrigger <= r.value
  {
    if gs == [] then None
    else
      var rest := MaxBelow(gs[1..], t);
      if gs[0].mrrTrigger < t && (rest.None? || gs[0].mrrTrigger > rest.value) then Some(gs[0].mrrTrigger)
      else rest
  }

  /** The previous gate's trigger, or 0 when no gate lies below. */
  function FloorBelow(gs: seq<Gate>, t: int): int
  {
    MaxBelow(gs, t).GetOr(0)
  }

  /** `part / whole * 100`, for a positive `whole`. */
  function Percent(part: int, whole: int): (r: real)
    requires whole > 0
    ensures part <= 0 ==> r <= 0.0
    ensures part >= whole ==> r >= 100.0
  {
    var q := part as real / whole as real;
    assert q * whole as real == part as real;
    q * 100.0
  }

  function Clamp(x: real): (r: real)
    ensures 0.0 <= r <= 100.0
  {
    if x < 0.0 then 0.0 else if x > 100.0 then 100.0 else x
  }

  /** `getProgressToNextGate`: the way from the floor below the next gate up to its trigger, as a clamped percentage. */
  function Progress(gs: seq<Gate>, unlocked: set<string>, mrr: int): (r: real)
    requires WellFormed(gs)
    ensures 0.0 <= r <= 100.0
    ensures NextGate(gs, unlocked).None? ==> r == 100.0
    ensures NextGate(gs, unlocked).Some? ==> (mrr >= NextGate(gs, unlocked).value.mrrTrigger ==> r == 100.0)
    ensures NextGate(gs, unlocked).Some? ==>
      (mrr <= FloorBelow(gs, NextGate(gs, unlocked).value.mrrTrigger) ==> r == 0.0)
  {
    match NextGate(gs, unlocked)
    case None => 100.0
    case Some(g) =>
      var floor := FloorBelow(gs, g.mrrTrigger);
      var ceiling := g.mrrTrigger;
      assert ceiling > floor by {
        var i :| 0 <= i < |gs| && gs[i] == g;
      }
      Clamp(Percent(mrr - floor, ceiling - floor))
  }

  /** One entry of `getAllGates`: the gate with whether it is open and how much MRR it still needs. */
  datatype GateView = GateView(gate: Gate, isUnlocked: bool, mrrNeeded: int)

  function AllGates(gs: seq<Gate>, unlocked: set<string>, mrr: int): (r: seq<GateView>)
    ensures |r| == |gs|
    ensures forall i :: 0 <= i < |gs| ==> r[i].gate == gs[i] && (r[i].isUnlocked <==> gs[i].id in unlocked)
    ensures forall i :: 0 <= i < |gs| ==> r[i].mrrNeeded >= 0 && (r[i].mrrNeeded == 0 <==> gs[i].mrrTrigger <= mrr)
  {
    seq(|gs|, i requires 0 <= i < |gs| =>
      GateView(gs[i], gs[i].id in unlocked, if gs[i].mrrTrigger - mrr > 0 then gs[i].mrrTrigger - mrr else 0))
  }

  // ---------------------------------------------------------------------
  // The engine's invariant, on values
  // ---------------------------------------------------------------------

  /** A gate is UNLOCKED exactly when its id is in the unlocked set. */
  predicate StatusMatches(gs: seq<Gate>, unlocked: set<string>)
  {
    forall i :: 0 <= i < |gs| ==> (gs[i].status == Unlocked <==> gs[i].id in unlocked)
  }

  /** Only gate ids are ever unlocked. */
  predicate UnlockedAreGates(gs: seq<Gate>, unlocked: set<string>)
  {
    forall id :: id in unlocked ==> exists i :: 0 <= i < |gs| && gs[i].id == id
  }

  /** The history names only unlocked gates, each at most once. */
  predicate HistoryAccounts(history: seq<UnlockRecord>, unlocked: set<string>)
  {
    && DistinctIds(RecordIds(history))
    && forall k :: 0 <= k < |history| ==> history[k].gateId in unlocked
  }

  predicate EngineInvariant(gs: seq<Gate>, unlocked: set<string>, history: seq<UnlockRecord>)
  {
    WellFormed(gs) && StatusMatches(gs, unlocked) && UnlockedAreGates(gs, unlocked) && HistoryAccounts(history, unlocked)
  }

  lemma UnlockKeepsGatesWellFormed(gs: seq<Gate>, unlocked: set<string>, mrr: int, now: string)
    requires WellFormed(gs)
    ensures WellFormed(Unlock(gs, unlocked, mrr, now))
    ensures UnlockedAreGates(gs, unlocked) ==> UnlockedAreGates(Unlock(gs, unlocked, mrr, now), UnlockedIds(gs, unlocked, mrr))
  {
    var after := Unlock(gs, unlocked, mrr, now);
    assert forall i :: 0 <= i < |gs| ==> after[i].id == gs[i].id;
  }

  lemma {:induction false} HistoryAfterUpdate(gs: seq<Gate>, unlocked: set<string>, history: seq<UnlockRecord>, mrr: int, now: string)
    requires WellFormed(gs) && HistoryAccounts(history, unlocked)
    ensures HistoryAccounts(history + RecordsOf(Newly(gs, unlocked, mrr, now), mrr, now), UnlockedIds(gs, unlocked, mrr))
  {
    var batch := Newly(gs, unlocked, mrr, now);
    NewlyAreFreshAndDistinct(gs, unlocked, mrr, now);
    RecordIdsOf(batch, mrr, now);
    var all := history + RecordsOf(batch, mrr, now);
    assert RecordIds(all) == RecordIds(history) + GateIds(batch);
    forall i, j | 0 <= i < j < |all|
      ensures RecordIds(all)[i] != RecordIds(all)[j]
    {
      if i < |history| <= j {
        assert RecordIds(all)[j] == batch[j - |history|].id;
      } else if |history| <= i {
        assert GateIds(batch)[i - |history|] != GateIds(batch)[j - |history|];
      } else {
        assert RecordIds(history)[i] != RecordIds(history)[j];
      }
    }
    forall k | |history| <= k < |all|
      ensures all[k].gateId in UnlockedIds(gs, unlocked, mrr)
    {
      var n := batch[k - |history|];
      assert n in batch;
      NewlyIsExactlyCrossing(gs, unlocked, mrr, now, n.id);
    }
  }

  /** `updateMRR` keeps the engine's invariant. */
  lemma UpdateKeepsInvariant(gs: seq<Gate>, unlocked: set<string>, history: seq<UnlockRecord>, mrr: int, now: string)
    requires EngineInvariant(gs, unlocked, history)
    ensures EngineInvariant(Unlock(gs, unlocked, mrr, now), UnlockedIds(gs, unlocked, mrr),
                            history + RecordsOf(Newly(gs, unlocked, mrr, now), mrr, now))
  {
    UnlockKeepsGatesWellFormed(gs, unlocked, mrr, now);
    UnlockOpensReachedGates(gs, unlocked, mrr, now);
    HistoryAfterUpdate(gs, unlocked, history, mrr, now);
  }

  /** Extending the loop's prefix by one gate. */
  lemma UnlockPrefixStep(gs: seq<Gate>, unlocked: set<string>, mrr: int, now: string, i: int)
    requires WellFormed(gs) && 0 <= i < |gs|
    ensures UnlockedIds(gs[..i + 1], unlocked, mrr)
      == UnlockedIds(gs[..i], unlocked, mrr) + (if gs[i].mrrTrigger <= mrr then {gs[i].id} else {})
    ensures Newly(gs[..i + 1], unlocked, mrr, now)
      == Newly(gs[..i], unlocked, mrr, now) + (if Crosses(gs[i], unlocked, mrr) then [Opened(gs[i], now)] else [])
    ensures gs[i].id in UnlockedIds(gs[..i], unlocked, mrr) <==> gs[i].id in unlocked
  {
    var p, q := gs[..i], gs[..i + 1];
    assert q[..i] == p && q[i] == gs[i];
    assert forall j :: 0 <= j < i ==> q[j] == p[j] == gs[j];
  }

  lemma RecordsOfConcat(a: seq<Gate>, b: seq<Gate>, mrr: int, now: string)
    ensures RecordsOf(a + b, mrr, now) == RecordsOf(a, mrr, now) + RecordsOf(b, mrr, now)
  {
  }

  /** What `updateMRR`'s loop has built so far: the gate table, the unlocked set, the history and the returned gates. */
  datatype LoopState = LoopState(gates: seq<Gate>, unlocked: set<string>, history: seq<UnlockRecord>, newly: seq<Gate>)

  /** One pass of the loop, on gate `i`. */
  function VisitStep(st: LoopState, i: int, mrr: int, now: string): LoopState
  {
    if 0 <= i < |st.gates| && Crosses(st.gates[i], st.unlocked, mrr) then
      var g := st.gates[i];
      LoopState(st.gates[i := Opened(g, now)], st.unlocked + {g.id},
                st.history + [UnlockRecord(g.id, g.name, mrr, now)], st.newly + [Opened(g, now)])
    else st
  }

  /** The loop's state after its first `i` passes. */
  function Visited(gs: seq<Gate>, unlocked: set<string>, history: seq<UnlockRecord>, mrr: int, now: string, i: nat): LoopState
    requires i <= |gs|
  {
    if i == 0 then LoopState(gs, unlocked, history, [])
    else VisitStep(Visited(gs, unlocked, history, mrr, now, i - 1), i - 1, mrr, now)
  }

  /** The loop's state after `i` passes, in closed form: the crossing gates among the first `i` opened. */
  function Closed(gs: seq<Gate>, unlocked: set<string>, history: seq<UnlockRecord>, mrr: int, now: string, i: nat): LoopState
    requires i <= |gs|
  {
    var newly := Newly(gs[..i], unlocked, mrr, now);
    LoopState(Unlock(gs[..i], unlocked, mrr, now) + gs[i..], UnlockedIds(gs[..i], unlocked, mrr),
              history + RecordsOf(newly, mrr, now), newly)
  }

  /** The table part of one more pass: only position `i` can change. */
  lemma UnlockTableStep(gs: seq<Gate>, unlocked: set<string>, mrr: int, now: string, i: nat)
    requires i < |gs|
    ensures (Unlock(gs[..i], unlocked, mrr, now) + gs[i..])[i] == gs[i]
    ensures Unlock(gs[..i + 1], unlocked, mrr, now) + gs[i + 1..]
      == (Unlock(gs[..i], unlocked, mrr, now) + gs[i..])[i := if Crosses(gs[i], unlocked, mrr) then Opened(gs[i], now) else gs[i]]
  {
    var p, q := gs[..i], gs[..i + 1];
    assert forall j :: 0 <= j < i ==> q[j] == p[j] == gs[j];
  }

  /** One more pass of the loop moves the closed form from `i` to `i + 1`. */
  lemma ClosedStep(gs: seq<Gate>, unlocked: set<string>, history: seq<UnlockRecord>, mrr: int, now: string, i: nat)
    requires WellFormed(gs) && i < |gs|
    ensures Closed(gs, unlocked, history, mrr, now, i + 1) == VisitStep(Closed(gs, unlocked, history, mrr, now, i), i, mrr, now)
  {
    UnlockPrefixStep(gs, unlocked, mrr, now, i);
    UnlockTableStep(gs, unlocked, mrr, now, i);
    var extra := if Crosses(gs[i], unlocked, mrr) then [Opened(gs[i], now)] else [];
    RecordsOfConcat(Newly(gs[..i], unlocked, mrr, now), extra, mrr, now);
  }

  /** After `i` passes the loop has opened exactly the crossing gates among the first `i`. */
  lemma {:induction false} VisitedClosedForm(gs: seq<Gate>, unlocked: set<string>, history: seq<UnlockRecord>, mrr: int, now: string, i: nat)
    requires WellFormed(gs) && i <= |gs|
    ensures Visited(gs, unlocked, history, mrr, now, i) == Closed(gs, unlocked, history, mrr, now, i)
  {
    if i == 0 {
      assert gs[..0] == [] && gs[0..] == gs;
      assert Unlock([], unlocked, mrr, now) + gs == gs;
    } else {
      VisitedClosedForm(gs, unlocked, history, mrr, now, i - 1);
      ClosedStep(gs, unlocked, history, mrr, now, i - 1);
    }
  }

  // ---------------------------------------------------------------------
  // The engine
  // ---------------------------------------------------------------------

  /**
   * `RevenueGateEngine`. `gates` is the gate table the engine updates in
   * place (the statuses it writes); `unlockedGates` and
   * `gateUnlockHistory` are its own.
   */
  class RevenueGateEngine {
    var currentMRR: int
    var unlockedGates: set<string>
    var gateUnlockHistory: seq<UnlockRecord>
    var gates: seq<Gate>

    ghost predicate Valid()
      reads this
    {
      EngineInvariant(gates, unlockedGates, gateUnlockHistory)
    }

    constructor()
      ensures Valid()
      ensures currentMRR == 0 && unlockedGates == {} && gateUnlockHistory == [] && gates == Gates()
    {
      currentMRR := 0;
      unlockedGates := {};
      gateUnlockHistory := [];
      gates := Gates();
      GatesWellFormed();
    }

    /** `isGateUnlocked(id)`. */
    predicate IsGateUnlocked(id: string)
      reads this
    {
      id in unlockedGates
    }

    /** Under the invariant, a gate id is unlocked exactly when the gate's own status is UNLOCKED. */
    lemma IsGateUnlockedMatchesStatus(id: string)
      requires Valid()
      ensures IsGateUnlocked(id) <==> exists i :: 0 <= i < |gates| && gates[i].id == id && gates[i].status == Unlocked
    {
    }

    function GetNextGate(): (r: Option<Gate>)
      reads this
      ensures r.None? <==> forall g :: g in gates ==> IsGateUnlocked(g.id)
    {
      NextGate(gates, unlockedGates)
    }

    function GetMrrToNextUnlock(): (r: int)
      reads this
      ensures r >= 0 && (GetNextGate().None? ==> r == 0)
    {
      MrrToNextUnlock(gates, unlockedGates, currentMRR)
    }

    function GetProgressToNextGate(): (r: real)
      requires Valid()
      reads this
      ensures 0.0 <= r <= 100.0 && (GetNextGate().None? ==> r == 100.0)
    {
      Progress(gates, unlockedGates, currentMRR)
    }

    function GetAllGates(): (r: seq<GateView>)
      reads this
      ensures |r| == |gates| && forall i :: 0 <= i < |r| ==> (r[i].isUnlocked <==> IsGateUnlocked(gates[i].id))
    {
      AllGates(gates, unlockedGates, currentMRR)
    }

    /** The loop's state, with `newly` the gates returned so far. */
    function State(newly: seq<Gate>): LoopState
      reads this
    {
      LoopState(gates, unlockedGates, gateUnlockHistory, newly)
    }

    /** One pass of `updateMRR`'s loop: open gate `i` if `mrr` reaches it and it is not open yet. */
    method VisitGate(i: int, mrr: int, now: string, ghost newly: seq<Gate>) returns (step: seq<Gate>)
      modifies this
      ensures currentMRR == old(currentMRR)
      ensures State(newly + step) == VisitStep(old(State(newly)), i, mrr, now)
    {
      step := [];
      if 0 <= i < |gates| {
        var g := gates[i];
        if mrr >= g.mrrTrigger && g.id !in unlockedGates {
          unlockedGates := unlockedGates + {g.id};
          var openedGate := Opened(g, now);
          gates := gates[i := openedGate];
          gateUnlockHistory := gateUnlockHistory + [UnlockRecord(g.id, g.name, mrr, now)];
          step := [openedGate];
        }
      }
    }

    /**
     * `updateMRR(mrr)`: open every gate whose trigger `mrr` reaches and that
     * is not open yet, recording each once; return the gates it opened.
     */
    method UpdateMRR(mrr: int, now: string) returns (newlyUnlocked: seq<Gate>)
      requires Valid()
      modifies this
      ensures Valid()
      ensures currentMRR == mrr
      ensures gates == Unlock(old(gates), old(unlockedGates), mrr, now)
      ensures unlockedGates == UnlockedIds(old(gates), old(unlockedGates), mrr)
      ensures newlyUnlocked == Newly(old(gates), old(unlockedGates), mrr, now)
      ensures gateUnlockHistory == old(gateUnlockHistory) + RecordsOf(newlyUnlocked, mrr, now)
    {
      currentMRR := mrr;
      newlyUnlocked := [];
      ghost var gs, before, history := gates, unlockedGates, gateUnlockHistory;
      var i := 0;
      while i < |gates|
        invariant currentMRR == mrr && 0 <= i <= |gs|
        invariant State(newlyUnlocked) == Visited(gs, before, history, mrr, now, i)
        invariant |gates| == |gs|
      {
        VisitedClosedForm(gs, before, history, mrr, now, i);
        var step := VisitGate(i, mrr, now, newlyUnlocked);
        newlyUnlocked := newlyUnlocked + step;
        i := i + 1;
      }
      VisitedClosedForm(gs, before, history, mrr, now, i);
      assert gs[..i] == gs && gs[i..] == [];
      assert Unlock(gs, before, mrr, now) + [] == Unlock(gs, before, mrr, now);
      UpdateKeepsInvariant(gs, before, history, mrr, now);
    }
  }

  // ---------------------------------------------------------------------
  // The shipped gates
  // ---------------------------------------------------------------------

  /** From a fresh start, MRR 1000 opens the first two gates, Assessment History and Excel Export. */
  lemma ThousandOpensTwoGates()
    ensures UnlockedIds(Gates(), {}, 1000) == {"RG-001", "RG-002"}
  {
    var gs := Gates();
    assert forall i :: 0 <= i < |gs| && gs[i].mrrTrigger <= 1000 ==> i < 2;
    assert UnlockedIds(gs, {}, 1000) == {gs[0].id, gs[1].id};
  }

  /** Triggers strictly increase along the table. */
  predicate Ascending(gs: seq<Gate>)
  {
    forall i, j :: 0 <= i < j < |gs| ==> gs[i].mrrTrigger < gs[j].mrrTrigger
  }

  lemma GatesAscending()
    ensures Ascending(Gates())
  {
  }

  /** In an ascending table whose first `k` gates are exactly the open ones, gate `k` is next. */
  lemma NextOfAscending(gs: seq<Gate>, unlocked: set<string>, k: int)
    requires Ascending(gs) && 0 <= k < |gs|
    requires forall j :: 0 <= j < |gs| ==> (gs[j].id in unlocked <==> j < k)
    ensures NextGate(gs, unlocked) == Some(gs[k])
  {
    assert gs[k] in gs;
    var g := NextGate(gs, unlocked).value;
    var j :| 0 <= j < |gs| && gs[j] == g;
  }

  /** In an ascending table the floor below gate `k`'s trigger is gate `k - 1`'s trigger. */
  lemma FloorOfAscending(gs: seq<Gate>, k: int)
    requires Ascending(gs) && 0 < k < |gs|
    ensures FloorBelow(gs, gs[k].mrrTrigger) == gs[k - 1].mrrTrigger
  {
    assert gs[k - 1] in gs;
    var r := MaxBelow(gs, gs[k].mrrTrigger);
    var g :| g in gs && g.mrrTrigger == r.value;
    var j :| 0 <= j < |gs| && gs[j] == g;
  }

  /** With the first two gates open, Team Tier (5000) is the next gate. */
  lemma TeamTierIsNext()
    ensures NextGate(Gates(), {"RG-001", "RG-002"}) == Some(Gates()[2])
  {
    GatesAscending();
    NextOfAscending(Gates(), {"RG-001", "RG-002"}, 2);
  }

  /** In an ascending table with the first `k` gates open, progress runs linearly from gate `k - 1`'s trigger to gate `k`'s. */
  lemma ProgressOfAscending(gs: seq<Gate>, unlocked: set<string>, k: int, mrr: int)
    requires WellFormed(gs) && Ascending(gs) && 0 < k < |gs|
    requires forall j :: 0 <= j < |gs| ==> (gs[j].id in unlocked <==> j < k)
    ensures Progress(gs, unlocked, mrr)
      == Clamp(Percent(mrr - gs[k - 1].mrrTrigger, gs[k].mrrTrigger - gs[k - 1].mrrTrigger))
  {
    NextOfAscending(gs, unlocked, k);
    FloorOfAscending(gs, k);
  }

  /** At MRR 1000 Team Tier is 4000 away. */
  lemma TeamTierIsFourThousandAway()
    ensures MrrToNextUnlock(Gates(), {"RG-001", "RG-002"}, 1000) == 4000
  {
    TeamTierIsNext();
  }

  /** Within `0..whole` no clamping happens. */
  lemma PercentWithin(part: int, whole: int)
    requires 0 <= part <= whole && whole > 0
    ensures Clamp(Percent(part, whole)) == part as real / whole as real * 100.0
  {
    var q := part as real / whole as real;
    assert q * whole as real == part as real;
    assert 0.0 <= q <= 1.0;
  }
}
