/** Between hold and restoration: the archives and the release go on record, and
    the first grant is tried out.  From here on the run is a restoration with no
    step done. */
module Launch {
  import opened Common
  import opened RestorePlan
  import opened ServiceWorld
  import opened Records
  import opened Grants
  import opened Inspector
  import opened Progress
  import opened Tracking
  import opened Stages
  import opened Hold
  import Barrier

  /** What for_simulation admits: services and archives of participants only, and a
      release proof that carries the plan. */
  predicate Admissible(ev: Evidence) {
    && ev.proof.plan == ev.plan
    && (forall spot | spot in ev.base :: IsNode(ev.plan, spot.node))
    && (forall node | node in ev.archives :: IsNode(ev.plan, node))
  }

  function FirstSpot(plan: Plan): Spot
    requires |plan.participants| > 0 && |plan.table.phases| > 0 && |plan.table.phases[0]| > 0
  {
    Spot(plan.participants[0].node, plan.table.phases[0][0])
  }

  /** The request the run tries the validator on before anything is released: the
      UNMASK of the first unit on the first node. */
  function FirstRequest(ev: Evidence): Request
    requires |ev.plan.participants| > 0 && |ev.plan.table.phases| > 0 && |ev.plan.table.phases[0]| > 0
  {
    RequestOf(ev.plan, BaselineOf(ev), ev.proof, Step(FirstSpot(ev.plan), UNMASK))
  }

  /** When a run can complete: sound evidence, and a first unit that was not masked
      in the baseline.  The last part is no requirement on restorations as such; it
      comes from the trial evaluation, which asks for that UNMASK whether the
      baseline wants it or not. */
  predicate CanComplete(ev: Evidence) {
    EvidenceOk(ev) && FirstSpot(ev.plan) in ev.base && !ev.base[FirstSpot(ev.plan)].masked
  }

  lemma {:induction false} FirstSpotKnown(ev: Evidence)
    requires ValidPlan(ev.plan, ev.now) && ValidServices(ev.plan, ev.base, true)
    ensures |ev.plan.participants| > 0 && |ev.plan.table.phases| > 0 && |ev.plan.table.phases[0]| > 0
    ensures FirstSpot(ev.plan) in ev.base && FirstSpot(ev.plan).unit in Targets(ev.plan.table)
    ensures FirstSpot(ev.plan).unit in BarrierMasks(ev.plan.table)
  {
    hide ValidServices, Units;
    assert ev.plan.table.phases[0][0] in Targets(ev.plan.table);
    BaseKeys(ev);
    EntryUnitKnown(ev.plan, ev.base, 0, ev.plan.table.phases[0][0]);
  }

  lemma {:induction false} FirstPhaseIsFirst(t: Table)
    requires ValidTable(t)
    ensures PhaseOf(t, t.phases[0][0]) == 0
  {
    assert PhaseUnits(t, 0)[0] == t.phases[0][0];
    assert t.phases[0][0] in PhaseUnits(t, 0);
  }

  /** The trial evaluation passes exactly when the run can complete. */
  lemma {:induction false} TrialPasses(ev: Evidence)
    requires Admissible(ev) && ValidPlan(ev.plan, ev.now) && ValidServices(ev.plan, ev.base, true)
    requires ev.held == Held(ev.plan, ev.base) && FirstSpot(ev.plan) in ev.heldSources
    ensures FirstSpot(ev.plan) in ev.held
    ensures var first := FirstSpot(ev.plan);
            Evaluate(ev, Snapshot(ev.held, ev.heldSources), FirstRequest(ev), AfterPackage(ev.plan, first.node),
                     UnitState(ev.held[first], ev.heldSources[first])).Some?
            <==> CanComplete(ev)
  {
    hide ValidPlan, ValidServices, ValidSources, SourcesPreserved, ReleaseGate, EarlierPhasesRestored, Predecessor;
    hide Steps, Targets, BarrierMasks, PackageFrom, BootFrom;
    FirstSpotKnown(ev);
    HeldWorld(ev);
    FirstRequestParts(ev);
  }

  lemma {:induction false} FirstRequestParts(ev: Evidence)
    requires ValidPlan(ev.plan, ev.now)
    ensures StepOf(FirstRequest(ev)) == Step(FirstSpot(ev.plan), UNMASK)
    ensures FirstRequest(ev).node == FirstSpot(ev.plan).node && FirstRequest(ev).unit == FirstSpot(ev.plan).unit
    ensures FirstRequest(ev).op == UNMASK
  {}

  /** The held world, as the validator sees it for the first request. */
  lemma {:induction false} HeldWorld(ev: Evidence)
    requires ValidPlan(ev.plan, ev.now) && ValidServices(ev.plan, ev.base, true)
    requires ev.held == Held(ev.plan, ev.base)
    ensures ValidServices(ev.plan, ev.held, false) && ReleaseGate(ev.plan, ev.base, ev.held)
    ensures EarlierPhasesRestored(ev.plan, ev.base, ev.held, FirstSpot(ev.plan).unit)
    ensures FirstSpot(ev.plan) in ev.base && FirstSpot(ev.plan) in ev.held
    ensures Predecessor(ev.plan.table, ev.base[FirstSpot(ev.plan)], ev.held[FirstSpot(ev.plan)], FirstSpot(ev.plan).unit, UNMASK)
  {
    hide ValidServices, Steps, ReleaseGate;
    NothingDone(ev.plan, ev.base);
    WorldValid(ev.plan, ev.base, ev.now, 0);
    GateHolds(ev.plan, ev.base, ev.now, 0);
    FirstPhaseIsFirst(ev.plan.table);
    FirstSpotKnown(ev);
    assert FirstSpot(ev.plan).unit != ev.plan.table.guests;
  }

  lemma {:induction false} NothingDone(plan: Plan, base: Services)
    ensures WorldAt(plan, base, 0) == Held(plan, base)
  {
    hide Steps;
  }

  // ----- the journal between hold and release -----

  /** As left by the hold, with the archives of the first r participants. */
  ghost predicate ReleaseJournal(ev: Evidence, j: Journal, r: nat) {
    && r <= |ev.plan.participants|
    && Lookup(j, Slot(Coordinator, Started)) == Some(VStarted(ev.plan, ev.closure))
    && Lookup(j, Slot(Coordinator, BaselineKey)) == Some(VBaseline(BaselineOf(ev)))
    && Lookup(j, Slot(Coordinator, HeldKey)) == Some(VHeld)
    && BarrierTraceComplete(ev.plan, j)
    && (forall i | 0 <= i < r :: NodeArchived(ev, j, i))
    && (forall slot | slot in j ::
          && slot.owner == Coordinator && !StepRecord(slot.key) && slot.key != ReleaseKey && slot.key != CompleteKey
          && (slot.key.ArchiveKey? ==> exists i | 0 <= i < r :: ev.plan.participants[i].node == slot.key.node))
  }

  predicate NodeArchived(ev: Evidence, j: Journal, i: nat)
    requires i < |ev.plan.participants|
  {
    ev.plan.participants[i].node in ev.archives ==> ArchivedAt(ev, j, ev.plan.participants[i].node)
  }

  predicate ArchivedAt(ev: Evidence, j: Journal, node: string)
    requires node in ev.archives
  {
    && Lookup(j, Slot(Coordinator, ArchiveKey(node, false))) == Some(VArchive(ev.archives[node].0))
    && Lookup(j, Slot(Coordinator, ArchiveKey(node, true))) == Some(VArchive(ev.archives[node].1))
  }

  lemma {:induction false} HeldGoesIn(ev: Evidence, j: Journal)
    requires HoldJournal(ev, j, 9 * |ev.plan.participants|)
    ensures Slot(Coordinator, HeldKey) !in j
    ensures ReleaseJournal(ev, j[Slot(Coordinator, HeldKey) := VHeld], 0)
  {
    hide Barrier.RowOk;
    var j' := j[Slot(Coordinator, HeldKey) := VHeld];
    assert |Barrier.Actions(ev.plan)| == 3 * |ev.plan.participants|;
    assert HoldJournal(ev, j, 3 * |Barrier.Actions(ev.plan)|);
    HoldIsComplete(ev, j);
    BarrierTraceStays(ev, j, Slot(Coordinator, HeldKey), VHeld);
  }

  lemma {:induction false} BarrierTraceStays(ev: Evidence, j: Journal, slot: Slot, v: Value)
    requires BarrierTraceComplete(ev.plan, j) && !slot.key.BarrierKey?
    ensures BarrierTraceComplete(ev.plan, j[slot := v])
  {
    SameBarrierTrace(ev, j, j[slot := v]);
  }

  lemma {:induction false} SameBarrierTrace(ev: Evidence, j: Journal, j': Journal)
    requires BarrierTraceComplete(ev.plan, j)
    requires forall i, kind :: Lookup(j', BarrierSlot(i, kind)) == Lookup(j, BarrierSlot(i, kind))
    ensures BarrierTraceComplete(ev.plan, j')
  {
    hide Barrier.RowOk, Barrier.Actions;
    forall i, k | 0 <= i < |Barrier.Actions(ev.plan)| && 0 <= k < 3 ensures BarrierRowOnRecord(ev.plan, j', i, k) {
      assert BarrierRowOnRecord(ev.plan, j, i, k);
    }
  }

  /** One node's two archive records go in. */
  lemma {:induction false} ArchiveGoesIn(ev: Evidence, j: Journal, r: nat)
    requires ValidPlan(ev.plan, ev.now) && ReleaseJournal(ev, j, r) && r < |ev.plan.participants|
    requires ev.plan.participants[r].node in ev.archives
    ensures var node := ev.plan.participants[r].node;
            var a, b := Slot(Coordinator, ArchiveKey(node, false)), Slot(Coordinator, ArchiveKey(node, true));
            && a !in j && b !in j && a != b
            && ReleaseJournal(ev, j[a := VArchive(ev.archives[node].0)][b := VArchive(ev.archives[node].1)], r + 1)
  {
    hide BarrierTraceComplete, ValidTable;
    var node := ev.plan.participants[r].node;
    var a, b := Slot(Coordinator, ArchiveKey(node, false)), Slot(Coordinator, ArchiveKey(node, true));
    var va, vb := VArchive(ev.archives[node].0), VArchive(ev.archives[node].1);
    var j' := j[a := va][b := vb];
    BarrierTraceStays(ev, j, a, va);
    BarrierTraceStays(ev, j[a := va], b, vb);
    OneMoreArchived(ev, j, j', r);
  }

  lemma {:induction false} OneMoreArchived(ev: Evidence, j: Journal, j': Journal, r: nat)
    requires r < |ev.plan.participants| && NodeArchived(ev, j', r)
    requires forall i | 0 <= i < r :: NodeArchived(ev, j, i) && ev.plan.participants[i].node != ev.plan.participants[r].node
    requires forall slot: Slot | slot in j && !(slot.key.ArchiveKey? && slot.key.node == ev.plan.participants[r].node) ::
               Lookup(j', slot) == Lookup(j, slot)
    ensures forall i | 0 <= i < r + 1 :: NodeArchived(ev, j', i)
  {
    forall i | 0 <= i < r + 1 ensures NodeArchived(ev, j', i) {
      if i < r { assert NodeArchived(ev, j, i); }
    }
  }

  lemma {:induction false} NoArchiveNeeded(ev: Evidence, j: Journal, r: nat)
    requires ReleaseJournal(ev, j, r) && r < |ev.plan.participants| && ev.plan.participants[r].node !in ev.archives
    ensures ReleaseJournal(ev, j, r + 1)
  {
    hide BarrierTraceComplete;
  }

  /** The release goes in, and the run is a restoration with nothing done. */
  lemma {:induction false} ReleaseGoesIn(ev: Evidence, j: Journal)
    requires EvidenceOk(ev) && Admissible(ev) && ReleaseJournal(ev, j, |ev.plan.participants|)
    ensures Slot(Coordinator, ReleaseKey) !in j
    ensures var j' := j[Slot(Coordinator, ReleaseKey) := VRelease(ev.proof)];
            AtStage(ev, World(j', ev.held, ev.heldSources, []), 0, 0, false)
  {
    hide BarrierTraceComplete, ValidPlan, ValidServices, ValidSources, SourcesPreserved, Steps, StepComplete, Held, ValueOk;
    var slot := Slot(Coordinator, ReleaseKey);
    var j' := j[slot := VRelease(ev.proof)];
    BarrierTraceStays(ev, j, slot, VRelease(ev.proof));
    forall node | node in ev.archives ensures ArchivedAt(ev, j', node) {
      var r :| 0 <= r < |ev.plan.participants| && ev.plan.participants[r].node == node;
      assert NodeArchived(ev, j, r);
    }
    NothingStaged(ev, j');
    AtFirst(ev);
  }

  lemma {:induction false} NothingStaged(ev: Evidence, j: Journal)
    requires EvidenceOk(ev)
    requires forall slot | slot in j :: !StepRecord(slot.key)
    ensures JournalAt(ev, j, 0, 0)
  {
    hide EvidenceOk, AllSteps, StepComplete, ValueOk;
    forall step: Step, rank | 0 <= rank < 8 ensures SlotAt(step, rank) !in j {
      assert StepRecord(SlotAt(step, rank).key);
    }
  }

  lemma {:induction false} AtFirst(ev: Evidence)
    requires EvidenceOk(ev)
    ensures ServicesAt(ev, 0) == ev.held && SourcesAt(ev, 0) == ev.heldSources
  {
    hide ValidPlan, ValidServices, Steps;
    NothingDone(ev.plan, ev.base);
  }

  lemma {:induction false} BaselineIsHoldStart(ev: Evidence, j: Journal)
    requires j == map[Slot(Coordinator, Started) := VStarted(ev.plan, ev.closure)]
                     [Slot(Coordinator, BaselineKey) := VBaseline(BaselineOf(ev))]
    ensures HoldJournal(ev, j, 0)
  {}

  /** Without sources for its first unit, evidence is not sound. */
  lemma {:induction false} SourcesNeeded(ev: Evidence)
    requires CanComplete(ev)
    ensures EvidenceOk(ev) && ValidPlan(ev.plan, ev.now)
    ensures FirstSpot(ev.plan) in ev.heldSources && ValidServices(ev.plan, ev.base, true) && ev.held == Held(ev.plan, ev.base)
  {
    hide ValidPlan, ValidServices, SourcesPreserved;
  }

  lemma {:induction false} IdleIsFollowed(ev: Evidence, w: World, view: Option<Inspection>)
    requires EvidenceOk(ev) && w.effects == [] && view.Some? && view.value.records == w.journal
    requires view.value.pending == map[] && view.value.intents == map[] && view.value.applied == map[]
    ensures InSync(ev, view, w)
  {
    hide EvidenceOk, Steps;
  }

  lemma {:induction false} CompleteIsNew(ev: Evidence, w: World, n: nat)
    requires AtStage(ev, w, n, 0, false)
    ensures Slot(Coordinator, CompleteKey) !in w.journal
  {
    hide EvidenceOk, JournalAt, BarrierTraceComplete, ArchivesOnRecord;
  }

  lemma {:induction false} UnknownShrinks(a: Inspection, b: Inspection)
    requires a.intents == b.intents && a.records.Keys <= b.records.Keys && |UnknownEffects(a)| <= 1
    ensures |UnknownEffects(b)| <= 1
  {
    AtMostOne(UnknownEffects(b), UnknownEffects(a));
  }

  // ----- an example: sound evidence that is refused -----

  const TABLE := Table([["u"]], "g", {"g"}, {"g"}, {}, {})
  const PLAN := Plan("t", [Participant("n", "b", SAN, "p", "q")], TABLE, "s", "c", "w", 0, 100)
  const MASKED_BASE: Services := map[Spot("n", "u") := Service(false, true, Dead), Spot("n", "g") := Service(false, false, Dead)]
  const MASK := Source(Some("/dev/null"), "v", Effective(true, "m"))
  const EXAMPLE := Evidence(
    PLAN, 1, "c", MASKED_BASE,
    map[Spot("n", "u") := MASK, Spot("n", "g") := Source(None, "v", Effective(false, "e"))], Held(PLAN, MASKED_BASE),
    map[Spot("n", "u") := MASK, Spot("n", "g") := MASK], Proof(PLAN, "c", "a"), map[], 1, 2)

  lemma {:induction false} ExampleTable()
    ensures Targets(TABLE) == {"u"} && Units(TABLE) == {"u", "g"} && BarrierMasks(TABLE) == {"u", "g"}
    ensures ValidTable(TABLE)
  {
    assert TABLE.phases[0][0] == "u";
    assert PhaseUnits(TABLE, 0) == ["u"] && PhaseUnits(TABLE, 1) == ["g"];
  }

  lemma {:induction false} ExampleSpots()
    ensures Spots(PLAN) == MASKED_BASE.Keys && ValidPlan(PLAN, 1)
  {
    hide Units, Targets, BarrierMasks, ValidTable;
    ExampleTable();
    assert PLAN.participants[0].node == "n";
    assert Spot(PLAN.participants[0].node, "u") in Spots(PLAN) && Spot(PLAN.participants[0].node, "g") in Spots(PLAN);
  }

  lemma {:induction false} ExampleServices()
    ensures ValidServices(PLAN, MASKED_BASE, true) && ValidSources(PLAN, MASKED_BASE, EXAMPLE.baseSources)
    ensures SourcesPreserved(MASKED_BASE, EXAMPLE.baseSources, EXAMPLE.heldSources)
  {
    hide Units, Targets, BarrierMasks, ValidTable, Spots, ValidPlan;
    ExampleTable();
    ExampleSpots();
  }

  lemma {:induction false} ExampleHeld()
    ensures ValidSources(PLAN, EXAMPLE.held, EXAMPLE.heldSources)
  {
    hide Units, Targets, BarrierMasks, ValidTable, Spots, ValidPlan;
    ExampleTable();
    ExampleSpots();
  }

  /** Sound evidence is not enough: here the only target is masked and inactive in
      the baseline, and the trial evaluation refuses the run although no step of the
      restoration would touch that unit. */
  lemma {:induction false} MaskedFirstUnitIsRefused()
    ensures EvidenceOk(EXAMPLE) && Admissible(EXAMPLE) && !CanComplete(EXAMPLE)
    ensures forall op :: !Wanted(PLAN, MASKED_BASE, Step(FirstSpot(PLAN), op))
  {
    hide Units, Targets, BarrierMasks, ValidTable, Spots, ValidServices, ValidSources, SourcesPreserved, Held;
    ExampleSpots();
    ExampleServices();
    ExampleHeld();
    assert PLAN.table.phases[0][0] == "u";
    assert PLAN.participants[0].node == "n";
    assert IsNode(PLAN, "n");
  }
}
