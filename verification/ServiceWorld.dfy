/** What hold and restoration do to the services, as values: the barrier's effect,
    the effect of each restoration step, and the gates the coordinator, the local
    executor and the release validator put in front of a step.  */
module ServiceWorld {
  import opened Common
  import opened RestorePlan

  datatype Effective = Effective(masked: bool, id: string)
  datatype Source = Source(local: Option<string>, vendor: string, effective: Effective)
  type Sources = map<Spot, Source>
  datatype UnitState = UnitState(service: Service, source: Source)

  predicate Lifecycle(t: Table, unit: string, s: Service) {
    s.substate == (if !s.active then Dead else if unit == t.guests then Exited else Running)
  }

  /** validate_record, for all participants at once. */
  predicate ValidServices(plan: Plan, services: Services, before: bool) {
    && services.Keys == Spots(plan)
    && (forall spot | spot in services ::
          && Lifecycle(plan.table, spot.unit, services[spot])
          && (before && spot.unit in Targets(plan.table) ==> !(services[spot].active && services[spot].masked)))
    && (forall r, u | 0 <= r < |plan.participants|
          && u in plan.table.essential + (if plan.participants[r].role == SAN then plan.table.sanEssential else {}) ::
          Spot(plan.participants[r].node, u) in services && services[Spot(plan.participants[r].node, u)].active)
  }

  /** validate_record, for one participant. */
  predicate ValidNode(plan: Plan, services: Services, r: nat, before: bool)
    requires r < |plan.participants|
  {
    var node := plan.participants[r].node;
    && (forall spot | spot in services && spot.node == node :: spot.unit in Units(plan.table))
    && (forall u | u in Units(plan.table) ::
          && Spot(node, u) in services
          && Lifecycle(plan.table, u, services[Spot(node, u)])
          && (before && u in Targets(plan.table) ==> !(services[Spot(node, u)].active && services[Spot(node, u)].masked)))
    && (forall u | u in plan.table.essential + (if plan.participants[r].role == SAN then plan.table.sanEssential else {}) ::
          Spot(node, u) in services && services[Spot(node, u)].active)
  }

  /** What a node must show, unit by unit: pve-guests, when active, has exited, every
      other active unit runs, an inactive one is dead; before anything is done no
      target is both active and masked; the essential services are active. */
  lemma {:induction false} NodeShows(plan: Plan, services: Services, r: nat, before: bool)
    requires r < |plan.participants|
    ensures var node, t := plan.participants[r].node, plan.table;
            ValidNode(plan, services, r, before)
            <==> && (forall spot | spot in services && spot.node == node :: spot.unit in Targets(t) || spot.unit in t.preserved)
                 && (forall u | u in Targets(t) || u in t.preserved ::
                       && Spot(node, u) in services
                       && var s := services[Spot(node, u)];
                          && (s.substate == Exited <==> s.active && u == t.guests)
                          && (s.substate == Running <==> s.active && u != t.guests)
                          && (s.substate == Dead <==> !s.active)
                          && (before && u in Targets(t) ==> !s.active || !s.masked))
                 && (forall u | u in t.essential || (plan.participants[r].role == SAN && u in t.sanEssential) ::
                       Spot(node, u) in services && services[Spot(node, u)].active)
  {
    hide Targets;
  }

  /** The cohort is valid exactly when every participant is. */
  lemma {:induction false} CohortIsEveryNode(plan: Plan, services: Services, before: bool)
    requires forall spot | spot in services :: IsNode(plan, spot.node)
    ensures ValidServices(plan, services, before)
            <==> forall r | 0 <= r < |plan.participants| :: ValidNode(plan, services, r, before)
  {
    if forall r | 0 <= r < |plan.participants| :: ValidNode(plan, services, r, before) {
      CoverageIsExact(plan, services, before);
      EveryNodeMakesCohort(plan, services, before);
    }
    if ValidServices(plan, services, before) { CohortMakesEveryNode(plan, services, before); }
  }

  lemma {:induction false} CoverageIsExact(plan: Plan, services: Services, before: bool)
    requires forall spot | spot in services :: IsNode(plan, spot.node)
    requires forall r | 0 <= r < |plan.participants| :: ValidNode(plan, services, r, before)
    ensures services.Keys == Spots(plan)
  {
    hide Units, Lifecycle;
    forall spot | spot in services ensures spot in Spots(plan) {
      var r :| 0 <= r < |plan.participants| && plan.participants[r].node == spot.node;
      assert ValidNode(plan, services, r, before);
      assert spot == Spot(plan.participants[r].node, spot.unit);
    }
    forall spot | spot in Spots(plan) ensures spot in services {
      var r :| 0 <= r < |plan.participants| && spot.unit in Units(plan.table) && spot == Spot(plan.participants[r].node, spot.unit);
      assert ValidNode(plan, services, r, before);
    }
  }

  lemma {:induction false} CohortMakesEveryNode(plan: Plan, services: Services, before: bool)
    requires ValidServices(plan, services, before)
    ensures forall r | 0 <= r < |plan.participants| :: ValidNode(plan, services, r, before)
  {
    hide Units, Lifecycle;
    forall r, u | 0 <= r < |plan.participants| && u in Units(plan.table)
      ensures Spot(plan.participants[r].node, u) in Spots(plan) {}
  }

  lemma {:induction false} EveryNodeMakesCohort(plan: Plan, services: Services, before: bool)
    requires services.Keys == Spots(plan)
    requires forall r | 0 <= r < |plan.participants| :: ValidNode(plan, services, r, before)
    ensures ValidServices(plan, services, before)
  {
    hide Units, Lifecycle;
    forall spot | spot in services
      ensures Lifecycle(plan.table, spot.unit, services[spot])
      ensures before && spot.unit in Targets(plan.table) ==> !(services[spot].active && services[spot].masked)
    {
      var r :| 0 <= r < |plan.participants| && spot.unit in Units(plan.table) && spot.node == plan.participants[r].node;
      assert ValidNode(plan, services, r, before);
    }
    forall r, u | 0 <= r < |plan.participants|
                  && u in plan.table.essential + (if plan.participants[r].role == SAN then plan.table.sanEssential else {})
      ensures Spot(plan.participants[r].node, u) in services && services[Spot(plan.participants[r].node, u)].active
    {
      assert ValidNode(plan, services, r, before);
    }
  }

  /** A mask is a local link, and the effective unit is masked, exactly when the
      service is. */
  predicate SourceMatches(s: Service, src: Source) {
    src.local.Some? == s.masked && src.effective.masked == s.masked
  }

  // ----- hold -----

  /** Mask a unit and stop it; pve-guests is masked but never stopped. */
  function Block(t: Table, unit: string, s: Service): Service {
    if unit == t.guests then s.(masked := true) else Service(false, true, Dead)
  }

  function MaskNode(plan: Plan, services: Services, node: string, units: set<string>): Services {
    map spot | spot in services ::
      if spot.node == node && spot.unit in units then Block(plan.table, spot.unit, services[spot]) else services[spot]
  }

  /** The world once every node is blocked and drained. */
  function Held(plan: Plan, base: Services): Services {
    map spot | spot in base ::
      if spot.unit in BarrierMasks(plan.table) then Block(plan.table, spot.unit, base[spot]) else base[spot]
  }

  /** What the hold leaves: every target masked and dead, pve-guests masked and
      otherwise as it was, everything else untouched. */
  lemma {:induction false} HeldShows(plan: Plan, base: Services, spot: Spot)
    requires spot in base && plan.table.guests !in Targets(plan.table)
    ensures Held(plan, base).Keys == base.Keys
    ensures spot.unit in Targets(plan.table) ==> Held(plan, base)[spot] == Service(false, true, Dead)
    ensures spot.unit == plan.table.guests ==>
              Held(plan, base)[spot] == Service(base[spot].active, true, base[spot].substate)
    ensures spot.unit !in Targets(plan.table) && spot.unit != plan.table.guests ==> Held(plan, base)[spot] == base[spot]
  {
    hide Targets;
  }

  // ----- restoration -----

  function Effect(op: Operation, s: Service): Service {
    match op
    case UNMASK => s.(masked := false)
    case START => s.(active := true, substate := Running)
  }

  function EffectSource(op: Operation, src: Source, original: Source): Source {
    match op
    case UNMASK => src.(local := None, effective := original.effective)
    case START => src
  }

  function DoneSteps(plan: Plan, base: Services, n: nat): set<Step>
    requires n <= |Steps(plan, base)|
  {
    set i | 0 <= i < n :: Steps(plan, base)[i]
  }

  function After(held: Services, done: set<Step>): Services {
    map spot | spot in held ::
      var unmasked := if Step(spot, UNMASK) in done then Effect(UNMASK, held[spot]) else held[spot];
      if Step(spot, START) in done then Effect(START, unmasked) else unmasked
  }

  function SourcesAfter(held: Sources, original: Sources, done: set<Step>): Sources
    requires held.Keys <= original.Keys
  {
    map spot | spot in held ::
      if Step(spot, UNMASK) in done then EffectSource(UNMASK, held[spot], original[spot]) else held[spot]
  }

  /** The services after hold and the first n steps. */
  function WorldAt(plan: Plan, base: Services, n: nat): Services
    requires n <= |Steps(plan, base)|
  {
    After(Held(plan, base), DoneSteps(plan, base, n))
  }

  // ----- gates -----

  /** release: preserved services have not drifted, apart from the barrier's mask
      on pve-guests; no originally inactive target runs; no original mask is gone. */
  predicate ReleaseGate(plan: Plan, base: Services, now: Services) {
    base.Keys == now.Keys && forall spot | spot in base :: GateAt(plan.table, spot.unit, base[spot], now[spot])
  }

  predicate GateAt(t: Table, unit: string, base: Service, now: Service) {
    if unit in t.preserved then
      base == (if unit == t.guests && now.masked then now.(masked := base.masked) else now)
    else
      (now.active ==> base.active) && (base.masked ==> now.masked)
  }

  /** The coordinator's and the executor's demand on the unit before a step. */
  predicate Predecessor(t: Table, base: Service, now: Service, unit: string, op: Operation) {
    && (match op case UNMASK => now.masked case START => !now.active && !now.masked)
    && (if unit == t.guests then now.active == base.active else !now.active)
  }

  predicate Postcondition(op: Operation, after: Service) {
    !after.masked && (op == START ==> after.active)
  }

  /** The release validator: every earlier phase is back to the baseline on every node. */
  predicate EarlierPhasesRestored(plan: Plan, base: Services, now: Services, unit: string) {
    base.Keys == now.Keys && forall spot | spot in base ::
      PhaseOf(plan.table, spot.unit) < PhaseOf(plan.table, unit) ==> now[spot] == base[spot]
  }

  /** The release check refuses exactly this: a unit that came or went; a target that
      runs and did not, or whose original mask is gone; a preserved unit that changed
      in any way, pve-guests' mask apart, which may have been added. */
  lemma {:induction false} GateShows(plan: Plan, base: Services, now: Services)
    ensures ReleaseGate(plan, base, now)
            <==> && base.Keys == now.Keys
                 && forall spot | spot in base ::
                      && (spot.unit !in plan.table.preserved ==>
                            && (now[spot].active ==> base[spot].active) && (base[spot].masked ==> now[spot].masked))
                      && (spot.unit in plan.table.preserved ==>
                            && now[spot].active == base[spot].active && now[spot].substate == base[spot].substate
                            && (base[spot].masked ==> now[spot].masked)
                            && (spot.unit != plan.table.guests ==> now[spot].masked == base[spot].masked))
  {}

  /** What a step finds and what it leaves. */
  lemma {:induction false} StepNeeds(t: Table, base: Service, now: Service, unit: string, after: Service)
    ensures Predecessor(t, base, now, unit, UNMASK)
            <==> now.masked && (if unit == t.guests then now.active == base.active else !now.active)
    ensures Predecessor(t, base, now, unit, START)
            <==> !now.masked && !now.active && (unit == t.guests ==> !base.active)
    ensures Postcondition(UNMASK, after) <==> !after.masked
    ensures Postcondition(START, after) <==> !after.masked && after.active
    ensures Effect(UNMASK, now) == Service(now.active, false, now.substate)
    ensures Effect(START, now) == Service(true, now.masked, Running)
  {}

  /** What the validator's phase gate demands, by the table's own phases. */
  lemma {:induction false} PhaseGateShows(plan: Plan, base: Services, now: Services, p: nat, k: nat)
    requires ValidTable(plan.table) && p < |plan.table.phases| && k < |plan.table.phases[p]|
    ensures EarlierPhasesRestored(plan, base, now, plan.table.phases[p][k])
            <==> && base.Keys == now.Keys
                 && forall spot, q | spot in base && 0 <= q < p && spot.unit in plan.table.phases[q] :: now[spot] == base[spot]
    ensures EarlierPhasesRestored(plan, base, now, plan.table.guests)
            <==> && base.Keys == now.Keys
                 && forall spot | spot in base && spot.unit in Targets(plan.table) :: now[spot] == base[spot]
  {
    hide ValidTable, Targets;
    var t := plan.table;
    PhasesAre(t);
    PhaseOfUnit(t, p, t.phases[p][k]);
    PhaseOfUnit(t, |t.phases|, t.guests);
    forall unit, q | 0 <= q < |t.phases| && unit in t.phases[q] ensures PhaseOf(t, unit) == q {
      PhaseOfUnit(t, q, unit);
    }
  }

  lemma {:induction false} PhaseOfUnit(t: Table, p: nat, unit: string)
    requires ValidTable(t) && p < PhaseCount(t) && unit in PhaseUnits(t, p)
    ensures PhaseOf(t, unit) == p
  {
    var q := PhaseOf(t, unit);
    var u :| 0 <= u < |PhaseUnits(t, p)| && PhaseUnits(t, p)[u] == unit;
    var v :| 0 <= v < |PhaseUnits(t, q)| && PhaseUnits(t, q)[v] == unit;
  }

  lemma {:induction false} DoneStepsGrow(plan: Plan, base: Services, n: nat)
    requires n < |Steps(plan, base)|
    ensures DoneSteps(plan, base, n + 1) == DoneSteps(plan, base, n) + {Steps(plan, base)[n]}
  {}

  lemma {:induction false} StepNotYetDone(plan: Plan, base: Services, now: int, n: nat)
    requires ValidPlan(plan, now) && n < |Steps(plan, base)|
    ensures Steps(plan, base)[n] !in DoneSteps(plan, base, n)
  {
    forall i | 0 <= i < n ensures Steps(plan, base)[i] != Steps(plan, base)[n] {
      StepsDistinct(plan, base, now, i, n);
    }
  }

  lemma {:induction false} DoneStepIsWanted(plan: Plan, base: Services, now: int, n: nat, step: Step)
    requires ValidPlan(plan, now) && n <= |Steps(plan, base)|
    requires step in DoneSteps(plan, base, n)
    ensures Wanted(plan, base, step) && step.spot.unit in BarrierMasks(plan.table)
  {
    var i :| 0 <= i < n && Steps(plan, base)[i] == step;
    ListedIsWanted(plan, base, now, i);
  }

  /** The gate on one spot needs nothing but that only wanted steps were done. */
  lemma {:induction false} GateHoldsAt(plan: Plan, base: Services, done: set<Step>, spot: Spot)
    requires ValidTable(plan.table) && ValidServices(plan, base, true) && spot in base
    requires forall op | Step(spot, op) in done :: Wanted(plan, base, Step(spot, op)) && spot.unit in BarrierMasks(plan.table)
    ensures GateAt(plan.table, spot.unit, base[spot], After(Held(plan, base), done)[spot])
  {
    assert spot in Spots(plan);
    assert Step(spot, START) in done ==> Wanted(plan, base, Step(spot, START));
    assert Step(spot, UNMASK) in done ==> Wanted(plan, base, Step(spot, UNMASK));
  }

  /** Every release check on the way passes. */
  lemma {:induction false} GateHolds(plan: Plan, base: Services, now: int, n: nat)
    requires ValidPlan(plan, now) && ValidServices(plan, base, true)
    requires n <= |Steps(plan, base)|
    ensures ReleaseGate(plan, base, WorldAt(plan, base, n))
  {
    var done := DoneSteps(plan, base, n);
    forall spot | spot in base ensures GateAt(plan.table, spot.unit, base[spot], WorldAt(plan, base, n)[spot]) {
      forall op | Step(spot, op) in done
        ensures Wanted(plan, base, Step(spot, op)) && spot.unit in BarrierMasks(plan.table)
      {
        DoneStepIsWanted(plan, base, now, n, Step(spot, op));
      }
      GateHoldsAt(plan, base, done, spot);
    }
  }

  /** When a step's turn comes its unit is exactly where the step must find it. */
  lemma {:induction false} PredecessorHolds(plan: Plan, base: Services, now: int, n: nat)
    requires ValidPlan(plan, now) && ValidServices(plan, base, true)
    requires n < |Steps(plan, base)|
    ensures var step := Steps(plan, base)[n];
            && step.spot in base
            && Predecessor(plan.table, base[step.spot], WorldAt(plan, base, n)[step.spot], step.spot.unit, step.op)
  {
    var steps := Steps(plan, base);
    var step := steps[n];
    ListedIsWanted(plan, base, now, n);
    StepNotYetDone(plan, base, now, n);
    if step.op == UNMASK {
      if Step(step.spot, START) in DoneSteps(plan, base, n) {
        var j :| 0 <= j < n && steps[j] == Step(step.spot, START);
        var i := UnmaskPrecedesStart(plan, base, now, j);
        StepsDistinct(plan, base, now, i, n);
      }
    } else {
      assert step.spot.unit in Targets(plan.table);
      var i := UnmaskPrecedesStart(plan, base, now, n);
      assert Step(step.spot, UNMASK) in DoneSteps(plan, base, n);
    }
  }

  lemma {:induction false} AfterAdding(held: Services, done: set<Step>, step: Step)
    requires step.spot in held && step !in done
    requires step.op == UNMASK ==> Step(step.spot, START) !in done
    ensures After(held, done + {step}) == After(held, done)[step.spot := Effect(step.op, After(held, done)[step.spot])]
  {}

  /** One step changes one unit, as the step says. */
  lemma {:induction false} WorldStep(plan: Plan, base: Services, now: int, n: nat)
    requires ValidPlan(plan, now) && ValidServices(plan, base, true)
    requires n < |Steps(plan, base)|
    ensures var step := Steps(plan, base)[n];
            && step.spot in WorldAt(plan, base, n)
            && WorldAt(plan, base, n + 1)
               == WorldAt(plan, base, n)[step.spot := Effect(step.op, WorldAt(plan, base, n)[step.spot])]
            && Postcondition(step.op, WorldAt(plan, base, n + 1)[step.spot])
  {
    var step, done := Steps(plan, base)[n], DoneSteps(plan, base, n);
    DoneStepsGrow(plan, base, n);
    PredecessorHolds(plan, base, now, n);
    StepNotYetDone(plan, base, now, n);
    if step.op == UNMASK && Step(step.spot, START) in done {
      assert WorldAt(plan, base, n)[step.spot].active;
      DoneStepIsWanted(plan, base, now, n, Step(step.spot, START));
      assert false;
    }
    AfterAdding(Held(plan, base), done, step);
  }

  lemma {:induction false} SourcesStep(plan: Plan, base: Services, held: Sources, original: Sources, n: nat)
    requires n < |Steps(plan, base)| && held.Keys <= original.Keys
    requires Steps(plan, base)[n].spot in held
    ensures var step := Steps(plan, base)[n];
            var s := SourcesAfter(held, original, DoneSteps(plan, base, n));
            SourcesAfter(held, original, DoneSteps(plan, base, n + 1))
            == s[step.spot := EffectSource(step.op, s[step.spot], original[step.spot])]
  {
    DoneStepsGrow(plan, base, n);
  }

  /** A step once done keeps its postcondition through all later steps. */
  lemma {:induction false} DoneStepsKept(plan: Plan, base: Services, now: int, n: nat, i: nat)
    requires ValidPlan(plan, now) && ValidServices(plan, base, true)
    requires i < n <= |Steps(plan, base)|
    ensures var step := Steps(plan, base)[i];
            step.spot in WorldAt(plan, base, n) && Postcondition(step.op, WorldAt(plan, base, n)[step.spot])
  {
    var step := Steps(plan, base)[i];
    ListedIsWanted(plan, base, now, i);
    assert step in DoneSteps(plan, base, n);
    if step.op == START {
      var k := UnmaskPrecedesStart(plan, base, now, i);
      assert Step(step.spot, UNMASK) in DoneSteps(plan, base, n);
    }
  }

  /** The phase gate of the release validator holds for the pending step. */
  lemma {:induction false} EarlierPhasesHold(plan: Plan, base: Services, now: int, n: nat)
    requires ValidPlan(plan, now) && ValidServices(plan, base, true)
    requires n < |Steps(plan, base)|
    ensures EarlierPhasesRestored(plan, base, WorldAt(plan, base, n), Steps(plan, base)[n].spot.unit)
  {
    var unit := Steps(plan, base)[n].spot.unit;
    forall spot | spot in base && PhaseOf(plan.table, spot.unit) < PhaseOf(plan.table, unit)
      ensures WorldAt(plan, base, n)[spot] == base[spot]
    {
      EarlierSpotRestored(plan, base, now, n, spot);
    }
  }

  lemma {:induction false} EarlierSpotRestored(plan: Plan, base: Services, now: int, n: nat, spot: Spot)
    requires ValidPlan(plan, now) && ValidServices(plan, base, true)
    requires n < |Steps(plan, base)| && spot in base
    requires PhaseOf(plan.table, spot.unit) < PhaseOf(plan.table, Steps(plan, base)[n].spot.unit)
    ensures WorldAt(plan, base, n)[spot] == base[spot]
  {
    InSomePhase(plan, spot.unit);
    forall op | Wanted(plan, base, Step(spot, op)) ensures Step(spot, op) in DoneSteps(plan, base, n) {
      var i := EarlierPhasePrecedes(plan, base, now, Step(spot, op), n);
    }
    SpotRestored(plan, base, now, n, spot);
  }

  lemma {:induction false} InSomePhase(plan: Plan, unit: string)
    requires PhaseOf(plan.table, unit) < PhaseCount(plan.table)
    ensures unit in BarrierMasks(plan.table)
  {
    var p := PhaseOf(plan.table, unit);
    var u :| 0 <= u < |PhaseUnits(plan.table, p)| && PhaseUnits(plan.table, p)[u] == unit;
    if p < |plan.table.phases| { assert plan.table.phases[p][u] in Targets(plan.table); }
  }

  /** A spot whose wanted steps are all done is back to the baseline. */
  lemma {:induction false} SpotRestored(plan: Plan, base: Services, now: int, n: nat, spot: Spot)
    requires ValidPlan(plan, now) && ValidServices(plan, base, true)
    requires n <= |Steps(plan, base)| && spot in base
    requires forall op | Wanted(plan, base, Step(spot, op)) :: Step(spot, op) in DoneSteps(plan, base, n)
    ensures WorldAt(plan, base, n)[spot] == base[spot]
  {
    var done := DoneSteps(plan, base, n);
    forall op | Step(spot, op) in done
      ensures Wanted(plan, base, Step(spot, op)) && spot.unit in BarrierMasks(plan.table)
    {
      var i :| 0 <= i < n && Steps(plan, base)[i] == Step(spot, op);
      ListedIsWanted(plan, base, now, i);
    }
    assert Wanted(plan, base, Step(spot, UNMASK)) ==> Step(spot, UNMASK) in done;
    assert Wanted(plan, base, Step(spot, START)) ==> Step(spot, START) in done;
    assert spot in Spots(plan);
    assert Lifecycle(plan.table, spot.unit, base[spot]);
  }

  /** Hold then restore is the identity on services: original masks stay, stopped
      services stay stopped, pve-guests is as it was. */
  lemma {:induction false} HoldThenRestoreIsIdentity(plan: Plan, base: Services, now: int)
    requires ValidPlan(plan, now) && ValidServices(plan, base, true)
    ensures WorldAt(plan, base, |Steps(plan, base)|) == base
  {
    var steps := Steps(plan, base);
    forall spot | spot in base ensures WorldAt(plan, base, |steps|)[spot] == base[spot] {
      if spot.unit in BarrierMasks(plan.table) {
        forall op | Wanted(plan, base, Step(spot, op)) ensures Step(spot, op) in DoneSteps(plan, base, |steps|) {
          WantedIsListed(plan, base, now, Step(spot, op));
        }
        SpotRestored(plan, base, now, |steps|, spot);
      } else {
        forall op ensures Step(spot, op) !in DoneSteps(plan, base, |steps|) {
          if Step(spot, op) in DoneSteps(plan, base, |steps|) {
            var i :| 0 <= i < |steps| && steps[i] == Step(spot, op);
            ListedIsWanted(plan, base, now, i);
          }
        }
      }
    }
  }

  predicate ValidSources(plan: Plan, services: Services, sources: Sources) {
    sources.Keys == services.Keys && forall spot | spot in services :: SourceMatches(services[spot], sources[spot])
  }

  /** Sources fit services: one for each unit, with a local link and an effective mask
      exactly where the unit is masked. */
  lemma {:induction false} SourcesShow(plan: Plan, services: Services, sources: Sources)
    ensures ValidSources(plan, services, sources)
            <==> && sources.Keys == services.Keys
                 && forall spot | spot in services ::
                      && (sources[spot].local == None <==> !services[spot].masked)
                      && (sources[spot].effective.masked <==> services[spot].masked)
  {}

  /** Vendor files never change, and an original mask keeps its very link. */
  predicate SourcesPreserved(base: Services, baseSources: Sources, now: Sources) {
    && base.Keys <= baseSources.Keys && base.Keys <= now.Keys
    && forall spot | spot in base ::
         && baseSources[spot].vendor == now[spot].vendor
         && (base[spot].masked ==> baseSources[spot].local == now[spot].local)
  }

  lemma {:induction false} SpotValid(plan: Plan, base: Services, done: set<Step>, spot: Spot)
    requires ValidTable(plan.table) && spot in base && Lifecycle(plan.table, spot.unit, base[spot])
    requires forall op | Step(spot, op) in done :: Wanted(plan, base, Step(spot, op)) && spot.unit in BarrierMasks(plan.table)
    ensures var s := After(Held(plan, base), done)[spot];
            && Lifecycle(plan.table, spot.unit, s)
            && (spot.unit in plan.table.preserved ==> s.active == base[spot].active)
  {
    var t := plan.table;
    assert Step(spot, START) in done ==> Wanted(plan, base, Step(spot, START));
    assert spot.unit in t.preserved && spot.unit in BarrierMasks(t) ==> spot.unit == t.guests;
  }

  /** The world is a valid observation at every step. */
  lemma {:induction false} WorldValid(plan: Plan, base: Services, now: int, n: nat)
    requires ValidPlan(plan, now) && ValidServices(plan, base, true)
    requires n <= |Steps(plan, base)|
    ensures ValidServices(plan, WorldAt(plan, base, n), false)
  {
    forall spot | spot in base
      ensures Lifecycle(plan.table, spot.unit, WorldAt(plan, base, n)[spot])
      ensures spot.unit in plan.table.preserved ==> WorldAt(plan, base, n)[spot].active == base[spot].active
    {
      WorldValidAt(plan, base, now, n, spot);
    }
  }

  lemma {:induction false} WorldValidAt(plan: Plan, base: Services, now: int, n: nat, spot: Spot)
    requires ValidPlan(plan, now) && ValidServices(plan, base, true)
    requires n <= |Steps(plan, base)| && spot in base
    ensures var s := WorldAt(plan, base, n)[spot];
            && Lifecycle(plan.table, spot.unit, s)
            && (spot.unit in plan.table.preserved ==> s.active == base[spot].active)
  {
    forall op | Step(spot, op) in DoneSteps(plan, base, n)
      ensures Wanted(plan, base, Step(spot, op)) && spot.unit in BarrierMasks(plan.table)
    {
      DoneStepIsWanted(plan, base, now, n, Step(spot, op));
    }
    SpotValid(plan, base, DoneSteps(plan, base, n), spot);
  }

  /** And so are the unit sources. */
  lemma {:induction false} SourcesValid(plan: Plan, base: Services, now: int, original: Sources, held: Sources, n: nat)
    requires ValidPlan(plan, now) && ValidServices(plan, base, true)
    requires ValidSources(plan, base, original) && ValidSources(plan, Held(plan, base), held)
    requires SourcesPreserved(base, original, held)
    requires n <= |Steps(plan, base)|
    ensures ValidSources(plan, WorldAt(plan, base, n), SourcesAfter(held, original, DoneSteps(plan, base, n)))
    ensures SourcesPreserved(base, original, SourcesAfter(held, original, DoneSteps(plan, base, n)))
  {
    hide ValidPlan, ValidServices, Steps;
    forall spot | spot in base
      ensures SourceValidAt(plan, base, original, held, DoneSteps(plan, base, n), spot)
    {
      SourcesValidAt(plan, base, now, original, held, n, spot);
    }
  }

  ghost predicate SourceValidAt(plan: Plan, base: Services, original: Sources, held: Sources, done: set<Step>, spot: Spot)
    requires held.Keys == original.Keys == base.Keys && spot in base
  {
    var s := SourcesAfter(held, original, done)[spot];
    && SourceMatches(After(Held(plan, base), done)[spot], s)
    && original[spot].vendor == s.vendor
    && (base[spot].masked ==> original[spot].local == s.local)
  }

  lemma {:induction false} SourcesValidAt(plan: Plan, base: Services, now: int, original: Sources, held: Sources, n: nat, spot: Spot)
    requires ValidPlan(plan, now) && n <= |Steps(plan, base)| && spot in base
    requires held.Keys == original.Keys == base.Keys
    requires SourceMatches(base[spot], original[spot]) && SourceMatches(Held(plan, base)[spot], held[spot])
    requires original[spot].vendor == held[spot].vendor && (base[spot].masked ==> original[spot].local == held[spot].local)
    ensures SourceValidAt(plan, base, original, held, DoneSteps(plan, base, n), spot)
  {
    if Step(spot, UNMASK) in DoneSteps(plan, base, n) { DoneStepIsWanted(plan, base, now, n, Step(spot, UNMASK)); }
  }

  /** The unit sources are restored too: once all steps are done, every unit that was
      unmasked and only then masked by the barrier has its very source back. */
  lemma {:induction false} SourcesRestored(plan: Plan, base: Services, now: int, original: Sources, held: Sources, spot: Spot)
    requires ValidPlan(plan, now) && ValidServices(plan, base, true)
    requires ValidSources(plan, base, original) && ValidSources(plan, Held(plan, base), held)
    requires SourcesPreserved(base, original, held)
    requires spot in base && !base[spot].masked
    requires spot.unit in Targets(plan.table) || spot.unit == plan.table.guests
    ensures held.Keys == original.Keys == base.Keys
    ensures SourcesAfter(held, original, DoneSteps(plan, base, |Steps(plan, base)|))[spot] == original[spot]
  {
    hide ValidPlan, Targets, Steps;
    StepsAre(plan, base, now, Step(spot, UNMASK));
    var done := DoneSteps(plan, base, |Steps(plan, base)|);
    assert Step(spot, UNMASK) in Steps(plan, base);
    assert Step(spot, UNMASK) in done;
    assert original[spot].vendor == held[spot].vendor && original[spot].local == None;
  }

  /** A listed step works on a unit that was not masked; one that starts a unit,
      on an originally active target. */
  lemma {:induction false} StartIsUnmaskedTarget(plan: Plan, base: Services, now: int, n: nat)
    requires ValidPlan(plan, now) && ValidServices(plan, base, true)
    requires n < |Steps(plan, base)|
    ensures var step := Steps(plan, base)[n];
            && step.spot in base && step.spot.unit in BarrierMasks(plan.table) && !base[step.spot].masked
            && (step.op == START ==> base[step.spot].active && step.spot.unit in Targets(plan.table))
  {
    ListedIsWanted(plan, base, now, n);
  }

  // ----- the barrier really produces the held world -----

  function BlockFirst(plan: Plan, services: Services, k: nat, units: set<string>): Services
    requires k <= |plan.participants|
  {
    if k == 0 then services
    else MaskNode(plan, BlockFirst(plan, services, k - 1, units), plan.participants[k - 1].node, units)
  }

  lemma {:induction false} BlockFirstAt(plan: Plan, services: Services, k: nat, units: set<string>, spot: Spot)
    requires k <= |plan.participants| && spot in services
    ensures BlockFirst(plan, services, k, units).Keys == services.Keys
    ensures BlockFirst(plan, services, k, units)[spot]
            == if (exists r :: 0 <= r < k && plan.participants[r].node == spot.node) && spot.unit in units
               then Block(plan.table, spot.unit, services[spot]) else services[spot]
  {
    if k > 0 { BlockFirstAt(plan, services, k - 1, units, spot); }
  }

  /** Blocking the entry units everywhere and then draining every node leaves the
      held world, whatever subset the entry units are. */
  lemma {:induction false} BlockedAndDrained(plan: Plan, base: Services, now: int)
    requires ValidPlan(plan, now) && base.Keys == Spots(plan)
    ensures var n := |plan.participants|;
            BlockFirst(plan, BlockFirst(plan, base, n, plan.table.entry), n, BarrierMasks(plan.table)) == Held(plan, base)
  {
    var n := |plan.participants|;
    var blocked := BlockFirst(plan, base, n, plan.table.entry);
    BlockFirstKeys(plan, base, n, plan.table.entry);
    BlockFirstKeys(plan, blocked, n, BarrierMasks(plan.table));
    forall spot | spot in base
      ensures BlockFirst(plan, blocked, n, BarrierMasks(plan.table))[spot] == Held(plan, base)[spot]
    {
      BlockedAndDrainedAt(plan, base, spot);
    }
  }

  lemma {:induction false} BlockedAndDrainedAt(plan: Plan, base: Services, spot: Spot)
    requires ValidTable(plan.table) && base.Keys == Spots(plan) && spot in base
    ensures var n := |plan.participants|;
            var blocked := BlockFirst(plan, base, n, plan.table.entry);
            && blocked.Keys == BlockFirst(plan, blocked, n, BarrierMasks(plan.table)).Keys == base.Keys
            && BlockFirst(plan, blocked, n, BarrierMasks(plan.table))[spot] == Held(plan, base)[spot]
  {
    var n := |plan.participants|;
    BlockFirstAt(plan, base, n, plan.table.entry, spot);
    BlockFirstAt(plan, BlockFirst(plan, base, n, plan.table.entry), n, BarrierMasks(plan.table), spot);
  }

  lemma {:induction false} BlockFirstKeys(plan: Plan, services: Services, k: nat, units: set<string>)
    requires k <= |plan.participants|
    ensures BlockFirst(plan, services, k, units).Keys == services.Keys
  {
    if k > 0 { BlockFirstKeys(plan, services, k - 1, units); }
  }
}
