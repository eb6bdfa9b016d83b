/** The maintenance barrier at work on the services: what each action does, what a
    node then shows, and that every check on the way passes. */
module Hold {
  import opened Common
  import opened RestorePlan
  import opened ServiceWorld
  import opened Records
  import opened Grants
  import Barrier

  /** barrier_observation: what a node shows. */
  function BarrierObservation(plan: Plan, services: Services, r: nat): Barrier.Observation
    requires r < |plan.participants|
  {
    var row := plan.participants[r];
    Barrier.Observation(
      row.node, row.bootId, Barrier.Nodes(plan), plan.storageCfg, plan.workload, true, [], "DRAINED", [], [], [],
      set u | u in Units(plan.table) && Spot(row.node, u) in services && services[Spot(row.node, u)].masked,
      set u | u in Units(plan.table) && Spot(row.node, u) in services && services[Spot(row.node, u)].active,
      set u | u in Targets(plan.table) && Spot(row.node, u) in services && !services[Spot(row.node, u)].active)
  }

  /** The services after the first so many actions. */
  function HeldThrough(plan: Plan, base: Services, index: nat): Services
    requires index <= 3 * |plan.participants|
  {
    var n := |plan.participants|;
    if index <= n then BlockFirst(plan, base, index, plan.table.entry)
    else BlockFirst(plan, BlockFirst(plan, base, n, plan.table.entry),
                    if index <= 2 * n then index - n else n, BarrierMasks(plan.table))
  }

  /** Whose turn it is: the nodes take turns once a step. */
  function Turn(n: nat, index: nat): (r: nat)
    requires index < 3 * n
    ensures r < n
  {
    if index < n then index else if index < 2 * n then index - n else index - 2 * n
  }

  lemma {:induction false} ActionAt(plan: Plan, index: nat)
    requires index < 3 * |plan.participants|
    ensures var n := |plan.participants|;
            && |Barrier.Actions(plan)| == 3 * n
            && Barrier.Actions(plan)[index]
               == Barrier.Action(if index < n then Barrier.ENTRY_BLOCK else if index < 2 * n then Barrier.SERVICE_DRAIN else Barrier.FINAL_AUDIT,
                                 plan.participants[Turn(n, index)].node)
  {}

  /** The units an action masks on its node. */
  function MasksOf(plan: Plan, step: Barrier.StepName): set<string> {
    match step
    case ENTRY_BLOCK => plan.table.entry
    case SERVICE_DRAIN => BarrierMasks(plan.table)
    case FINAL_AUDIT => {}
  }

  /** One action moves the services one place on. */
  lemma {:induction false} ActionHolds(plan: Plan, base: Services, index: nat)
    requires index < 3 * |plan.participants|
    ensures |Barrier.Actions(plan)| == 3 * |plan.participants|
    ensures var action := Barrier.Actions(plan)[index];
            HeldThrough(plan, base, index + 1)
            == MaskNode(plan, HeldThrough(plan, base, index), action.node, MasksOf(plan, action.step))
  {
    hide Barrier.Actions, BarrierMasks, MaskNode, BlockFirst;
    ActionAt(plan, index);
    var n := |plan.participants|;
    var blocked, node := BlockFirst(plan, base, n, plan.table.entry), plan.participants[Turn(n, index)].node;
    if index < n {
      BlockNext(plan, base, index, plan.table.entry);
    } else if index < 2 * n {
      BlockNext(plan, blocked, index - n, BarrierMasks(plan.table));
    } else {
      MaskNothing(plan, HeldThrough(plan, base, index), node);
    }
  }

  lemma {:induction false} BlockNext(plan: Plan, services: Services, k: nat, units: set<string>)
    requires k < |plan.participants|
    ensures BlockFirst(plan, services, 0, units) == services
    ensures BlockFirst(plan, services, k + 1, units)
            == MaskNode(plan, BlockFirst(plan, services, k, units), plan.participants[k].node, units)
  {}

  lemma {:induction false} MaskNothing(plan: Plan, services: Services, node: string)
    ensures MaskNode(plan, services, node, {}) == services
  {}

  predicate EntryTerminal(plan: Plan, o: Barrier.Observation) {
    plan.table.entry <= o.masks && Barrier.TerminalIngress(plan.table) !! o.active
  }

  /** A masked unit stays masked through all later actions. */
  lemma {:induction false} EntryStaysMasked(plan: Plan, base: Services, index: nat, spot: Spot)
    requires |plan.participants| <= index <= 3 * |plan.participants|
    requires spot in base && spot.unit in plan.table.entry
    requires exists r :: 0 <= r < |plan.participants| && plan.participants[r].node == spot.node
    ensures spot in HeldThrough(plan, base, index) && HeldThrough(plan, base, index)[spot].masked
    ensures spot.unit != plan.table.guests ==> !HeldThrough(plan, base, index)[spot].active
  {
    var n := |plan.participants|;
    BlockFirstAt(plan, base, n, plan.table.entry, spot);
    if index > n {
      BlockFirstAt(plan, BlockFirst(plan, base, n, plan.table.entry), if index <= 2 * n then index - n else n,
                   BarrierMasks(plan.table), spot);
    }
  }

  /** Once every node is entry-blocked, every node shows it, from then on. */
  lemma {:induction false} EntryIsTerminal(plan: Plan, base: Services, index: nat, r: nat)
    requires |plan.participants| <= index <= 3 * |plan.participants| && r < |plan.participants|
    requires base.Keys == Spots(plan) && ValidTable(plan.table)
    ensures EntryTerminal(plan, BarrierObservation(plan, HeldThrough(plan, base, index), r))
  {
    hide HeldThrough;
    var node := plan.participants[r].node;
    var o := BarrierObservation(plan, HeldThrough(plan, base, index), r);
    forall u | u in plan.table.entry ensures u in o.masks && (u != plan.table.guests ==> u !in o.active) {
      EntryUnitKnown(plan, base, r, u);
      EntryStaysMasked(plan, base, index, Spot(node, u));
    }
  }

  lemma {:induction false} EntryUnitKnown(plan: Plan, base: Services, r: nat, u: string)
    requires ValidTable(plan.table) && base.Keys == Spots(plan) && r < |plan.participants|
    requires u in BarrierMasks(plan.table)
    ensures u in Units(plan.table) && Spot(plan.participants[r].node, u) in base
  {
    hide Targets;
    assert u in Units(plan.table);
    assert Spot(plan.participants[r].node, u) in Spots(plan);
  }

  /** No check of a drain or of an observation can fail. */
  lemma {:induction false} DrainIsSound(plan: Plan, services: Services, r: nat)
    requires ValidTable(plan.table) && r < |plan.participants|
    ensures Barrier.ValidObservation(plan, plan.participants[r].node, BarrierObservation(plan, services, r), false)
    ensures Barrier.ForbiddenStops(plan.table) !! BarrierObservation(plan, services, r).stopped
    ensures BarrierObservation(plan, services, r).haState == "DRAINED"
  {
    hide Targets, Units;
  }

  /** The final audit finds every node held. */
  lemma {:induction false} AuditIsSound(plan: Plan, base: Services, now: int, r: nat)
    requires ValidPlan(plan, now) && ValidServices(plan, base, true) && r < |plan.participants|
    ensures Barrier.ValidObservation(plan, plan.participants[r].node, BarrierObservation(plan, Held(plan, base), r), true)
  {
    hide Targets, Units, ValidServices, BarrierObservation, BarrierMasks;
    DrainIsSound(plan, Held(plan, base), r);
    var o := BarrierObservation(plan, Held(plan, base), r);
    forall u ensures u in BarrierMasks(plan.table) ==> u in o.masks
             ensures u in Targets(plan.table) <==> u in o.stopped
             ensures u in o.active ==> u in plan.table.preserved && u !in o.stopped
    {
      HeldUnitShows(plan, base, r, u);
    }
    MasksSplit(plan.table);
  }

  /** What one unit of a held node shows. */
  lemma {:induction false} HeldUnitShows(plan: Plan, base: Services, r: nat, u: string)
    requires ValidTable(plan.table) && ValidServices(plan, base, true) && r < |plan.participants|
    ensures var o := BarrierObservation(plan, Held(plan, base), r);
            && (u in BarrierMasks(plan.table) ==> u in o.masks)
            && (u in Targets(plan.table) <==> u in o.stopped)
            && (u in o.active ==> u in plan.table.preserved && u !in o.stopped)
  {
    hide Targets, ValidServices, ValidTable;
    BaseKeysOf(plan, base);
    TableFacts(plan.table);
    if u in BarrierMasks(plan.table) { EntryUnitKnown(plan, base, r, u); }
  }

  lemma {:induction false} BaseKeysOf(plan: Plan, base: Services)
    requires ValidServices(plan, base, true)
    ensures base.Keys == Spots(plan)
  {}

  lemma {:induction false} TableFacts(t: Table)
    requires ValidTable(t)
    ensures Targets(t) !! t.preserved && t.guests in t.preserved && t.guests !in Targets(t)
  {}

  lemma {:induction false} MasksSplit(t: Table)
    ensures BarrierMasks(t) == Targets(t) + {t.guests}
  {
    hide Targets;
  }

  lemma {:induction false} AllHeld(plan: Plan, base: Services, now: int, index: nat)
    requires ValidPlan(plan, now) && base.Keys == Spots(plan)
    requires 2 * |plan.participants| <= index <= 3 * |plan.participants|
    ensures HeldThrough(plan, base, index) == Held(plan, base)
  {
    BlockedAndDrained(plan, base, now);
  }

  /** What the checks of one action find. */
  lemma {:induction false} ActionChecks(ev: Evidence, index: nat)
    requires ValidPlan(ev.plan, ev.now) && ValidServices(ev.plan, ev.base, true)
    requires index < 3 * |ev.plan.participants|
    ensures |Barrier.Actions(ev.plan)| == 3 * |ev.plan.participants|
    ensures var n := |ev.plan.participants|;
            var action, r, after := Barrier.Actions(ev.plan)[index], Turn(n, index), HeldThrough(ev.plan, ev.base, index + 1);
            var seen := BarrierObservation(ev.plan, after, r);
            && (action.step == Barrier.SERVICE_DRAIN ==>
                  && Barrier.ValidObservation(ev.plan, action.node, seen, false)
                  && ev.plan.table.entry <= seen.masks && Barrier.ForbiddenStops(ev.plan.table) !! seen.stopped)
            && (action.step == Barrier.FINAL_AUDIT ==>
                  && Barrier.ValidObservation(ev.plan, action.node, seen, true)
                  && after == HeldThrough(ev.plan, ev.base, index))
  {
    hide Barrier.Actions, BarrierObservation, HeldThrough, ValidServices, Barrier.ValidObservation, Barrier.ForbiddenStops;
    ActionAt(ev.plan, index);
    var n := |ev.plan.participants|;
    var r := Turn(n, index);
    if n <= index < 2 * n {
      DrainIsSound(ev.plan, HeldThrough(ev.plan, ev.base, index + 1), r);
      BaseKeys(ev);
      EntryIsTerminal(ev.plan, ev.base, index + 1, r);
    } else if 2 * n <= index {
      BaseKeys(ev);
      AllHeld(ev.plan, ev.base, ev.now, index);
      AllHeld(ev.plan, ev.base, ev.now, index + 1);
      AuditIsSound(ev.plan, ev.base, ev.now, r);
    }
  }

  predicate PreflightOk(plan: Plan, services: Services, r: nat, entry: bool)
    requires r < |plan.participants|
  {
    var o := BarrierObservation(plan, services, r);
    && Barrier.ValidObservation(plan, plan.participants[r].node, o, false)
    && (entry ==> EntryTerminal(plan, o))
  }

  /** What the gate before the drains asks of a node beyond the first preflight: every
      entry unit masked, and none but pve-guests still active. */
  lemma {:induction false} EntryGateShows(plan: Plan, services: Services, r: nat)
    requires ValidTable(plan.table) && r < |plan.participants|
    ensures var node := plan.participants[r].node;
            PreflightOk(plan, services, r, true)
            <==> && PreflightOk(plan, services, r, false)
                 && forall u | u in plan.table.entry ::
                      && Spot(node, u) in services && services[Spot(node, u)].masked
                      && (u != plan.table.guests ==> !services[Spot(node, u)].active)
  {
    hide Targets, Barrier.ValidObservation;
    var o, node := BarrierObservation(plan, services, r), plan.participants[r].node;
    forall u | u in plan.table.entry
      ensures u in o.masks <==> Spot(node, u) in services && services[Spot(node, u)].masked
      ensures u in o.active <==> Spot(node, u) in services && services[Spot(node, u)].active
    {
      assert u in Units(plan.table);
    }
    assert EntryTerminal(plan, o) <==> forall u | u in plan.table.entry :: u in o.masks && (u != plan.table.guests ==> u !in o.active) by {
      if forall u | u in plan.table.entry :: u in o.masks && (u != plan.table.guests ==> u !in o.active) {
        assert plan.table.entry <= o.masks;
        assert Barrier.TerminalIngress(plan.table) !! o.active;
      }
      if EntryTerminal(plan, o) {
        forall u | u in plan.table.entry ensures u in o.masks && (u != plan.table.guests ==> u !in o.active) {
          assert u != plan.table.guests ==> u in Barrier.TerminalIngress(plan.table);
        }
      }
    }
  }

  /** Every node is entry-blocked when the first drain is due. */
  lemma {:induction false} EntryGateHolds(ev: Evidence)
    requires ValidPlan(ev.plan, ev.now) && ValidServices(ev.plan, ev.base, true)
    ensures forall r | 0 <= r < |ev.plan.participants| :: PreflightOk(ev.plan, ev.base, r, false)
    ensures forall r | 0 <= r < |ev.plan.participants| ::
              PreflightOk(ev.plan, HeldThrough(ev.plan, ev.base, |ev.plan.participants|), r, true)
  {
    hide HeldThrough, ValidServices, Barrier.ValidObservation, EntryTerminal, BarrierObservation;
    var n := |ev.plan.participants|;
    BaseKeys(ev);
    forall r | 0 <= r < n
      ensures PreflightOk(ev.plan, ev.base, r, false) && PreflightOk(ev.plan, HeldThrough(ev.plan, ev.base, n), r, true)
    {
      DrainIsSound(ev.plan, ev.base, r);
      DrainIsSound(ev.plan, HeldThrough(ev.plan, ev.base, n), r);
      EntryIsTerminal(ev.plan, ev.base, n, r);
    }
  }

  lemma {:induction false} BaseKeys(ev: Evidence)
    requires ValidServices(ev.plan, ev.base, true)
    ensures ev.base.Keys == Spots(ev.plan)
  {}

  // ----- the journal of a hold -----

  function Rank(kind: Barrier.Kind): nat {
    match kind case INTENT_DURABLE => 0 case ATTEMPTED => 1 case OBSERVED_COMPLETE => 2
  }

  /** The records a run has written when the first p barrier events are there. */
  ghost predicate HoldJournal(ev: Evidence, j: Journal, p: nat) {
    && Lookup(j, Slot(Coordinator, Started)) == Some(VStarted(ev.plan, ev.closure))
    && Lookup(j, Slot(Coordinator, BaselineKey)) == Some(VBaseline(BaselineOf(ev)))
    && (forall i: nat, k: nat | i < |Barrier.Actions(ev.plan)| && k < 3 && 3 * i + k < p :: BarrierRowOnRecord(ev.plan, j, i, k))
    && (forall slot | slot in j :: slot.owner == Coordinator && (slot.key in {Started, BaselineKey} || BarrierKeyBelow(slot.key, p)))
  }

  predicate BarrierKeyBelow(key: Key, p: nat) {
    key.BarrierKey? && 3 * key.index + Rank(key.kind) < p
  }

  lemma {:induction false} NoEventsYet(ev: Evidence, j: Journal, p: nat)
    requires HoldJournal(ev, j, p)
    ensures forall i: nat, kind | 3 * i + Rank(kind) >= p :: BarrierSlot(i, kind) !in j
    ensures HeldThrough(ev.plan, ev.base, 0) == ev.base
  {}

  /** The next event goes in. */
  lemma {:induction false} EventGoesIn(ev: Evidence, j: Journal, i: nat, k: nat, event: Barrier.Event)
    requires HoldJournal(ev, j, 3 * i + k) && i < |Barrier.Actions(ev.plan)| && k < 3
    requires Barrier.RowOk(ev.plan, Barrier.Actions(ev.plan)[i], Barrier.KindAt(k), i, event)
    ensures var slot := BarrierSlot(i, Barrier.KindAt(k));
            slot !in j && HoldJournal(ev, j[slot := VBarrier(event)], 3 * i + k + 1)
  {
    var slot := BarrierSlot(i, Barrier.KindAt(k));
    var j' := j[slot := VBarrier(event)];
    assert Rank(Barrier.KindAt(k)) == k;
    forall i': nat, k': nat | i' < |Barrier.Actions(ev.plan)| && k' < 3 && 3 * i' + k' < 3 * i + k + 1
      ensures BarrierRowOnRecord(ev.plan, j', i', k')
    {
      if i' != i || k' != k { assert BarrierRowOnRecord(ev.plan, j, i', k'); }
    }
  }

  lemma {:induction false} HoldIsComplete(ev: Evidence, j: Journal)
    requires HoldJournal(ev, j, 3 * |Barrier.Actions(ev.plan)|)
    ensures BarrierTraceComplete(ev.plan, j)
  {
    forall i, k | 0 <= i < |Barrier.Actions(ev.plan)| && 0 <= k < 3 ensures BarrierRowOnRecord(ev.plan, j, i, k) {
      assert 3 * i + k < 3 * |Barrier.Actions(ev.plan)|;
    }
  }
}
