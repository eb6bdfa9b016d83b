/** The plan of one exact restoration and the order of its steps
    (layout-migration-exact-restore-model.py).

    The phase table, the unit sets and the participant list are parameters: any
    duplicate-free ones will do.  Nothing below enumerates the shipped table.  */
module RestorePlan {

  datatype Role = SAN | CONTROL_ONLY
  datatype Operation = UNMASK | START
  datatype Substate = Dead | Running | Exited
  datatype Service = Service(active: bool, masked: bool, substate: Substate)
  datatype Spot = Spot(node: string, unit: string)
  datatype Step = Step(spot: Spot, op: Operation)

  datatype Participant = Participant(
    node: string, bootId: string, role: Role, beforePackage: string, afterPackage: string)

  datatype Table = Table(
    phases: seq<seq<string>>, guests: string, preserved: set<string>,
    entry: set<string>, essential: set<string>, sanEssential: set<string>)

  datatype Plan = Plan(
    tx: string, participants: seq<Participant>, table: Table,
    storageCfg: string, targetCfg: string, workload: string, issuedAt: int, expiresAt: int)

  type Services = map<Spot, Service>

  function Targets(t: Table): set<string> {
    set p, u | 0 <= p < |t.phases| && 0 <= u < |t.phases[p]| :: t.phases[p][u]
  }

  function Units(t: Table): set<string> {
    Targets(t) + t.preserved
  }

  /** The units the barrier masks: every target and pve-guests. */
  function BarrierMasks(t: Table): set<string> {
    Targets(t) + {t.guests}
  }

  /** The restoration order ends with a phase of pve-guests alone. */
  function PhaseCount(t: Table): nat {
    |t.phases| + 1
  }

  function PhaseUnits(t: Table, p: nat): seq<string>
    requires p < PhaseCount(t)
  {
    if p < |t.phases| then t.phases[p] else [t.guests]
  }

  predicate ValidTable(t: Table) {
    && (forall p, u, q, v | 0 <= p < PhaseCount(t) && 0 <= u < |PhaseUnits(t, p)|
                         && 0 <= q < PhaseCount(t) && 0 <= v < |PhaseUnits(t, q)| ::
          PhaseUnits(t, p)[u] == PhaseUnits(t, q)[v] ==> p == q && u == v)
    && Targets(t) !! t.preserved
    && t.guests in t.preserved
    && t.guests in t.entry && t.entry <= BarrierMasks(t)
    && t.essential + t.sanEssential <= t.preserved
    && |t.phases| > 0 && |t.phases[0]| > 0
  }

  predicate ValidPlan(plan: Plan, now: int) {
    && plan.issuedAt <= now <= plan.expiresAt
    && 0 < plan.expiresAt - plan.issuedAt <= 1800
    && |plan.participants| > 0
    && (forall i, j | 0 <= i < j < |plan.participants| :: plan.participants[i].node != plan.participants[j].node)
    && ValidTable(plan.table)
  }

  predicate IsNode(plan: Plan, node: string) {
    exists r | 0 <= r < |plan.participants| :: plan.participants[r].node == node
  }

  predicate IsSanNode(plan: Plan, node: string) {
    exists r | 0 <= r < |plan.participants| :: plan.participants[r].node == node && plan.participants[r].role == SAN
  }

  function Spots(plan: Plan): set<Spot> {
    set r, u | 0 <= r < |plan.participants| && u in Units(plan.table) :: Spot(plan.participants[r].node, u)
  }

  // ----- which steps a baseline asks for, and in which order -----

  /** An originally masked unit is never unmasked, an originally inactive one
      never started, and pve-guests never started at all. */
  predicate Wanted(plan: Plan, base: Services, step: Step) {
    step.spot in base &&
    match step.op
    case UNMASK => !base[step.spot].masked
    case START => base[step.spot].active && step.spot.unit != plan.table.guests
  }

  function OpAt(o: nat): Operation {
    if o == 0 then UNMASK else START
  }

  /** A place in the four nested loops: phase, participant, unit, operation. */
  datatype Place = Place(p: nat, r: nat, u: nat, o: nat)

  predicate InLoops(plan: Plan, at: Place) {
    at.p < PhaseCount(plan.table) && at.r < |plan.participants| && at.u < |PhaseUnits(plan.table, at.p)| && at.o < 2
  }

  function StepAt(plan: Plan, at: Place): Step
    requires InLoops(plan, at)
  {
    Step(Spot(plan.participants[at.r].node, PhaseUnits(plan.table, at.p)[at.u]), OpAt(at.o))
  }

  predicate NotAfter(a: Place, b: Place) {
    || a.p < b.p
    || (a.p == b.p && (|| a.r < b.r
                       || (a.r == b.r && (|| a.u < b.u
                                          || (a.u == b.u && a.o <= b.o)))))
  }

  /** The steps still to come when the loops stand at the given place. */
  function StepsFrom(plan: Plan, base: Services, p: nat, r: nat, u: nat, o: nat): (steps: seq<Step>)
    decreases PhaseCount(plan.table) - p, |plan.participants| - r,
              (if p < PhaseCount(plan.table) then |PhaseUnits(plan.table, p)| - u else 0), 2 - o
  {
    if p >= PhaseCount(plan.table) then []
    else if r >= |plan.participants| then StepsFrom(plan, base, p + 1, 0, 0, 0)
    else if u >= |PhaseUnits(plan.table, p)| then StepsFrom(plan, base, p, r + 1, 0, 0)
    else if o >= 2 then StepsFrom(plan, base, p, r, u + 1, 0)
    else
      var step := StepAt(plan, Place(p, r, u, o));
      (if Wanted(plan, base, step) then [step] else []) + StepsFrom(plan, base, p, r, u, o + 1)
  }

  function Steps(plan: Plan, base: Services): seq<Step> {
    StepsFrom(plan, base, 0, 0, 0, 0)
  }

  // How the list moves on as each of the loops does.

  lemma {:induction false} NextStep(plan: Plan, base: Services, at: Place)
    requires InLoops(plan, at)
    ensures StepsFrom(plan, base, at.p, at.r, at.u, at.o)
            == (if Wanted(plan, base, StepAt(plan, at)) then [StepAt(plan, at)] else [])
               + StepsFrom(plan, base, at.p, at.r, at.u, at.o + 1)
  {}

  lemma {:induction false} NextUnit(plan: Plan, base: Services, p: nat, r: nat, u: nat)
    requires InLoops(plan, Place(p, r, u, 0))
    ensures StepsFrom(plan, base, p, r, u, 2) == StepsFrom(plan, base, p, r, u + 1, 0)
  {}

  lemma {:induction false} NextRow(plan: Plan, base: Services, p: nat, r: nat)
    requires p < PhaseCount(plan.table) && r < |plan.participants|
    ensures StepsFrom(plan, base, p, r, |PhaseUnits(plan.table, p)|, 0) == StepsFrom(plan, base, p, r + 1, 0, 0)
  {}

  lemma {:induction false} NextPhase(plan: Plan, base: Services, p: nat)
    requires p < PhaseCount(plan.table)
    ensures StepsFrom(plan, base, p, |plan.participants|, 0, 0) == StepsFrom(plan, base, p + 1, 0, 0, 0)
  {}

  /** Every remaining step sits at a place the loops have not passed. */
  lemma {:induction false} StepLocated(plan: Plan, base: Services, p: nat, r: nat, u: nat, o: nat, i: nat)
    returns (at: Place)
    requires i < |StepsFrom(plan, base, p, r, u, o)|
    ensures InLoops(plan, at) && NotAfter(Place(p, r, u, o), at)
    ensures StepsFrom(plan, base, p, r, u, o)[i] == StepAt(plan, at)
    ensures Wanted(plan, base, StepAt(plan, at))
    decreases PhaseCount(plan.table) - p, |plan.participants| - r,
              (if p < PhaseCount(plan.table) then |PhaseUnits(plan.table, p)| - u else 0), 2 - o
  {
    if r >= |plan.participants| {
      at := StepLocated(plan, base, p + 1, 0, 0, 0, i);
    } else if u >= |PhaseUnits(plan.table, p)| {
      at := StepLocated(plan, base, p, r + 1, 0, 0, i);
    } else if o >= 2 {
      at := StepLocated(plan, base, p, r, u + 1, 0, i);
    } else {
      var here := Place(p, r, u, o);
      if Wanted(plan, base, StepAt(plan, here)) {
        if i == 0 { at := here; } else { at := StepLocated(plan, base, p, r, u, o + 1, i - 1); }
      } else {
        at := StepLocated(plan, base, p, r, u, o + 1, i);
      }
    }
  }

  /** Conversely, no wanted step ahead of the loops is ever left out. */
  lemma {:induction false} StepPresent(plan: Plan, base: Services, p: nat, r: nat, u: nat, o: nat, at: Place)
    requires InLoops(plan, at) && NotAfter(Place(p, r, u, o), at)
    requires Wanted(plan, base, StepAt(plan, at))
    ensures StepAt(plan, at) in StepsFrom(plan, base, p, r, u, o)
    decreases PhaseCount(plan.table) - p, |plan.participants| - r,
              (if p < PhaseCount(plan.table) then |PhaseUnits(plan.table, p)| - u else 0), 2 - o
  {
    if r >= |plan.participants| {
      StepPresent(plan, base, p + 1, 0, 0, 0, at);
    } else if u >= |PhaseUnits(plan.table, p)| {
      StepPresent(plan, base, p, r + 1, 0, 0, at);
    } else if o >= 2 {
      StepPresent(plan, base, p, r, u + 1, 0, at);
    } else if Place(p, r, u, o) != at {
      StepPresent(plan, base, p, r, u, o + 1, at);
    }
  }

  /** Two steps of the list sit at two places, the earlier one strictly first. */
  lemma {:induction false} StepsAscend(plan: Plan, base: Services, p: nat, r: nat, u: nat, o: nat, i: nat, j: nat)
    returns (a: Place, b: Place)
    requires i < j < |StepsFrom(plan, base, p, r, u, o)|
    ensures InLoops(plan, a) && InLoops(plan, b) && NotAfter(a, b) && a != b
    ensures StepsFrom(plan, base, p, r, u, o)[i] == StepAt(plan, a)
    ensures StepsFrom(plan, base, p, r, u, o)[j] == StepAt(plan, b)
    decreases PhaseCount(plan.table) - p, |plan.participants| - r,
              (if p < PhaseCount(plan.table) then |PhaseUnits(plan.table, p)| - u else 0), 2 - o
  {
    if r >= |plan.participants| {
      a, b := StepsAscend(plan, base, p + 1, 0, 0, 0, i, j);
    } else if u >= |PhaseUnits(plan.table, p)| {
      a, b := StepsAscend(plan, base, p, r + 1, 0, 0, i, j);
    } else if o >= 2 {
      a, b := StepsAscend(plan, base, p, r, u + 1, 0, i, j);
    } else if !Wanted(plan, base, StepAt(plan, Place(p, r, u, o))) {
      a, b := StepsAscend(plan, base, p, r, u, o + 1, i, j);
    } else if i == 0 {
      a := Place(p, r, u, o);
      b := StepLocated(plan, base, p, r, u, o + 1, j - 1);
    } else {
      a, b := StepsAscend(plan, base, p, r, u, o + 1, i - 1, j - 1);
    }
  }

  /** With distinct nodes and units a step has one place only. */
  lemma {:induction false} PlaceUnique(plan: Plan, a: Place, b: Place)
    requires InLoops(plan, a) && InLoops(plan, b)
    requires ValidTable(plan.table)
    requires forall i, j | 0 <= i < j < |plan.participants| :: plan.participants[i].node != plan.participants[j].node
    requires StepAt(plan, a) == StepAt(plan, b)
    ensures a == b
  {
    assert plan.participants[a.r].node == plan.participants[b.r].node;
    assert PhaseUnits(plan.table, a.p)[a.u] == PhaseUnits(plan.table, b.p)[b.u];
  }

  /** The step list has no repetition. */
  lemma {:induction false} StepsDistinct(plan: Plan, base: Services, now: int, i: nat, j: nat)
    requires ValidPlan(plan, now)
    requires i < j < |Steps(plan, base)|
    ensures Steps(plan, base)[i] != Steps(plan, base)[j]
  {
    var a, b := StepsAscend(plan, base, 0, 0, 0, 0, i, j);
    if StepAt(plan, a) == StepAt(plan, b) { PlaceUnique(plan, a, b); }
  }

  /** If two wanted steps sit at a and b, a before b, then the list has a's step
      at a smaller index than b's. */
  lemma {:induction false} OrderFollowsPlaces(plan: Plan, base: Services, now: int, a: Place, j: nat, b: Place) returns (i: nat)
    requires ValidPlan(plan, now)
    requires InLoops(plan, a) && InLoops(plan, b) && NotAfter(a, b) && a != b
    requires Wanted(plan, base, StepAt(plan, a))
    requires j < |Steps(plan, base)| && Steps(plan, base)[j] == StepAt(plan, b)
    ensures i < j && Steps(plan, base)[i] == StepAt(plan, a)
  {
    StepPresent(plan, base, 0, 0, 0, 0, a);
    i :| 0 <= i < |Steps(plan, base)| && Steps(plan, base)[i] == StepAt(plan, a);
    if i == j {
      PlaceUnique(plan, a, b);
    } else if j < i {
      var b', a' := StepsAscend(plan, base, 0, 0, 0, 0, j, i);
      PlaceUnique(plan, a, a');
      PlaceUnique(plan, b, b');
    }
  }

  /** The phase of a unit in the restoration order, one past the end if none. */
  function PhaseOf(t: Table, unit: string): (p: nat)
    ensures p <= PhaseCount(t)
    ensures p < PhaseCount(t) ==> unit in PhaseUnits(t, p)
    ensures forall q | 0 <= q < p :: unit !in PhaseUnits(t, q)
  {
    FirstPhase(t, unit, 0)
  }

  function FirstPhase(t: Table, unit: string, from: nat): (p: nat)
    requires from <= PhaseCount(t)
    requires forall q | 0 <= q < from :: unit !in PhaseUnits(t, q)
    ensures from <= p <= PhaseCount(t)
    ensures p < PhaseCount(t) ==> unit in PhaseUnits(t, p)
    ensures forall q | 0 <= q < p :: unit !in PhaseUnits(t, q)
    decreases PhaseCount(t) - from
  {
    if from == PhaseCount(t) then from
    else if unit in PhaseUnits(t, from) then from
    else FirstPhase(t, unit, from + 1)
  }

  /** Phases never step back along the list. */
  lemma {:induction false} PhasesAscend(plan: Plan, base: Services, now: int, i: nat, j: nat)
    requires ValidPlan(plan, now)
    requires i < j < |Steps(plan, base)|
    ensures PhaseOf(plan.table, Steps(plan, base)[i].spot.unit) <= PhaseOf(plan.table, Steps(plan, base)[j].spot.unit)
  {
    var a, b := StepsAscend(plan, base, 0, 0, 0, 0, i, j);
    PhaseOfPlace(plan, a);
    PhaseOfPlace(plan, b);
  }

  lemma {:induction false} PhaseOfPlace(plan: Plan, a: Place)
    requires ValidTable(plan.table) && InLoops(plan, a)
    ensures PhaseOf(plan.table, StepAt(plan, a).spot.unit) == a.p
  {
    var unit := PhaseUnits(plan.table, a.p)[a.u];
    var p := PhaseOf(plan.table, unit);
    assert unit in PhaseUnits(plan.table, a.p);
    var v :| 0 <= v < |PhaseUnits(plan.table, p)| && PhaseUnits(plan.table, p)[v] == unit;
  }

  /** Where a unit the barrier masks sits in the table. */
  lemma {:induction false} PlaceOfUnit(t: Table, unit: string) returns (p: nat, u: nat)
    requires unit in BarrierMasks(t)
    ensures p < PhaseCount(t) && u < |PhaseUnits(t, p)| && PhaseUnits(t, p)[u] == unit
    ensures unit == t.guests || p < |t.phases|
  {
    if unit == t.guests {
      p, u := |t.phases|, 0;
    } else {
      p, u :| 0 <= p < |t.phases| && 0 <= u < |t.phases[p]| && t.phases[p][u] == unit;
    }
  }

  /** A wanted step on a unit the barrier masks is in the list, whatever the
      table and the cohort. */
  lemma {:induction false} WantedIsListed(plan: Plan, base: Services, now: int, step: Step)
    requires ValidPlan(plan, now)
    requires base.Keys == Spots(plan) && Wanted(plan, base, step)
    requires step.spot.unit in BarrierMasks(plan.table)
    ensures step in Steps(plan, base)
  {
    var r :| 0 <= r < |plan.participants| && plan.participants[r].node == step.spot.node;
    var p, u := PlaceOfUnit(plan.table, step.spot.unit);
    var at := Place(p, r, u, if step.op == UNMASK then 0 else 1);
    assert StepAt(plan, at) == step;
    StepPresent(plan, base, 0, 0, 0, 0, at);
  }

  /** A listed step is wanted, on a unit the barrier masks, of a participant. */
  lemma {:induction false} ListedIsWanted(plan: Plan, base: Services, now: int, i: nat)
    requires ValidPlan(plan, now)
    requires i < |Steps(plan, base)|
    ensures Wanted(plan, base, Steps(plan, base)[i])
    ensures Steps(plan, base)[i].spot.unit in BarrierMasks(plan.table)
    ensures Steps(plan, base)[i].spot in Spots(plan)
  {
    var at := StepLocated(plan, base, 0, 0, 0, 0, i);
    var unit := PhaseUnits(plan.table, at.p)[at.u];
    if at.p < |plan.table.phases| { assert unit in Targets(plan.table); }
    assert unit in Units(plan.table);
    assert Spot(plan.participants[at.r].node, unit) in Spots(plan);
  }

  /** The phases are the table's, in its order, and then pve-guests alone. */
  lemma {:induction false} PhasesAre(t: Table)
    ensures PhaseCount(t) == |t.phases| + 1 && PhaseUnits(t, |t.phases|) == [t.guests]
    ensures forall p | 0 <= p < |t.phases| :: PhaseUnits(t, p) == t.phases[p]
    ensures forall u :: u in Targets(t) <==> exists p | 0 <= p < |t.phases| :: u in t.phases[p]
    ensures BarrierMasks(t) == Targets(t) + {t.guests} && Units(t) == Targets(t) + t.preserved
  {
    forall u ensures u in Targets(t) <==> exists p | 0 <= p < |t.phases| :: u in t.phases[p] {
      if p :| 0 <= p < |t.phases| && u in t.phases[p] {
        var k :| 0 <= k < |t.phases[p]| && t.phases[p][k] == u;
      }
      if u in Targets(t) {
        var p, k :| 0 <= p < |t.phases| && 0 <= k < |t.phases[p]| && u == t.phases[p][k];
        assert u in t.phases[p];
      }
    }
  }

  /** What the restoration consists of, and nothing else: UNMASK of every barrier unit
      that was not masked, START of every target that was active. */
  lemma {:induction false} StepsAre(plan: Plan, base: Services, now: int, step: Step)
    requires ValidPlan(plan, now) && base.Keys == Spots(plan)
    ensures step in Steps(plan, base)
            <==> && step.spot in base && (step.spot.unit in Targets(plan.table) || step.spot.unit == plan.table.guests)
                 && (step.op == UNMASK ==> !base[step.spot].masked)
                 && (step.op == START ==> base[step.spot].active && step.spot.unit in Targets(plan.table))
  {
    hide Targets;
    if step in Steps(plan, base) {
      var i :| 0 <= i < |Steps(plan, base)| && Steps(plan, base)[i] == step;
      ListedIsWanted(plan, base, now, i);
    }
    if step.spot in base && Wanted(plan, base, step) && step.spot.unit in BarrierMasks(plan.table) {
      WantedIsListed(plan, base, now, step);
    }
  }

  /** What an admitted plan guarantees: a window of half an hour at most that has not
      run out, distinct nodes, and a table that names each unit once. */
  lemma {:induction false} PlanSays(plan: Plan, now: int)
    requires ValidPlan(plan, now)
    ensures plan.issuedAt <= now <= plan.expiresAt && 0 < plan.expiresAt - plan.issuedAt <= 1800
    ensures |plan.participants| > 0 && |plan.table.phases| > 0 && |plan.table.phases[0]| > 0
    ensures forall i, k | 0 <= i < k < |plan.participants| :: plan.participants[i].node != plan.participants[k].node
    ensures forall p, u, q, v | 0 <= p < |plan.table.phases| && 0 <= u < |plan.table.phases[p]|
                                && 0 <= q < |plan.table.phases| && 0 <= v < |plan.table.phases[q]|
                                && plan.table.phases[p][u] == plan.table.phases[q][v] :: p == q && u == v
    ensures forall u | u in Targets(plan.table) :: u !in plan.table.preserved && u != plan.table.guests
    ensures plan.table.guests in plan.table.preserved && plan.table.guests in plan.table.entry
    ensures forall u | u in plan.table.entry :: u in Targets(plan.table) || u == plan.table.guests
    ensures forall u | u in plan.table.essential || u in plan.table.sanEssential :: u in plan.table.preserved
  {
    forall p, u, q, v | 0 <= p < |plan.table.phases| && 0 <= u < |plan.table.phases[p]|
                        && 0 <= q < |plan.table.phases| && 0 <= v < |plan.table.phases[q]|
                        && plan.table.phases[p][u] == plan.table.phases[q][v]
      ensures p == q && u == v
    {
      assert PhaseUnits(plan.table, p)[u] == PhaseUnits(plan.table, q)[v];
    }
  }

  /** UNMASK of a spot comes before START of the same spot. */
  lemma {:induction false} UnmaskPrecedesStart(plan: Plan, base: Services, now: int, j: nat) returns (i: nat)
    requires ValidPlan(plan, now)
    requires j < |Steps(plan, base)| && Steps(plan, base)[j].op == START
    requires Wanted(plan, base, Step(Steps(plan, base)[j].spot, UNMASK))
    ensures i < j && Steps(plan, base)[i] == Step(Steps(plan, base)[j].spot, UNMASK)
  {
    var b := StepLocated(plan, base, 0, 0, 0, 0, j);
    i := OrderFollowsPlaces(plan, base, now, b.(o := 0), j, b);
  }

  /** Every wanted step of an earlier phase, on any node, comes before a step of
      a later phase. */
  lemma {:induction false} EarlierPhasePrecedes(plan: Plan, base: Services, now: int, step: Step, j: nat) returns (i: nat)
    requires ValidPlan(plan, now)
    requires base.Keys == Spots(plan) && Wanted(plan, base, step)
    requires step.spot.unit in BarrierMasks(plan.table)
    requires j < |Steps(plan, base)|
    requires PhaseOf(plan.table, step.spot.unit) < PhaseOf(plan.table, Steps(plan, base)[j].spot.unit)
    ensures i < j && Steps(plan, base)[i] == step
  {
    WantedIsListed(plan, base, now, step);
    i :| 0 <= i < |Steps(plan, base)| && Steps(plan, base)[i] == step;
    if j < i { PhasesAscend(plan, base, now, j, i); }
  }

  // ----- how long the list can get -----

  function UnitCount(phases: seq<seq<string>>, from: nat): nat
    decreases |phases| - from
  {
    if from >= |phases| then 0 else |phases[from]| + UnitCount(phases, from + 1)
  }

  /** One participant adds at most two steps a unit. */
  lemma {:induction false} RowBound(plan: Plan, base: Services, p: nat, r: nat, u: nat, o: nat)
    requires p < PhaseCount(plan.table) && r < |plan.participants| && u <= |PhaseUnits(plan.table, p)| && o <= 2
    requires u == |PhaseUnits(plan.table, p)| ==> o == 0
    ensures |StepsFrom(plan, base, p, r, u, o)|
            <= 2 * (|PhaseUnits(plan.table, p)| - u) - o + |StepsFrom(plan, base, p, r + 1, 0, 0)|
    decreases |PhaseUnits(plan.table, p)| - u, 2 - o
  {
    if u < |PhaseUnits(plan.table, p)| {
      if o >= 2 { RowBound(plan, base, p, r, u + 1, 0); } else { RowBound(plan, base, p, r, u, o + 1); }
    }
  }

  lemma {:induction false} PhaseBound(plan: Plan, base: Services, p: nat, r: nat)
    requires p < PhaseCount(plan.table) && r <= |plan.participants|
    ensures |StepsFrom(plan, base, p, r, 0, 0)|
            <= Times(|plan.participants| - r, 2 * |PhaseUnits(plan.table, p)|) + |StepsFrom(plan, base, p + 1, 0, 0, 0)|
    decreases |plan.participants| - r
  {
    if r < |plan.participants| {
      RowBound(plan, base, p, r, 0, 0);
      PhaseBound(plan, base, p, r + 1);
    }
  }

  /** pve-guests is never started, so its phase adds one step a node at most. */
  lemma {:induction false} GuestPhaseBound(plan: Plan, base: Services, r: nat)
    requires r <= |plan.participants|
    ensures |StepsFrom(plan, base, |plan.table.phases|, r, 0, 0)| <= |plan.participants| - r
    decreases |plan.participants| - r
  {
    var p := |plan.table.phases|;
    if r < |plan.participants| {
      GuestPhaseBound(plan, base, r + 1);
      assert !Wanted(plan, base, StepAt(plan, Place(p, r, 0, 1)));
      assert StepsFrom(plan, base, p, r, 0, 1) == StepsFrom(plan, base, p, r, 0, 2);
    } else {
      assert StepsFrom(plan, base, p, r, 0, 0) == StepsFrom(plan, base, p + 1, 0, 0, 0);
    }
  }

  /** k times m, by repeated addition. */
  function Times(k: nat, m: nat): nat {
    if k == 0 then 0 else m + Times(k - 1, m)
  }

  lemma {:induction false} TimesAdds(k: nat, m: nat, n: nat)
    ensures Times(k, m) + Times(k, n) == Times(k, m + n)
  {
    if k > 0 { TimesAdds(k - 1, m, n); }
  }

  lemma {:induction false} TimesOne(k: nat)
    ensures Times(k, 1) == k
  {
    if k > 0 { TimesOne(k - 1); }
  }

  /** At most two steps a node for each unit of the table, and one for pve-guests. */
  lemma {:induction false} StepsBound(plan: Plan, base: Services, p: nat)
    requires p <= |plan.table.phases|
    ensures |StepsFrom(plan, base, p, 0, 0, 0)| <= Times(|plan.participants|, 2 * UnitCount(plan.table.phases, p) + 1)
    decreases |plan.table.phases| - p
  {
    var n := |plan.participants|;
    if p == |plan.table.phases| {
      GuestPhaseBound(plan, base, 0);
      TimesOne(n);
    } else {
      PhaseBound(plan, base, p, 0);
      StepsBound(plan, base, p + 1);
      TimesAdds(n, 2 * |plan.table.phases[p]|, 2 * UnitCount(plan.table.phases, p + 1) + 1);
    }
  }

  // ----- the shipped table -----

  const PHASES: seq<seq<string>> := [
    ["qmeventd.service", "pvedaemon.service", "pvestatd.service"],
    ["pveproxy.service", "spiceproxy.service"],
    ["pve-ha-crm.service", "pve-ha-lrm.service"],
    ["pvescheduler.service"]]

  const SHIPPED := Table(
    PHASES, "pve-guests.service",
    {"corosync.service", "multipathd.service", "pve-cluster.service", "pve-guests.service",
     "pve-sharedlvmthin-thin-guard.service"},
    {"pveproxy.service", "spiceproxy.service", "pvescheduler.service", "pve-guests.service"},
    {"corosync.service", "pve-cluster.service"}, {"multipathd.service"})

  /** With the shipped phase table and four participants a restoration has at
      most 68 steps, inside the subsystem server's limit of 72. */
  lemma {:induction false} ShippedStepsFit(plan: Plan, base: Services)
    requires plan.table == SHIPPED && |plan.participants| == 4
    ensures |Steps(plan, base)| <= 68 <= 72
  {
    StepsBound(plan, base, 0);
    assert UnitCount(PHASES, 4) == 0;
    assert UnitCount(PHASES, 3) == 1;
    assert UnitCount(PHASES, 2) == 3;
    assert UnitCount(PHASES, 1) == 5;
    assert UnitCount(PHASES, 0) == 8;
    assert Times(4, 17) == 17 + Times(3, 17) == 34 + Times(2, 17) == 51 + Times(1, 17) == 68;
  }

  /** The units the shipped table lets the barrier mask, in restoration order. */
  const MASKED := ["qmeventd.service", "pvedaemon.service", "pvestatd.service", "pveproxy.service", "spiceproxy.service",
                   "pve-ha-crm.service", "pve-ha-lrm.service", "pvescheduler.service", "pve-guests.service"]

  function FirstOf(p: nat): nat {
    if p == 0 then 0 else if p == 1 then 3 else if p == 2 then 5 else if p == 3 then 7 else 8
  }

  lemma {:induction false} ShippedUnitAt(p: nat, u: nat)
    requires p < PhaseCount(SHIPPED) && u < |PhaseUnits(SHIPPED, p)|
    ensures FirstOf(p) + u < FirstOf(p + 1) + (if p == 4 then 1 else 0) <= 9
    ensures PhaseUnits(SHIPPED, p)[u] == MASKED[FirstOf(p) + u]
  {}

  /** Length, fourth and eighth letter tell the nine names apart. */
  function Tag(s: string): (int, char, char)
    requires |s| > 7
  {
    (|s|, s[3], s[7])
  }

  lemma {:induction false} MaskedDiffer(i: nat, j: nat)
    requires i < 9 && j < 9 && MASKED[i] == MASKED[j]
    ensures i == j
  {
    assert Tag(MASKED[i]) == Tag(MASKED[j]);
  }

  lemma {:induction false} ShippedUnitsDiffer(p: nat, u: nat, q: nat, v: nat)
    requires p < PhaseCount(SHIPPED) && u < |PhaseUnits(SHIPPED, p)|
    requires q < PhaseCount(SHIPPED) && v < |PhaseUnits(SHIPPED, q)|
    requires PhaseUnits(SHIPPED, p)[u] == PhaseUnits(SHIPPED, q)[v]
    ensures p == q && u == v
  {
    hide PhaseUnits;
    ShippedUnitAt(p, u);
    ShippedUnitAt(q, v);
    MaskedDiffer(FirstOf(p) + u, FirstOf(q) + v);
  }

  lemma {:induction false} ShippedTableIsValid()
    ensures ValidTable(SHIPPED)
  {
    hide Targets, PhaseUnits;
    ShippedTargets();
    forall p, u, q, v | 0 <= p < PhaseCount(SHIPPED) && 0 <= u < |PhaseUnits(SHIPPED, p)|
                     && 0 <= q < PhaseCount(SHIPPED) && 0 <= v < |PhaseUnits(SHIPPED, q)|
                     && PhaseUnits(SHIPPED, p)[u] == PhaseUnits(SHIPPED, q)[v]
      ensures p == q && u == v
    {
      ShippedUnitsDiffer(p, u, q, v);
    }
  }

  lemma {:induction false} ShippedTargets()
    ensures Targets(SHIPPED) == {"qmeventd.service", "pvedaemon.service", "pvestatd.service", "pveproxy.service",
      "spiceproxy.service", "pve-ha-crm.service", "pve-ha-lrm.service", "pvescheduler.service"}
  {
    assert Targets(SHIPPED) == {"qmeventd.service", "pvedaemon.service", "pvestatd.service", "pveproxy.service",
      "spiceproxy.service", "pve-ha-crm.service", "pve-ha-lrm.service", "pvescheduler.service"} by {
      assert PHASES[0][0] == "qmeventd.service" && PHASES[0][1] == "pvedaemon.service" && PHASES[0][2] == "pvestatd.service";
      assert PHASES[1][0] == "pveproxy.service" && PHASES[1][1] == "spiceproxy.service";
      assert PHASES[2][0] == "pve-ha-crm.service" && PHASES[2][1] == "pve-ha-lrm.service";
      assert PHASES[3][0] == "pvescheduler.service";
    }
  }
}
