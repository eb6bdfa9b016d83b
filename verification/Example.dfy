/** A cohort of two nodes that is held and restored from beginning to end: pve-guests
    active on one of them, targets that run, are idle or were masked before. */
module Example {
  import opened Common
  import opened RestorePlan
  import opened ServiceWorld
  import opened Records
  import opened Grants
  import opened Progress
  import opened Launch
  import Cluster

  const UNITS := Table([["a"], ["c"]], "g", {"g"}, {"a", "g"}, {}, {})
  const COHORT := Plan("t", [Participant("m", "b0", SAN, "p0", "q0"), Participant("n", "b1", CONTROL_ONLY, "p1", "q1")],
                       UNITS, "s", "s2", "w", 0, 1800)

  const RUNNING := Service(true, false, Running)
  const IDLE := Service(false, false, Dead)
  const MASKED_IDLE := Service(false, true, Dead)

  const BEFORE: Services := map[
    Spot("m", "a") := RUNNING, Spot("m", "c") := IDLE, Spot("m", "g") := Service(true, false, Exited),
    Spot("n", "a") := MASKED_IDLE, Spot("n", "c") := RUNNING, Spot("n", "g") := IDLE]

  const DURING: Services := map[
    Spot("m", "a") := MASKED_IDLE, Spot("m", "c") := MASKED_IDLE, Spot("m", "g") := Service(true, true, Exited),
    Spot("n", "a") := MASKED_IDLE, Spot("n", "c") := MASKED_IDLE, Spot("n", "g") := MASKED_IDLE]

  const PLAIN := Source(None, "v", Effective(false, "e"))
  const LINKED := Source(Some("/dev/null"), "v", Effective(true, "x"))

  const SOURCES_BEFORE: Sources := map[
    Spot("m", "a") := PLAIN, Spot("m", "c") := PLAIN, Spot("m", "g") := PLAIN,
    Spot("n", "a") := LINKED, Spot("n", "c") := PLAIN, Spot("n", "g") := PLAIN]

  const SOURCES_DURING: Sources := map[
    Spot("m", "a") := LINKED, Spot("m", "c") := LINKED, Spot("m", "g") := LINKED,
    Spot("n", "a") := LINKED, Spot("n", "c") := LINKED, Spot("n", "g") := LINKED]

  const SOUND := Evidence(COHORT, 7, "c", BEFORE, SOURCES_BEFORE, DURING, SOURCES_DURING, Proof(COHORT, "c", "a"),
                          map["m" := ("authorization", "receipt")], 5, 35)

  /** Phase by phase, node by node: what was masked stays so, what was idle is only
      unmasked, and pve-guests comes last and is not started. */
  const STEPS := [
    Step(Spot("m", "a"), UNMASK), Step(Spot("m", "a"), START), Step(Spot("m", "c"), UNMASK),
    Step(Spot("n", "c"), UNMASK), Step(Spot("n", "c"), START), Step(Spot("m", "g"), UNMASK), Step(Spot("n", "g"), UNMASK)]

  lemma {:induction false} UnitsAre()
    ensures Targets(UNITS) == {"a", "c"} && BarrierMasks(UNITS) == Units(UNITS) == {"a", "c", "g"}
    ensures PhaseCount(UNITS) == 3 && PhaseUnits(UNITS, 0) == ["a"] && PhaseUnits(UNITS, 1) == ["c"] && PhaseUnits(UNITS, 2) == ["g"]
  {
    PhasesAre(UNITS);
    assert UNITS.phases[0] == ["a"] && UNITS.phases[1] == ["c"];
    assert "a" in UNITS.phases[0] && "c" in UNITS.phases[1];
  }

  lemma {:induction false} UnitsAreValid()
    ensures ValidTable(UNITS)
  {
    hide Targets, BarrierMasks, Units, PhaseUnits;
    UnitsAre();
    assert PhaseUnits(UNITS, 0)[0] == "a" && PhaseUnits(UNITS, 1)[0] == "c" && PhaseUnits(UNITS, 2)[0] == "g";
  }

  lemma {:induction false} SpotsAre()
    ensures Spots(COHORT) == BEFORE.Keys
  {
    hide Units;
    UnitsAre();
    assert COHORT.participants[0].node == "m" && COHORT.participants[1].node == "n";
    forall spot | spot in BEFORE ensures spot in Spots(COHORT) {
      assert spot == Spot(COHORT.participants[if spot.node == "m" then 0 else 1].node, spot.unit);
    }
  }

  lemma {:induction false} PlanIsValid()
    ensures ValidPlan(COHORT, 7)
  {
    hide ValidTable;
    UnitsAreValid();
  }

  lemma {:induction false} BaselineIsValid()
    ensures ValidServices(COHORT, BEFORE, true)
  {
    hide Targets, Spots;
    UnitsAre();
    SpotsAre();
  }

  lemma {:induction false} HeldIs()
    ensures Held(COHORT, BEFORE) == DURING
  {
    hide Targets;
    UnitsAre();
    forall spot | spot in BEFORE ensures Held(COHORT, BEFORE)[spot] == DURING[spot] {
      HeldShows(COHORT, BEFORE, spot);
    }
    HeldShows(COHORT, BEFORE, Spot("m", "a"));
  }

  lemma {:induction false} SourcesAreValid()
    ensures ValidSources(COHORT, BEFORE, SOURCES_BEFORE) && ValidSources(COHORT, DURING, SOURCES_DURING)
    ensures SourcesPreserved(BEFORE, SOURCES_BEFORE, SOURCES_DURING)
  {
    hide ValidSources, SourcesPreserved;
    SourcesFitBefore();
    SourcesFitDuring();
    LinksArePreserved();
  }

  lemma {:induction false} SourcesFitBefore()
    ensures ValidSources(COHORT, BEFORE, SOURCES_BEFORE)
  {}

  lemma {:induction false} SourcesFitDuring()
    ensures ValidSources(COHORT, DURING, SOURCES_DURING)
  {}

  lemma {:induction false} LinksArePreserved()
    ensures SourcesPreserved(BEFORE, SOURCES_BEFORE, SOURCES_DURING)
  {}

  lemma {:induction false} EvidenceIsSound()
    ensures EvidenceOk(SOUND)
  {
    hide ValidPlan, ValidServices, ValidSources, SourcesPreserved, Held;
    PlanIsValid();
    BaselineIsValid();
    HeldIs();
    SourcesAreValid();
  }

  /** Sound evidence, with pve-guests active and exited, that a run can complete on. */
  lemma {:induction false} SoundCanComplete()
    ensures EvidenceOk(SOUND) && Admissible(SOUND) && CanComplete(SOUND)
    ensures SOUND.base[Spot("m", "g")] == Service(true, false, Exited) && SOUND.base[Spot("m", "a")] == Service(true, false, Running)
  {
    hide EvidenceOk, Admissible;
    EvidenceIsSound();
    SoundIsAdmissible();
    assert UNITS.phases[0][0] == "a" && COHORT.participants[0].node == "m";
  }

  lemma {:induction false} SoundIsAdmissible()
    ensures Admissible(SOUND)
  {
    hide IsNode;
    NodesAre();
  }

  lemma {:induction false} NodesAre()
    ensures IsNode(COHORT, "m") && IsNode(COHORT, "n")
  {
    assert COHORT.participants[0].node == "m" && COHORT.participants[1].node == "n";
  }

  lemma {:induction false} RowSteps(p: nat, r: nat)
    requires p < 3 && r < 2
    ensures var unit, node := if p == 0 then "a" else if p == 1 then "c" else "g", if r == 0 then "m" else "n";
            StepsFrom(COHORT, BEFORE, p, r, 0, 0)
            == (if Wanted(COHORT, BEFORE, Step(Spot(node, unit), UNMASK)) then [Step(Spot(node, unit), UNMASK)] else [])
               + ((if Wanted(COHORT, BEFORE, Step(Spot(node, unit), START)) then [Step(Spot(node, unit), START)] else [])
                  + StepsFrom(COHORT, BEFORE, p, r + 1, 0, 0))
  {
    hide Wanted, StepsFrom;
    UnitsAre();
    NextStep(COHORT, BEFORE, Place(p, r, 0, 0));
    NextStep(COHORT, BEFORE, Place(p, r, 0, 1));
    NextUnit(COHORT, BEFORE, p, r, 0);
    NextRow(COHORT, BEFORE, p, r);
  }

  lemma {:induction false} WantedSteps()
    ensures var on, start := (node: string, unit: string) => Wanted(COHORT, BEFORE, Step(Spot(node, unit), UNMASK)),
                             (node: string, unit: string) => Wanted(COHORT, BEFORE, Step(Spot(node, unit), START));
            && on("m", "a") && on("m", "c") && on("m", "g") && !on("n", "a") && on("n", "c") && on("n", "g")
            && start("m", "a") && !start("m", "c") && !start("m", "g")
            && !start("n", "a") && start("n", "c") && !start("n", "g")
  {}

  lemma {:induction false} StepsAreThese()
    ensures Steps(COHORT, BEFORE) == STEPS
  {
    hide Wanted, StepsFrom;
    WantedSteps();
    UnitsAre();
    RowSteps(0, 0); RowSteps(0, 1);
    RowSteps(1, 0); RowSteps(1, 1);
    RowSteps(2, 0); RowSteps(2, 1);
    NextPhase(COHORT, BEFORE, 0); NextPhase(COHORT, BEFORE, 1); NextPhase(COHORT, BEFORE, 2);
    NoStepsAfter();
    var last := [Step(Spot("m", "g"), UNMASK), Step(Spot("n", "g"), UNMASK)];
    assert StepsFrom(COHORT, BEFORE, 2, 0, 0, 0) == last;
    var middle := [Step(Spot("m", "c"), UNMASK), Step(Spot("n", "c"), UNMASK), Step(Spot("n", "c"), START)];
    assert StepsFrom(COHORT, BEFORE, 1, 0, 0, 0) == middle + last;
    assert StepsFrom(COHORT, BEFORE, 0, 0, 0, 0) == [Step(Spot("m", "a"), UNMASK), Step(Spot("m", "a"), START)] + (middle + last);
  }

  lemma {:induction false} NoStepsAfter()
    ensures StepsFrom(COHORT, BEFORE, 3, 0, 0, 0) == []
  {
    UnitsAre();
  }

  /** The whole run, uncut: seven effects, and everything as it was. */
  method RestoreTheCohort() returns (c: Cluster.Cluster)
    ensures c.services == BEFORE && c.effects == STEPS
    ensures Spot("n", "c") in c.sources && c.sources[Spot("n", "c")] == PLAIN
  {
    hide EvidenceOk, Admissible, CanComplete, Steps;
    SoundCanComplete();
    StepsAreThese();
    c := RunOn(SOUND);
    UnitsAre();
  }

  method RunOn(ev: Evidence) returns (c: Cluster.Cluster)
    requires Admissible(ev) && CanComplete(ev)
    ensures c.services == ev.base && c.effects == Steps(ev.plan, ev.base)
    ensures forall spot | spot in ev.base && !ev.base[spot].masked && spot.unit in BarrierMasks(ev.plan.table) ::
              spot in c.sources && spot in ev.baseSources && c.sources[spot] == ev.baseSources[spot]
  {
    hide EvidenceOk, Admissible, CanComplete, Steps;
    c := new Cluster.Cluster(ev, None);
    var o := c.Run();
  }
}
