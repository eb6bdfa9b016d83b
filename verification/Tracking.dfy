/** How a restoration moves from one durable state to the next, and what the
    prefix inspector knows in each of them. */
module Tracking {
  import opened Common
  import opened RestorePlan
  import opened ServiceWorld
  import opened Records
  import opened Inspector
  import opened Grants
  import opened Progress

  // ----- the three ways a restoration moves -----

  function Recorded(ev: Evidence, w: World, n: nat, k: nat, v: Value): World
    requires n < |AllSteps(ev)|
  {
    w.(journal := w.journal[SlotAt(AllSteps(ev)[n], k) := v])
  }

  lemma {:induction false} StepRecordsLeaveAdmissions(ev: Evidence, j: Journal, step: Step, k: nat, v: Value)
    requires Admitted(ev, j, AnyRequest(ev))
    ensures Admitted(ev, j[SlotAt(step, k) := v], AnyRequest(ev))
  {
    hide Admitted;
    StepRecordsKeepAdmission(ev, j, j[SlotAt(step, k) := v], AnyRequest(ev));
  }

  /** The next record goes in. */
  lemma {:induction false} RecordMoves(ev: Evidence, w: World, n: nat, k: nat, fired: bool, v: Value)
    requires AtStage(ev, w, n, k, fired) && n < |AllSteps(ev)| && k < 7
    requires ValueOk(ev, w.journal, n, k, v) && (k == 4 ==> fired)
    ensures AtStage(ev, Recorded(ev, w, n, k, v), n, k + 1, fired)
  {
    hide EvidenceOk, JournalAt, Admitted, ValueOk, AllSteps;
    StepRecordsLeaveAdmissions(ev, w.journal, AllSteps(ev)[n], k, v);
    Advance(ev, w.journal, n, k, v);
  }

  /** The last record of a step goes in, and the next step's turn has come. */
  lemma {:induction false} LastRecordMoves(ev: Evidence, w: World, n: nat, v: Value)
    requires AtStage(ev, w, n, 7, true) && n < |AllSteps(ev)|
    requires ValueOk(ev, w.journal, n, 7, v)
    ensures AtStage(ev, Recorded(ev, w, n, 7, v), n + 1, 0, false)
  {
    hide EvidenceOk, JournalAt, Admitted, ValueOk, AllSteps;
    StepRecordsLeaveAdmissions(ev, w.journal, AllSteps(ev)[n], 7, v);
    Finish(ev, w.journal, n, v);
  }

  /** What the command does to the world. */
  function Commanded(ev: Evidence, w: World, step: Step): World
    requires step.spot in w.services && step.spot in w.sources && step.spot in ev.baseSources
  {
    w.(services := w.services[step.spot := Effect(step.op, w.services[step.spot])],
       sources := w.sources[step.spot := EffectSource(step.op, w.sources[step.spot], ev.baseSources[step.spot])],
       effects := w.effects + [step])
  }

  lemma {:induction false} UnitInWorld(ev: Evidence, w: World, n: nat, k: nat, fired: bool)
    requires AtStage(ev, w, n, k, fired) && n < |AllSteps(ev)|
    ensures var spot := AllSteps(ev)[n].spot;
            && spot in w.services && spot in w.sources && spot in ev.base && spot in ev.baseSources
            && UnitState(w.services[spot], w.sources[spot]) == (if fired then UnitAfter(ev, n) else UnitBefore(ev, n))
  {
    hide EvidenceOk, JournalAt, Admitted, AllSteps, WorldAt;
    UnitPresent(ev, n);
    if fired {
      WorldMoves(ev, n);
    }
  }

  lemma {:induction false} WorldMoves(ev: Evidence, n: nat)
    requires EvidenceOk(ev) && n < |AllSteps(ev)|
    ensures var step := AllSteps(ev)[n];
            && step.spot in ServicesAt(ev, n) && step.spot in SourcesAt(ev, n) && step.spot in ev.baseSources
            && ServicesAt(ev, n + 1) == ServicesAt(ev, n)[step.spot := Effect(step.op, ServicesAt(ev, n)[step.spot])]
            && SourcesAt(ev, n + 1)
               == SourcesAt(ev, n)[step.spot := EffectSource(step.op, SourcesAt(ev, n)[step.spot], ev.baseSources[step.spot])]
            && UnitAfter(ev, n) == UnitState(ServicesAt(ev, n + 1)[step.spot], SourcesAt(ev, n + 1)[step.spot])
  {
    hide ValidPlan, ValidServices, Steps, DoneSteps, EffectSource, Effect, After;
    UnitPresent(ev, n);
    WorldStep(ev.plan, ev.base, ev.now, n);
    SourcesStep(ev.plan, ev.base, ev.heldSources, ev.baseSources, n);
  }

  /** The effect takes place. */
  lemma {:induction false} EffectMoves(ev: Evidence, w: World, n: nat)
    requires AtStage(ev, w, n, 4, false) && n < |AllSteps(ev)|
    ensures var step := AllSteps(ev)[n];
            && step.spot in w.services && step.spot in w.sources && step.spot in ev.baseSources
            && AtStage(ev, Commanded(ev, w, step), n, 4, true)
  {
    hide EvidenceOk, JournalAt, Admitted, AllSteps, WorldAt, EffectSource, Effect;
    WorldMoves(ev, n);
    assert AllSteps(ev)[..n + 1] == AllSteps(ev)[..n] + [AllSteps(ev)[n]];
  }

  // ----- what the inspector knows -----

  /** The effects it has seen intended and applied are the first m, and of each it
      knows the state it left. */
  ghost predicate AppliedOk(ev: Evidence, st: Inspection, m: nat)
    requires EvidenceOk(ev)
  {
    && m <= |AllSteps(ev)|
    && st.intents.Keys == DoneSteps(ev.plan, ev.base, m) == st.applied.Keys
    && forall i | 0 <= i < m :: AllSteps(ev)[i] in st.applied && st.applied[AllSteps(ev)[i]] == UnitAfter(ev, i)
  }

  /** The inspector's records are the journals as they stand. */
  ghost predicate Follows(ev: Evidence, st: Inspection, w: World) {
    EvidenceOk(ev) && st.records == w.journal && AppliedOk(ev, st, |w.effects|)
  }

  /** As Follows, but an effect has been announced and not yet applied. */
  ghost predicate Announced(ev: Evidence, st: Inspection, w: World, n: nat) {
    && EvidenceOk(ev) && st.records == w.journal && n < |AllSteps(ev)|
    && st.intents.Keys == DoneSteps(ev.plan, ev.base, n) + {AllSteps(ev)[n]}
    && st.applied.Keys == DoneSteps(ev.plan, ev.base, n)
  }

  lemma {:induction false} CompleteHasReceipt(ev: Evidence, j: Journal, n: nat, k: nat, i: nat)
    requires EvidenceOk(ev) && JournalAt(ev, j, n, k) && i < n
    ensures Local(AllSteps(ev)[i], DONE) in j
  {
    hide EvidenceOk, Staged, Clean, Steps, RequestList, RecordOk, Rows;
    RequestSteps(ev);
    assert StepComplete(ev, j, RequestList(ev, ev.proof), i, ev.now);
  }

  /** Where records and journals agree, at most the pending step's effect is
      unaccounted for. */
  lemma {:induction false} UnknownIsPending(ev: Evidence, w: World, n: nat, k: nat, fired: bool, st: Inspection)
    requires AtStage(ev, w, n, k, fired) && st.records == w.journal
    requires st.intents.Keys <= DoneSteps(ev.plan, ev.base, n) + (if n < |AllSteps(ev)| then {AllSteps(ev)[n]} else {})
    ensures |UnknownEffects(st)| <= 1
  {
    hide EvidenceOk, JournalAt, Admitted, Steps;
    var pending := if n < |AllSteps(ev)| then {AllSteps(ev)[n]} else {};
    forall step | step in UnknownEffects(st) ensures step in pending {
      if step in DoneSteps(ev.plan, ev.base, n) {
        var i :| 0 <= i < n && AllSteps(ev)[i] == step;
        CompleteHasReceipt(ev, w.journal, n, k, i);
      }
    }
    AtMostOne(UnknownEffects(st), pending);
  }

  lemma {:induction false} AtMostOne<T>(s: set<T>, t: set<T>)
    requires s <= t && |t| <= 1
    ensures |s| <= 1
  {
    if s != {} {
      var x :| x in s;
      assert |t - {x}| == 0;
      assert s == {x};
    }
  }

  lemma {:induction false} FollowingBoundsUnknown(ev: Evidence, w: World, n: nat, k: nat, fired: bool, st: Inspection)
    requires AtStage(ev, w, n, k, fired) && Follows(ev, st, w)
    ensures |UnknownEffects(st)| <= 1
  {
    hide EvidenceOk, JournalAt, Admitted, Steps;
    if fired { DoneStepsGrow(ev.plan, ev.base, n); }
    UnknownIsPending(ev, w, n, k, fired, st);
  }

  /** The inspector's rule for a record of the pending step is met. */
  lemma {:induction false} RecordIsJustified(ev: Evidence, w: World, n: nat, k: nat, fired: bool, v: Value, st: Inspection)
    requires AtStage(ev, w, n, k, fired) && n < |AllSteps(ev)| && k < 8
    requires ValueOk(ev, w.journal, n, k, v) && (k == 4 ==> fired)
    requires Follows(ev, st, w)
    ensures RecordJustified(Recorded(ev, w, n, k, v).journal, st.applied, SlotAt(AllSteps(ev)[n], k), v)
  {
    hide EvidenceOk, JournalAt, Admitted, AllSteps, Req, AppliedOk, IssuanceAt, UnitAfter, ValueOk;
    PendingIsStaged(ev, w, n, k, fired);
    if k == 4 {
      LastApplied(ev, w, n, st);
      ReceiptIsJustified(ev, w.journal, n, v, st.applied);
    } else {
      CopyIsJustified(ev, w.journal, n, k, v, st.applied);
    }
  }

  lemma {:induction false} PendingIsStaged(ev: Evidence, w: World, n: nat, k: nat, fired: bool)
    requires AtStage(ev, w, n, k, fired) && n < |AllSteps(ev)|
    ensures EvidenceOk(ev) && Staged(ev, w.journal, n, k)
    ensures |w.effects| == if fired then n + 1 else n
  {
    hide EvidenceOk, AllSteps, Admitted, CompleteBefore, Clean, Staged;
  }

  lemma {:induction false} LastApplied(ev: Evidence, w: World, n: nat, st: Inspection)
    requires Follows(ev, st, w) && |w.effects| == n + 1 && n < |AllSteps(ev)|
    ensures EvidenceOk(ev) && AllSteps(ev)[n] in st.applied && st.applied[AllSteps(ev)[n]] == UnitAfter(ev, n)
  {
    hide EvidenceOk, AllSteps, UnitAfter, DoneSteps;
  }

  lemma {:induction false} ReceiptIsJustified(ev: Evidence, j: Journal, n: nat, v: Value, applied: map<Step, UnitState>)
    requires EvidenceOk(ev) && n < |AllSteps(ev)| && Staged(ev, j, n, 4) && ValueOk(ev, j, n, 4, v)
    requires AllSteps(ev)[n] in applied && applied[AllSteps(ev)[n]] == UnitAfter(ev, n)
    ensures var slot := SlotAt(AllSteps(ev)[n], 4); RecordJustified(j[slot := v], applied, slot, v)
  {
    hide EvidenceOk, AllSteps, UnitAfter, IssuanceAt, Staged, Req;
    IntentRecord(ev, j, n, 4);
  }

  lemma {:induction false} CopyIsJustified(ev: Evidence, j: Journal, n: nat, k: nat, v: Value, applied: map<Step, UnitState>)
    requires EvidenceOk(ev) && n < |AllSteps(ev)| && k < 8 && k != 4 && Staged(ev, j, n, k) && ValueOk(ev, j, n, k, v)
    ensures var slot := SlotAt(AllSteps(ev)[n], k); RecordJustified(j[slot := v], applied, slot, v)
  {
    hide EvidenceOk, AllSteps, UnitAfter, IssuanceAt, Staged, Req;
    if k == 7 {
      RequestRecord(ev, j, n, k);
      StagedValue(ev, j, n, k, 5);
    }
  }

  /** So is its rule for the effect. */
  lemma {:induction false} EffectIsJustified(ev: Evidence, w: World, n: nat, st: Inspection)
    requires AtStage(ev, w, n, 4, false) && n < |AllSteps(ev)| && Follows(ev, st, w)
    ensures EffectJustified(st, AllSteps(ev)[n], Req(ev, AllSteps(ev)[n]))
  {
    hide EvidenceOk, Admitted, Steps, UnitBefore, UnitAfter, StepComplete, RequestList, IssuanceAt, Staged, RecordOk;
    RequestRecord(ev, w.journal, n, 4);
    GrantRecord(ev, w.journal, n, 4);
    IntentRecord(ev, w.journal, n, 4);
    IssuanceOk(ev, w.journal, n);
    NotYetSeen(ev, n);
  }

  lemma {:induction false} NotYetSeen(ev: Evidence, n: nat)
    requires EvidenceOk(ev) && n < |AllSteps(ev)|
    ensures AllSteps(ev)[n] !in DoneSteps(ev.plan, ev.base, n)
  {
    StepNotYetDone(ev.plan, ev.base, ev.now, n);
  }

  lemma {:induction false} StepOwnerIsKnown(ev: Evidence, n: nat, k: nat)
    requires EvidenceOk(ev) && n < |AllSteps(ev)|
    ensures KnownOwner(ev.plan, SlotAt(AllSteps(ev)[n], k).owner)
    ensures RequestIdentity(ev.plan, Req(ev, AllSteps(ev)[n]))
  {
    hide EvidenceOk, Steps, BootFrom, Units, SourcesAt, ServicesAt;
    UnitPresent(ev, n);
    NodeIsParticipant(ev, AllSteps(ev)[n].spot);
  }

  lemma {:induction false} NodeIsParticipant(ev: Evidence, spot: Spot)
    requires EvidenceOk(ev) && spot in ev.base
    ensures exists r | 0 <= r < |ev.plan.participants| :: spot.node == ev.plan.participants[r].node
  {
    hide ValidPlan;
    assert spot in Spots(ev.plan);
  }

  /** Announcing and then applying the effect keeps the inspector in step. */
  lemma {:induction false} AnnouncedIsAccepted(ev: Evidence, w: World, n: nat, st: Inspection)
    requires AtStage(ev, w, n, 4, false) && n < |AllSteps(ev)| && Follows(ev, st, w)
    ensures var r := Accept(ev.plan, st, EffectBefore(AllSteps(ev)[n], Req(ev, AllSteps(ev)[n])));
            && r.Some? && Announced(ev, r.value, w, n) && r.value.pending == st.pending
            && r.value.intents == st.intents[AllSteps(ev)[n] := Req(ev, AllSteps(ev)[n])] && r.value.applied == st.applied
  {
    hide EvidenceOk, JournalAt, Admitted, Steps, RequestIdentity, EffectJustified;
    EffectIsJustified(ev, w, n, st);
    StepOwnerIsKnown(ev, n, 0);
  }

  lemma {:induction false} AppliedIsAccepted(ev: Evidence, w: World, n: nat, st: Inspection, announced: Inspection)
    requires AtStage(ev, w, n, 4, false) && n < |AllSteps(ev)| && Follows(ev, st, w)
    requires announced.records == st.records && announced.applied == st.applied
    requires announced.intents == st.intents[AllSteps(ev)[n] := Req(ev, AllSteps(ev)[n])]
    ensures AllSteps(ev)[n].spot in w.services && AllSteps(ev)[n].spot in w.sources && AllSteps(ev)[n].spot in ev.baseSources
    ensures var r := Accept(ev.plan, announced, EffectApplied(AllSteps(ev)[n], Req(ev, AllSteps(ev)[n]), UnitAfter(ev, n)));
            && r.Some? && Follows(ev, r.value, Commanded(ev, w, AllSteps(ev)[n])) && r.value.pending == announced.pending
            && AllSteps(ev)[n] in r.value.applied
  {
    hide EvidenceOk, AtStage, Steps, RequestIdentity, UnitAfter, DoneSteps, RequestOf, AllSteps;
    UnitInWorld(ev, w, n, 4, false);
    NotYetSeen(ev, n);
    StepOwnerIsKnown(ev, n, 0);
    EffectCount(ev, w, n, 4, false);
    AppliedGrows(ev, st.intents, st.applied, n);
    RequestStep(ev, n);
  }

  lemma {:induction false} RequestStep(ev: Evidence, n: nat)
    requires n < |AllSteps(ev)|
    ensures StepOf(Req(ev, AllSteps(ev)[n])) == AllSteps(ev)[n]
  {}

  lemma {:induction false} EffectCount(ev: Evidence, w: World, n: nat, k: nat, fired: bool)
    requires AtStage(ev, w, n, k, fired)
    ensures n <= |AllSteps(ev)| && |w.effects| == if fired then n + 1 else n
  {
    hide EvidenceOk, JournalAt, Admitted, AllSteps;
  }

  lemma {:induction false} AppliedGrows(ev: Evidence, intents: map<Step, Request>, applied: map<Step, UnitState>, n: nat)
    requires EvidenceOk(ev) && n < |AllSteps(ev)|
    requires intents.Keys == DoneSteps(ev.plan, ev.base, n) == applied.Keys
    requires forall i | 0 <= i < n :: AllSteps(ev)[i] in applied && applied[AllSteps(ev)[i]] == UnitAfter(ev, i)
    ensures var step := AllSteps(ev)[n];
            var applied' := applied[step := UnitAfter(ev, n)];
            && intents[step := Req(ev, step)].Keys == DoneSteps(ev.plan, ev.base, n + 1) == applied'.Keys
            && forall i | 0 <= i < n + 1 :: AllSteps(ev)[i] in applied' && applied'[AllSteps(ev)[i]] == UnitAfter(ev, i)
  {
    hide EvidenceOk, Steps, UnitAfter, Req;
    DoneStepsGrow(ev.plan, ev.base, n);
    RequestSteps(ev);
  }
}
