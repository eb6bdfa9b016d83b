/** What each stage of a restoration lets its actors find, write and do: the facts
    the methods of the cluster rest on, as statements about values. */
module Stages {
  import opened Common
  import opened RestorePlan
  import opened ServiceWorld
  import opened Records
  import opened Inspector
  import opened Grants
  import opened Progress
  import opened Tracking

  function AcceptNext(plan: Plan, seen: Option<Inspection>, item: Item): Option<Inspection> {
    match seen case None => None case Some(st) => Accept(plan, st, item)
  }

  /** What an inspector knows, its event count aside. */
  function Uncounted(seen: Option<Inspection>): Option<Inspection> {
    match seen case None => None case Some(st) => Some(st.(count := 0))
  }

  lemma {:induction false} CountIsIdle(plan: Plan, seen: Option<Inspection>, item: Item)
    ensures Uncounted(AcceptNext(plan, seen, item)) == Uncounted(AcceptNext(plan, Uncounted(seen), item))
  {}

  /** The three events of one write, as the inspector takes them. */
  lemma {:induction false} WriteIsAccepted(plan: Plan, st: Inspection, slot: Slot, value: Value)
    requires st.pending == map[] && st.count == 0 && slot !in st.records && KnownOwner(plan, slot.owner)
    requires RecordJustified(st.records[slot := value], st.applied, slot, value)
    ensures var announced := st.(pending := map[slot := value]);
            var stored := announced.(records := st.records[slot := value]);
            && Uncounted(AcceptNext(plan, Some(st), JournalItem(BEFORE, slot, plan.tx, slot, value))) == Some(announced)
            && Uncounted(AcceptNext(plan, Some(announced), JournalItem(STORED, slot, plan.tx, slot, value))) == Some(stored)
            && Uncounted(AcceptNext(plan, Some(stored), JournalItem(ACK, slot, plan.tx, slot, value)))
               == Some(stored.(pending := map[]))
  {
    hide KnownOwner, RecordJustified;
    assert map[slot := value] - {slot} == map[];
  }

  ghost predicate InSync(ev: Evidence, view: Option<Inspection>, w: World) {
    view.Some? && view.value.pending == map[] && Follows(ev, view.value, w)
  }

  ghost predicate StoppedIn(ev: Evidence, view: Option<Inspection>, w: World, n: nat) {
    && view.Some? && |UnknownEffects(view.value)| <= 1
    && (AtStage(ev, w, n + 1, 0, false) || exists k: nat, fired: bool :: AtStage(ev, w, n, k, fired))
  }

  lemma {:induction false} SyncMayStop(ev: Evidence, view: Option<Inspection>, w: World, n: nat, k: nat, fired: bool)
    requires AtStage(ev, w, n, k, fired) && InSync(ev, view, w)
    ensures StoppedIn(ev, view, w, n) && (n > 0 && k == 0 ==> StoppedIn(ev, view, w, n - 1))
  {
    hide AtStage, Follows;
    FollowingBoundsUnknown(ev, w, n, k, fired, view.value);
    if k == 0 { NotFiredAtRest(ev, w, n, fired); }
  }

  lemma {:induction false} NotFiredAtRest(ev: Evidence, w: World, n: nat, fired: bool)
    requires AtStage(ev, w, n, 0, fired)
    ensures !fired
  {
    hide JournalAt, Admitted, EvidenceOk;
  }

  /** An inspector whose records are the journals and which has seen no further
      effect may stop too, whatever it has pending. */
  lemma {:induction false} RecordsMayStop(ev: Evidence, before: Option<Inspection>, w: World, view: Option<Inspection>, w': World,
                       n: nat, k: nat, fired: bool)
    requires InSync(ev, before, w) && w'.effects == w.effects
    requires view.Some? && view.value.records == w'.journal
    requires view.value.intents == before.value.intents && view.value.applied == before.value.applied
    requires AtStage(ev, w', n, k, fired)
    ensures StoppedIn(ev, view, w', n) && (n > 0 && k == 0 ==> StoppedIn(ev, view, w', n - 1))
    ensures view.value.pending == map[] ==> InSync(ev, view, w')
  {
    hide AtStage, EvidenceOk, AllSteps, DoneSteps, UnitAfter;
    assert Follows(ev, view.value, w');
    FollowingBoundsUnknown(ev, w', n, k, fired, view.value);
    if k == 0 { NotFiredAtRest(ev, w', n, fired); }
  }

  predicate ReleasePasses(plan: Plan, base: Services, baseSources: Sources, services: Services, sources: Sources) {
    && (forall r | 0 <= r < |plan.participants| :: ValidNode(plan, services, r, false))
    && ReleaseGate(plan, base, services)
    && ValidSources(plan, services, sources)
    && base.Keys <= baseSources.Keys && base.Keys <= sources.Keys
    && forall spot | spot in base :: baseSources[spot].vendor == sources[spot].vendor
  }

  lemma {:induction false} ReleasePassesHere(ev: Evidence, w: World, n: nat, k: nat, fired: bool)
    requires AtStage(ev, w, n, k, fired)
    ensures ReleasePasses(ev.plan, ev.base, ev.baseSources, w.services, w.sources)
    ensures forall r | 0 <= r < |ev.plan.participants| :: ValidNode(ev.plan, w.services, r, false)
  {
    hide JournalAt, Admitted, AllSteps, Steps, ValidPlan, ValidServices, ValidSources, ReleaseGate, WorldAt, SourcesAfter, ValidNode;
    var m := if fired then n + 1 else n;
    WorldEvaluates(ev, m);
    WorldKeys(ev, m);
    SpotsAreNodes(ev.plan);
    CohortIsEveryNode(ev.plan, w.services, false);
  }

  lemma {:induction false} SpotsAreNodes(plan: Plan)
    ensures forall spot | spot in Spots(plan) :: IsNode(plan, spot.node)
  {
    hide Units;
  }

  lemma {:induction false} WorldKeys(ev: Evidence, m: nat)
    requires EvidenceOk(ev) && m <= |AllSteps(ev)|
    ensures ServicesAt(ev, m).Keys == ev.base.Keys == SourcesAt(ev, m).Keys == Spots(ev.plan)
  {
    hide ValidPlan, Steps;
  }

  /** Everything a write of a step's next record needs. */
  lemma {:induction false} StepRecordFits(ev: Evidence, w: World, n: nat, k: nat, fired: bool, v: Value, view: Option<Inspection>)
    requires AtStage(ev, w, n, k, fired) && InSync(ev, view, w)
    requires n < |AllSteps(ev)| && k < 8 && ValueOk(ev, w.journal, n, k, v) && (k == 4 ==> fired)
    ensures var slot := SlotAt(AllSteps(ev)[n], k);
            && slot !in w.journal && KnownOwner(ev.plan, slot.owner) && view.value.records == w.journal
            && RecordJustified(w.journal[slot := v], view.value.applied, slot, v)
            && (if k < 7 then AtStage(ev, Recorded(ev, w, n, k, v), n, k + 1, fired)
                else AtStage(ev, Recorded(ev, w, n, k, v), n + 1, 0, false))
  {
    hide EvidenceOk, AllSteps, ValueOk, Admitted, AppliedOk, RecordJustified, KnownOwner, EffectsAt, CompleteBefore, Clean;
    StepOwnerIsKnown(ev, n, k);
    RecordIsJustified(ev, w, n, k, fired, v, view.value);
    if k < 7 { RecordMoves(ev, w, n, k, fired, v); } else { LastRecordMoves(ev, w, n, v); }
    AbsentRecords(ev, w.journal, n, k);
  }

  /** The announcement of an effect is accepted, and the run may stop there. */
  lemma {:induction false} AnnouncementFits(ev: Evidence, w: World, n: nat, view: Option<Inspection>) returns (a: Inspection)
    requires AtStage(ev, w, n, 4, false) && n < |AllSteps(ev)| && InSync(ev, view, w)
    ensures var step := AllSteps(ev)[n];
            && Uncounted(AcceptNext(ev.plan, view, EffectBefore(step, Req(ev, step)))) == Some(a)
            && StoppedIn(ev, Some(a), w, n)
            && a.records == view.value.records && a.applied == view.value.applied && a.pending == map[]
            && a.intents == view.value.intents[step := Req(ev, step)]
  {
    hide AtStage, EvidenceOk, AllSteps, DoneSteps, Follows, Accept, Req;
    SyncMeansFollowing(ev, view, w);
    AnnouncedIsAccepted(ev, w, n, view.value);
    a := Accept(ev.plan, view.value, EffectBefore(AllSteps(ev)[n], Req(ev, AllSteps(ev)[n]))).value.(count := 0);
    UnknownIsPending(ev, w, n, 4, false, a);
  }

  /** So is its application, and its acknowledgement adds nothing. */
  lemma {:induction false} ApplicationFits(ev: Evidence, w: World, n: nat, view: Option<Inspection>, a: Inspection)
    requires AtStage(ev, w, n, 4, false) && n < |AllSteps(ev)| && InSync(ev, view, w)
    requires a.records == view.value.records && a.applied == view.value.applied && a.pending == map[]
    requires a.intents == view.value.intents[AllSteps(ev)[n] := Req(ev, AllSteps(ev)[n])]
    ensures var step := AllSteps(ev)[n];
            && step.spot in w.services && step.spot in w.sources && step.spot in ev.baseSources
            && var w' := Commanded(ev, w, step);
               var b := Uncounted(AcceptNext(ev.plan, Some(a), EffectApplied(step, Req(ev, step), UnitAfter(ev, n))));
               && InSync(ev, b, w') && StoppedIn(ev, b, w', n) && AtStage(ev, w', n, 4, true)
               && Uncounted(AcceptNext(ev.plan, b, EffectAck(step, 0))) == b
               && UnitState(w'.services[step.spot], w'.sources[step.spot]) == UnitAfter(ev, n)
  {
    hide AtStage, EvidenceOk, AllSteps, DoneSteps, AppliedOk, UnitAfter, Commanded, Req, StoppedIn;
    AppliedIsAccepted(ev, w, n, view.value, a);
    EffectMoves(ev, w, n);
    var step := AllSteps(ev)[n];
    var w' := Commanded(ev, w, step);
    var b := Uncounted(AcceptNext(ev.plan, Some(a), EffectApplied(step, Req(ev, step), UnitAfter(ev, n))));
    SameButCount(ev, Accept(ev.plan, a, EffectApplied(step, Req(ev, step), UnitAfter(ev, n))).value, b.value, w');
    SyncMayStop(ev, b, w', n, 4, true);
    UnitInWorld(ev, w', n, 4, true);
  }

  lemma {:induction false} SameButCount(ev: Evidence, a: Inspection, b: Inspection, w: World)
    requires b == a.(count := 0) && Follows(ev, a, w)
    ensures Follows(ev, b, w)
  {}

  /** The provider's answer for the pending step, and the state once it is given. */
  lemma {:induction false} AuthorizationFits(ev: Evidence, w: World, n: nat, k: nat)
    requires AtStage(ev, w, n, k, false) && n < |AllSteps(ev)| && k in {2, 4}
    ensures EvidenceOk(ev)
    ensures var g := IssuanceAt(ev, w.journal, n);
            && Authorization(ev, Snapshot(w.services, w.sources), w.journal, ev.now, Req(ev, AllSteps(ev)[n]),
                             AfterPackage(ev.plan, AllSteps(ev)[n].spot.node), UnitBefore(ev, n)) == Some(g)
            && (k == 2 ==> AtStage(ev, w.(journal := Publish(w.journal, g)), n, 3, false)
                           && Publish(w.journal, g) != w.journal)
            && (k == 4 ==> Publish(w.journal, g) == w.journal)
            && IssuanceAt(ev, Publish(w.journal, g), n) == g
  {
    hide EvidenceOk, AllSteps, Admitted, JournalAt, Evaluate, Phase, ServerAt, Rows, EffectsAt;
    StageGivesEvidence(ev, w, n, k, false);
    PhasePasses(ev, w.journal, n, k);
    EvaluatePasses(ev, n);
    RequestStep(ev, n);
    ServerRequest(ev, n);
    var g := IssuanceAt(ev, w.journal, n);
    assert Publish(w.journal, g) == w.journal[SlotAt(AllSteps(ev)[n], 2) := VIssuance(g)];
    IssuanceStays(ev, w.journal, n, 2, VIssuance(g));
    if k == 2 {
      RecordMoves(ev, w, n, 2, false, VIssuance(g));
      StagedSlots(ev, w.journal, n, k);
    } else {
      StagedGrant(ev, w.journal, n, k);
    }
  }

  lemma {:induction false} StageGivesEvidence(ev: Evidence, w: World, n: nat, k: nat, fired: bool)
    requires AtStage(ev, w, n, k, fired)
    ensures EvidenceOk(ev) && JournalAt(ev, w.journal, n, k) && Admitted(ev, w.journal, AnyRequest(ev))
    ensures n <= |AllSteps(ev)|
    ensures var m := if fired then n + 1 else n;
            m <= |AllSteps(ev)| && w.services == ServicesAt(ev, m) && w.sources == SourcesAt(ev, m)
  {
    hide EvidenceOk, Admitted, AllSteps, CompleteBefore, Clean, Staged, ServicesAt, SourcesAt;
  }

  lemma {:induction false} ServerRequest(ev: Evidence, n: nat)
    requires EvidenceOk(ev) && n < |AllSteps(ev)|
    ensures ServerAt(ev, n).request == Req(ev, AllSteps(ev)[n])
  {
    hide EvidenceOk, AllSteps, UnitBefore, UnitAfter, Req;
  }

  lemma {:induction false} StagedSlots(ev: Evidence, j: Journal, n: nat, k: nat)
    requires EvidenceOk(ev) && JournalAt(ev, j, n, k) && n < |AllSteps(ev)|
    ensures forall rank | k <= rank < 8 :: SlotAt(AllSteps(ev)[n], rank) !in j
  {
    hide EvidenceOk, AllSteps, CompleteBefore, Clean, ValueOk;
  }

  lemma {:induction false} StagedGrant(ev: Evidence, j: Journal, n: nat, k: nat)
    requires EvidenceOk(ev) && JournalAt(ev, j, n, k) && n < |AllSteps(ev)| && k > 2
    ensures Lookup(j, Local(AllSteps(ev)[n], GRANT)) == Some(VIssuance(IssuanceAt(ev, j, n)))
  {
    hide EvidenceOk, AllSteps, CompleteBefore, Clean, ValueOk, Staged, IssuanceAt;
    GrantRecord(ev, j, n, k);
  }

  lemma {:induction false} IssuanceStays(ev: Evidence, j: Journal, n: nat, k: nat, v: Value)
    requires EvidenceOk(ev) && n < |AllSteps(ev)| && k < 8
    ensures IssuanceAt(ev, j[SlotAt(AllSteps(ev)[n], k) := v], n) == IssuanceAt(ev, j, n)
  {
    hide EvidenceOk, AllSteps, ServerAt, Rows;
    RequestSteps(ev);
    NewRecordApart(ev, j, n, k, v);
    OtherStepsRows(ev, j, j[SlotAt(AllSteps(ev)[n], k) := v], n);
  }

  /** What an executor finds when the pending step reaches it. */
  lemma {:induction false} ExecutorFacts(ev: Evidence, w: World, n: nat)
    requires AtStage(ev, w, n, 2, false) && n < |AllSteps(ev)|
    ensures EvidenceOk(ev) && ValidPlan(ev.plan, ev.now) && ValidServices(ev.plan, ev.base, true)
    ensures ev.issuedAt <= ev.now <= ev.expiresAt && 0 < ev.expiresAt - ev.issuedAt <= 30
    ensures var step := AllSteps(ev)[n];
            && step.spot in ev.base && step.spot in w.services && step.spot in w.sources
            && !ev.base[step.spot].masked && (step.op == START ==> ev.base[step.spot].active)
            && UnitState(w.services[step.spot], w.sources[step.spot]) == UnitBefore(ev, n)
            && Predecessor(ev.plan.table, ev.base[step.spot], w.services[step.spot], step.spot.unit, step.op)
            && Local(step, INTENT) !in w.journal && Local(step, DONE) !in w.journal
  {
    hide JournalAt, Admitted, AllSteps, ValidPlan, ValidServices, ValidSources, Predecessor, UnitBefore, ServicesAt, SourcesAt;
    StageGivesEvidence(ev, w, n, 2, false);
    UnitInWorld(ev, w, n, 2, false);
    StepEvaluates(ev, n);
    StagedSlots(ev, w.journal, n, 2);
    assert SlotAt(AllSteps(ev)[n], 3) == Local(AllSteps(ev)[n], INTENT);
    assert SlotAt(AllSteps(ev)[n], 4) == Local(AllSteps(ev)[n], DONE);
  }

  /** The executor and the boot of a request are those of its node's row. */
  lemma {:induction false} RowFacts(ev: Evidence, request: Request)
    requires ValidPlan(ev.plan, ev.now) && request == Req(ev, StepOf(request))
    ensures forall row | 0 <= row < |ev.plan.participants| && ev.plan.participants[row].node == request.node ::
              && AfterPackage(ev.plan, request.node) == ev.plan.participants[row].afterPackage
              && request.bootId == ev.plan.participants[row].bootId
  {
    hide ValidTable;
    forall row | 0 <= row < |ev.plan.participants| && ev.plan.participants[row].node == request.node
      ensures AfterPackage(ev.plan, request.node) == ev.plan.participants[row].afterPackage
      ensures request.bootId == ev.plan.participants[row].bootId
    {
      PackageIs(ev.plan.participants, row);
      BootIs(ev.plan.participants, row);
    }
  }

  lemma {:induction false} IntentFits(ev: Evidence, w: World, n: nat, intent: LocalIntent, g: Issuance)
    requires EvidenceOk(ev) && n < |AllSteps(ev)| && g == IssuanceAt(ev, w.journal, n)
    requires intent == LocalIntent(Req(ev, AllSteps(ev)[n]), AfterPackage(ev.plan, AllSteps(ev)[n].spot.node),
                                   UnitBefore(ev, n), g.grant, intent.process)
    ensures ValueOk(ev, w.journal, n, 3, VLocalIntent(intent))
  {
    hide EvidenceOk, AllSteps, IssuanceAt, UnitBefore, Req, RecordOk, Rows;
    IssuanceOk(ev, w.journal, n);
  }

  /** What it finds when the effect is done. */
  lemma {:induction false} ExecutedFacts(ev: Evidence, w: World, n: nat, g: Issuance)
    requires AtStage(ev, w, n, 4, true) && n < |AllSteps(ev)| && EvidenceOk(ev)
    requires g == IssuanceAt(ev, w.journal, n)
    ensures var step := AllSteps(ev)[n];
            && step.spot in w.services && step.spot in w.sources
            && var after, before := UnitState(w.services[step.spot], w.sources[step.spot]), UnitBefore(ev, n);
               && after == UnitAfter(ev, n) && !after.service.masked
               && (if step.op == START then after.service.active else after.service.active == before.service.active)
               && after.source == g.grant.after && after.source.vendor == before.source.vendor
               && (step.op == START ==> after.source == before.source)
  {
    hide EvidenceOk, AtStage, AllSteps, IssuanceAt, UnitBefore, RecordOk, Rows, Req;
    UnitInWorld(ev, w, n, 4, true);
    IssuanceOk(ev, w.journal, n);
    AfterMeetsPostcondition(ev, n);
    UnitPresent(ev, n);
  }

  lemma {:induction false} ReceiptFits(ev: Evidence, j: Journal, n: nat, intent: LocalIntent, receipt: Receipt)
    requires EvidenceOk(ev) && n < |AllSteps(ev)|
    requires Lookup(j, Local(AllSteps(ev)[n], INTENT)) == Some(VLocalIntent(intent))
    requires receipt == Receipt(Req(ev, AllSteps(ev)[n]), intent, UnitAfter(ev, n), 0, ev.now, ev.now)
    ensures ValueOk(ev, j, n, 4, VReceipt(receipt))
  {
    hide EvidenceOk, AllSteps, IssuanceAt, UnitAfter, Req;
  }

  /** What the transport finds for a request just intended. */
  lemma {:induction false} DispatchFacts(ev: Evidence, w: World, n: nat)
    requires AtStage(ev, w, n, 1, false) && n < |AllSteps(ev)|
    ensures EvidenceOk(ev)
    ensures var step := AllSteps(ev)[n];
            && TransportSlot(step, false) !in w.journal && TransportSlot(step, true) !in w.journal
            && ReceiptSlot(step) !in w.journal && Central(step, DONE) !in w.journal
            && Lookup(w.journal, Central(step, INTENT)) == Some(VRequest(Req(ev, step)))
  {
    hide EvidenceOk, AllSteps, Admitted, Staged, CompleteBefore, Clean, Req;
    AbsentRecords(ev, w.journal, n, 1);
    RequestRecord(ev, w.journal, n, 1);
  }

  /** What the coordinator may write before and after a dispatch. */
  lemma {:induction false} RequestFits(ev: Evidence, w: World, n: nat)
    requires AtStage(ev, w, n, 0, false) && n < |AllSteps(ev)|
    ensures EvidenceOk(ev)
    ensures ValueOk(ev, w.journal, n, 0, VRequest(Req(ev, AllSteps(ev)[n])))
    ensures AllSteps(ev)[n] !in DoneSteps(ev.plan, ev.base, n)
  {
    hide EvidenceOk, AllSteps, JournalAt, Admitted, IssuanceAt, DoneSteps;
    NotYetSeen(ev, n);
  }

  lemma {:induction false} ConfirmationFits(ev: Evidence, w: World, n: nat)
    requires AtStage(ev, w, n, 7, true) && n < |AllSteps(ev)|
    ensures EvidenceOk(ev) && AllSteps(ev)[n].spot in w.services
    ensures Postcondition(AllSteps(ev)[n].op, w.services[AllSteps(ev)[n].spot])
    ensures ValueOk(ev, w.journal, n, 7, VConfirmed(Req(ev, AllSteps(ev)[n])))
  {
    hide EvidenceOk, AllSteps, JournalAt, Admitted, IssuanceAt, UnitAfter, Postcondition;
    UnitInWorld(ev, w, n, 7, true);
    AfterMeetsPostcondition(ev, n);
  }

  lemma {:induction false} AttemptedGrows(ev: Evidence, n: nat)
    requires n < |AllSteps(ev)|
    ensures DoneSteps(ev.plan, ev.base, n + 1) == DoneSteps(ev.plan, ev.base, n) + {AllSteps(ev)[n]}
  {
    DoneStepsGrow(ev.plan, ev.base, n);
  }

  lemma {:induction false} NextInList(steps: seq<Step>, c: nat, step: Step, rest: seq<Step>)
    requires c <= |steps| && steps[c..] == [step] + rest
    ensures c < |steps| && steps[c] == step && steps[c + 1..] == rest
  {
    assert steps[c] == steps[c..][0];
    assert steps[c + 1..] == steps[c..][1..];
  }

  /** What the coordinator finds on record, and in the world, for step c. */
  lemma {:induction false} StepFacts(ev: Evidence, w: World, n: nat, k: nat, fired: bool, c: nat)
    requires AtStage(ev, w, n, k, fired) && c <= n && c < |AllSteps(ev)|
    ensures k == 0 ==> !fired
    ensures EvidenceOk(ev) && Lookup(w.journal, Slot(Coordinator, BaselineKey)) == Some(VBaseline(BaselineOf(ev)))
    ensures var step := AllSteps(ev)[c];
            && step.spot in w.services
            && (c < n ==> && Lookup(w.journal, Central(step, INTENT)) == Some(VRequest(Req(ev, step)))
                          && Lookup(w.journal, Central(step, DONE)) == Some(VConfirmed(Req(ev, step)))
                          && !w.services[step.spot].masked && (step.op == START ==> w.services[step.spot].active))
            && (c == n && k > 0 ==> Central(step, INTENT) in w.journal && Central(step, DONE) !in w.journal)
            && (c == n && k == 0 ==> && Central(step, INTENT) !in w.journal && Central(step, DONE) !in w.journal
                                     && (if step.op == UNMASK then w.services[step.spot].masked
                                         else !w.services[step.spot].active && !w.services[step.spot].masked))
  {
    hide EvidenceOk, AllSteps, JournalAt, ServicesAt, SourcesAt, BarrierTraceComplete, ArchivesOnRecord, Req;
    StageGivesEvidence(ev, w, n, k, fired);
    if k == 0 { NotFiredAtRest(ev, w, n, fired); }
    if c < n {
      CompletedRecords(ev, w.journal, n, k, c);
      CompletedEffect(ev, if fired then n + 1 else n, c);
    } else {
      BegunRecords(ev, w.journal, n, k);
      UnitInWorld(ev, w, n, k, fired);
      if k == 0 {
        UnitPresent(ev, n);
        StepEvaluates(ev, n);
      }
    }
  }

  lemma {:induction false} CompletedRecords(ev: Evidence, j: Journal, n: nat, k: nat, c: nat)
    requires EvidenceOk(ev) && JournalAt(ev, j, n, k) && c < n
    ensures Lookup(j, Central(AllSteps(ev)[c], INTENT)) == Some(VRequest(Req(ev, AllSteps(ev)[c])))
    ensures Lookup(j, Central(AllSteps(ev)[c], DONE)) == Some(VConfirmed(Req(ev, AllSteps(ev)[c])))
  {
    hide EvidenceOk, Staged, Clean, AllSteps, RequestList, RecordOk, Rows, Req;
    RequestSteps(ev);
    assert StepComplete(ev, j, RequestList(ev, ev.proof), c, ev.now);
  }

  lemma {:induction false} CompletedEffect(ev: Evidence, m: nat, c: nat)
    requires EvidenceOk(ev) && c < m <= |AllSteps(ev)|
    ensures AllSteps(ev)[c].spot in ServicesAt(ev, m)
    ensures Postcondition(AllSteps(ev)[c].op, ServicesAt(ev, m)[AllSteps(ev)[c].spot])
  {
    DoneStepsKept(ev.plan, ev.base, ev.now, m, c);
  }

  lemma {:induction false} BegunRecords(ev: Evidence, j: Journal, n: nat, k: nat)
    requires EvidenceOk(ev) && JournalAt(ev, j, n, k) && n < |AllSteps(ev)|
    ensures k > 0 ==> Central(AllSteps(ev)[n], INTENT) in j
    ensures k == 0 ==> Central(AllSteps(ev)[n], INTENT) !in j
    ensures Central(AllSteps(ev)[n], DONE) !in j
  {
    hide EvidenceOk, AllSteps, CompleteBefore, Clean, Req, Staged;
    if k > 0 { RequestRecord(ev, j, n, k); }
    AbsentRecords(ev, j, n, k);
  }

  lemma {:induction false} StartFacts(ev: Evidence, w: World, n: nat, k: nat, fired: bool)
    requires AtStage(ev, w, n, k, fired)
    ensures EvidenceOk(ev) && ValidServices(ev.plan, ev.base, true)
    ensures Lookup(w.journal, Slot(Coordinator, BaselineKey)) == Some(VBaseline(BaselineOf(ev)))
    ensures AllSteps(ev)[0..] == StepsFrom(ev.plan, ev.base, 0, 0, 0, 0)
  {
    hide JournalAt, BarrierTraceComplete, ArchivesOnRecord, EffectsAt, ValidServices, ValidPlan, StepsFrom;
  }

  predicate NodeRestored(plan: Plan, base: Services, services: Services, r: nat)
    requires r < |plan.participants|
  {
    forall u | u in Units(plan.table) ::
      var spot := Spot(plan.participants[r].node, u); spot in base && spot in services && services[spot] == base[spot]
  }

  /** When the loops are through, everything is back. */
  lemma {:induction false} EndFacts(ev: Evidence, w: World, n: nat, k: nat, fired: bool, c: nat)
    requires AtStage(ev, w, n, k, fired) && c <= n
    requires AllSteps(ev)[c..] == StepsFrom(ev.plan, ev.base, PhaseCount(ev.plan.table), 0, 0, 0)
    ensures n == |AllSteps(ev)| && k == 0 && !fired
    ensures w.services == ev.base && w.effects == AllSteps(ev)
    ensures forall r | 0 <= r < |ev.plan.participants| :: NodeRestored(ev.plan, ev.base, w.services, r)
  {
    hide JournalAt, Admitted, ValidServices, ValidPlan, WorldAt, SourcesAt;
    assert StepsFrom(ev.plan, ev.base, PhaseCount(ev.plan.table), 0, 0, 0) == [];
    AtTheEnd(ev, w.journal, n, k);
    assert AllSteps(ev)[..n] == AllSteps(ev);
    HoldThenRestoreIsIdentity(ev.plan, ev.base, ev.now);
    EveryNodeHere(ev);
  }

  lemma {:induction false} EveryNodeHere(ev: Evidence)
    requires EvidenceOk(ev)
    ensures forall r | 0 <= r < |ev.plan.participants| :: NodeRestored(ev.plan, ev.base, ev.base, r)
  {
    hide ValidPlan, Units;
    forall r, u | 0 <= r < |ev.plan.participants| && u in Units(ev.plan.table)
      ensures Spot(ev.plan.participants[r].node, u) in ev.base
    {
      assert Spot(ev.plan.participants[r].node, u) in Spots(ev.plan);
    }
  }

  lemma {:induction false} AtTheEnd(ev: Evidence, j: Journal, n: nat, k: nat)
    requires EvidenceOk(ev) && JournalAt(ev, j, n, k)
    ensures n <= |AllSteps(ev)| && (n == |AllSteps(ev)| ==> k == 0)
  {
    hide EvidenceOk, AllSteps, CompleteBefore, Clean, Staged;
  }

  lemma {:induction false} AttemptFits(ev: Evidence, j: Journal, n: nat, v: Value)
    requires EvidenceOk(ev) && n < |AllSteps(ev)| && v.VAttempt? && v.effect == Req(ev, AllSteps(ev)[n])
    ensures ValueOk(ev, j, n, 1, v)
  {
    hide EvidenceOk, AllSteps, Req, IssuanceAt;
  }

  lemma {:induction false} CopyFits(ev: Evidence, j: Journal, n: nat, v: Value)
    requires EvidenceOk(ev) && n < |AllSteps(ev)| && Lookup(j, Local(AllSteps(ev)[n], DONE)) == Some(v)
    ensures ValueOk(ev, j, n, 5, v)
  {
    hide EvidenceOk, AllSteps, Req, IssuanceAt;
  }

  lemma {:induction false} CompletionFits(ev: Evidence, w: World, n: nat)
    requires AtStage(ev, w, n, 6, true) && n < |AllSteps(ev)|
    ensures EvidenceOk(ev)
    ensures var attempt, receipt := TransportSlot(AllSteps(ev)[n], false), ReceiptSlot(AllSteps(ev)[n]);
            && attempt in w.journal && receipt in w.journal
            && ValueOk(ev, w.journal, n, 6, VTransported(w.journal[attempt], w.journal[receipt]))
  {
    hide EvidenceOk, AllSteps, Admitted, CompleteBefore, Clean, Req, Staged, IssuanceAt;
    StagedValue(ev, w.journal, n, 6, 1);
    StagedValue(ev, w.journal, n, 6, 5);
  }

  lemma {:induction false} SyncMeansFollowing(ev: Evidence, view: Option<Inspection>, w: World)
    requires InSync(ev, view, w)
    ensures view.Some? && view.value.records == w.journal && view.value.pending == map[]
  {
    hide AppliedOk, EvidenceOk;
  }

  lemma {:induction false} EffectIsNew(ev: Evidence, w: World, n: nat, k: nat)
    requires AtStage(ev, w, n, k, false) && n < |AllSteps(ev)|
    ensures AllSteps(ev)[n] !in w.effects
  {
    hide EvidenceOk, JournalAt, Admitted, AllSteps;
    RequestSteps(ev);
  }

  lemma {:induction false} GrantIsJustified(step: Step, v: Value)
    ensures forall records, applied :: RecordJustified(records, applied, Local(step, GRANT), v)
  {}

  /** Publishing the grant the provider has computed: where it goes and what a
      second look at the position then shows. */
  lemma {:induction false} IssueGrant(ev: Evidence, j: Journal, server: ServerGrant, view: PhaseView, phase: Option<PhaseView>)
    requires ValidPlan(ev.plan, ev.now) && 0 < server.expiresAt - server.issuedAt <= 30 && server.op == server.request.op
    requires phase == Phase(ev, j, ev.now, server.request) == Some(view)
    requires view.current in {None, Some(VIssuance(IssuanceFor(ev, view, server)))}
    ensures var g, slot := IssuanceFor(ev, view, server), Local(StepOf(server.request), GRANT);
            && Publish(j, g) == j[slot := VIssuance(g)] && view.current == Lookup(j, slot)
            && (view.current.Some? ==> Publish(j, g) == j)
            && Lookup(Publish(j, g), slot) == Some(VIssuance(g))
            && Phase(ev, Publish(j, g), ev.now, server.request) == Some(view.(current := Some(VIssuance(g))))
            && AuthorizationOn(ev, server, j, ev.now) == Some(g)
  {
    hide Admitted, AtPosition, RequestList, IndexOf, Rows;
    var g := IssuanceFor(ev, view, server);
    PublishedPhase(ev, j, ev.now, server.request, g);
  }

  lemma {:induction false} AdmissionIsJustified(plan: Plan, slot: Slot, v: Value)
    requires slot.owner == Coordinator && !StepRecord(slot.key)
    ensures KnownOwner(plan, slot.owner)
    ensures forall records, applied :: RecordJustified(records, applied, slot, v)
  {}

  // ----- what durable state says about the past -----

  /** Read off the journals: the completed steps are a prefix of the list, the
      intended ones that prefix or one more, and the effects that happened are the
      completed ones and at most that one more. */
  lemma {:induction false} DurableShape(ev: Evidence, w: World, n: nat, k: nat, fired: bool)
    requires AtStage(ev, w, n, k, fired)
    ensures n <= |AllSteps(ev)| && (k > 0 ==> n < |AllSteps(ev)|) && (fired ==> k >= 4)
    ensures forall step :: Central(step, DONE) in w.journal <==> step in AllSteps(ev)[..n]
    ensures forall step :: Central(step, INTENT) in w.journal
                           <==> step in AllSteps(ev)[..if k > 0 then n + 1 else n]
    ensures w.effects == AllSteps(ev)[..if fired then n + 1 else n]
  {
    hide EvidenceOk, AllSteps, Admitted, ServicesAt, SourcesAt;
    StageGivesEvidence(ev, w, n, k, fired);
    NotFiredEarly(ev, w, n, k, fired);
    forall step
      ensures Central(step, DONE) in w.journal <==> step in AllSteps(ev)[..n]
      ensures Central(step, INTENT) in w.journal <==> step in AllSteps(ev)[..if k > 0 then n + 1 else n]
    {
      ShapeAt(ev, w.journal, n, k, step);
    }
  }

  lemma {:induction false} NotFiredEarly(ev: Evidence, w: World, n: nat, k: nat, fired: bool)
    requires AtStage(ev, w, n, k, fired)
    ensures (fired ==> k >= 4 && n < |AllSteps(ev)|) && (k > 0 ==> n < |AllSteps(ev)|)
    ensures w.effects == AllSteps(ev)[..if fired then n + 1 else n]
  {
    hide EvidenceOk, AllSteps, Admitted, CompleteBefore, Clean, Staged;
  }

  lemma {:induction false} ShapeAt(ev: Evidence, j: Journal, n: nat, k: nat, step: Step)
    requires EvidenceOk(ev) && JournalAt(ev, j, n, k) && n <= |AllSteps(ev)| && (k > 0 ==> n < |AllSteps(ev)|)
    ensures Central(step, DONE) in j <==> step in AllSteps(ev)[..n]
    ensures Central(step, INTENT) in j <==> step in AllSteps(ev)[..if k > 0 then n + 1 else n]
  {
    hide EvidenceOk, AllSteps, CompleteBefore, Staged;
    var steps := AllSteps(ev);
    RequestSteps(ev);
    if step in steps[..n] {
      var i :| 0 <= i < n && steps[i] == step;
      CompletedRecords(ev, j, n, k, i);
      assert step in steps[..if k > 0 then n + 1 else n];
    } else if n < |steps| && step == steps[n] {
      BegunRecords(ev, j, n, k);
      if k > 0 { assert steps[..n + 1][n] == step; }
    } else {
      assert Clean(j, step);
      assert SlotAt(step, 0) !in j && SlotAt(step, 7) !in j;
      if k > 0 { assert steps[..n + 1] == steps[..n] + [steps[n]]; }
    }
  }

  /** No effect happens twice, and every effect of a later phase comes after all
      the effects the baseline wants of the earlier phases, on every node. */
  lemma {:induction false} EffectsAreOrdered(ev: Evidence, w: World, n: nat, k: nat, fired: bool, i: nat)
    requires AtStage(ev, w, n, k, fired) && i < |w.effects|
    ensures forall h | 0 <= h < i :: w.effects[h] != w.effects[i]
    ensures forall step: Step | step.spot in ev.base && Wanted(ev.plan, ev.base, step)
                          && step.spot.unit in BarrierMasks(ev.plan.table)
                          && PhaseOf(ev.plan.table, step.spot.unit) < PhaseOf(ev.plan.table, w.effects[i].spot.unit) ::
              step in w.effects[..i] && Central(step, DONE) in w.journal
  {
    hide EvidenceOk, AllSteps, AtStage, Wanted, BarrierMasks;
    StageGivesEvidence(ev, w, n, k, fired);
    DurableShape(ev, w, n, k, fired);
    RequestSteps(ev);
    forall step: Step | step.spot in ev.base && Wanted(ev.plan, ev.base, step)
                  && step.spot.unit in BarrierMasks(ev.plan.table)
                  && PhaseOf(ev.plan.table, step.spot.unit) < PhaseOf(ev.plan.table, w.effects[i].spot.unit)
      ensures step in w.effects[..i] && Central(step, DONE) in w.journal
    {
      var h := EarlierInList(ev, step, i);
      assert w.effects[..i][h] == step;
      assert AllSteps(ev)[..n][h] == step;
    }
  }

  lemma {:induction false} EarlierInList(ev: Evidence, step: Step, i: nat) returns (h: nat)
    requires EvidenceOk(ev) && i < |AllSteps(ev)|
    requires Wanted(ev.plan, ev.base, step) && step.spot.unit in BarrierMasks(ev.plan.table)
    requires PhaseOf(ev.plan.table, step.spot.unit) < PhaseOf(ev.plan.table, AllSteps(ev)[i].spot.unit)
    ensures h < i && AllSteps(ev)[h] == step
  {
    hide Steps, Wanted, BarrierMasks;
    h := EarlierPhasePrecedes(ev.plan, ev.base, ev.now, step, i);
  }

  /** An inspector that has read the journals as they stand and knows the effects
      that happened. */
  lemma {:induction false} KnownEffects(ev: Evidence, m: nat) returns (intents: map<Step, Request>, applied: map<Step, UnitState>)
    requires EvidenceOk(ev) && m <= |AllSteps(ev)|
    ensures intents.Keys == DoneSteps(ev.plan, ev.base, m) == applied.Keys
    ensures forall i | 0 <= i < m :: AllSteps(ev)[i] in applied && applied[AllSteps(ev)[i]] == UnitAfter(ev, i)
  {
    hide EvidenceOk, AllSteps, UnitAfter, Steps;
    if m == 0 {
      intents, applied := map[], map[];
    } else {
      intents, applied := KnownEffects(ev, m - 1);
      AppliedGrows(ev, intents, applied, m - 1);
      intents, applied := intents[AllSteps(ev)[m - 1] := Req(ev, AllSteps(ev)[m - 1])],
                          applied[AllSteps(ev)[m - 1] := UnitAfter(ev, m - 1)];
    }
  }

  lemma {:induction false} ReaderOf(ev: Evidence, w: World, n: nat, k: nat, fired: bool) returns (st: Inspection)
    requires AtStage(ev, w, n, k, fired)
    ensures st.count == 0 && InSync(ev, Some(st), w)
  {
    hide EvidenceOk, AllSteps, JournalAt, Admitted, DoneSteps, UnitAfter;
    EffectCount(ev, w, n, k, fired);
    var intents, applied := KnownEffects(ev, |w.effects|);
    st := Inspection(w.journal, map[], intents, applied, 0);
  }

  lemma {:induction false} WhereStopped(ev: Evidence, view: Option<Inspection>, w: World, m: nat) returns (n: nat, k: nat, fired: bool)
    requires StoppedIn(ev, view, w, m)
    ensures AtStage(ev, w, n, k, fired) && m <= n
  {
    hide AtStage;
    if AtStage(ev, w, m + 1, 0, false) {
      n, k, fired := m + 1, 0, false;
    } else {
      n := m;
      k, fired :| AtStage(ev, w, m, k, fired);
    }
  }

  lemma {:induction false} NothingRead(plan: Plan, start: Inspection)
    ensures ReplayOn(plan, start, []) == Some(start)
  {}

  /** A restoration that has reached the end stays there. */
  lemma {:induction false} EndIsFinal(ev: Evidence, w: World, n: nat, k: nat, fired: bool)
    requires AtStage(ev, w, n, k, fired)
    ensures n <= |AllSteps(ev)|
    ensures n == |AllSteps(ev)| ==> k == 0 && !fired && w.services == ev.base && w.effects == AllSteps(ev)
  {
    hide AtStage, StepsFrom;
    StageGivesEvidence(ev, w, n, k, fired);
    if n == |AllSteps(ev)| {
      NoStepsLeft(ev.plan, ev.base);
      assert AllSteps(ev)[n..] == [];
      EndFacts(ev, w, n, k, fired, n);
    }
  }

  /** And every unit that was not masked before the hold has its own source back. */
  lemma {:induction false} SourcesAreBack(ev: Evidence, w: World, n: nat, k: nat, fired: bool)
    requires AtStage(ev, w, n, k, fired) && n == |AllSteps(ev)|
    ensures forall spot | spot in ev.base && !ev.base[spot].masked && spot.unit in BarrierMasks(ev.plan.table) ::
              spot in w.sources && spot in ev.baseSources && w.sources[spot] == ev.baseSources[spot]
  {
    hide ValidPlan, ValidServices, ValidSources, SourcesPreserved, Targets, SourcesAfter, JournalAt, Admitted, DoneSteps, Held, WorldAt, Steps;
    forall spot | spot in ev.base && !ev.base[spot].masked && spot.unit in BarrierMasks(ev.plan.table)
      ensures spot in w.sources && spot in ev.baseSources && w.sources[spot] == ev.baseSources[spot]
    {
      SourcesRestored(ev.plan, ev.base, ev.now, ev.baseSources, ev.heldSources, spot);
      WorldKeys(ev, n);
    }
  }

  lemma {:induction false} NoStepsLeft(plan: Plan, base: Services)
    ensures StepsFrom(plan, base, PhaseCount(plan.table), 0, 0, 0) == []
  {}

  // ----- what can be granted at all -----

  lemma {:induction false} CompletedIsNotPending(ev: Evidence, j: Journal, n: nat, k: nat, p: nat)
    requires EvidenceOk(ev) && JournalAt(ev, j, n, k) && p < n <= |AllSteps(ev)|
    ensures !StepPending(j, Req(ev, AllSteps(ev)[p]))
  {
    hide EvidenceOk, AllSteps, JournalAt;
    CompletedRecords(ev, j, n, k, p);
    RequestStep(ev, p);
  }

  lemma {:induction false} BegunIsNotComplete(ev: Evidence, j: Journal, n: nat, k: nat, lastTime: int)
    requires EvidenceOk(ev) && JournalAt(ev, j, n, k) && n < |AllSteps(ev)| && n < |RequestList(ev, ev.proof)|
    ensures !StepComplete(ev, j, RequestList(ev, ev.proof), n, lastTime)
  {
    hide EvidenceOk, AllSteps, JournalAt, RequestList, RecordOk, Rows;
    RequestSteps(ev);
    BegunRecords(ev, j, n, k);
  }

  lemma {:induction false} PendingMeansBegun(ev: Evidence, j: Journal, n: nat, k: nat)
    requires EvidenceOk(ev) && JournalAt(ev, j, n, k) && n < |AllSteps(ev)|
    requires StepPending(j, Req(ev, AllSteps(ev)[n]))
    ensures 1 <= k <= 4
  {
    hide EvidenceOk, AllSteps, CompleteBefore, Clean, Staged, IssuanceAt, UnitAfter;
    RequestStep(ev, n);
    BegunRecords(ev, j, n, k);
    if k > 4 { ReceiptRecord(ev, j, n, k); }
  }

  /** In every reachable state the provider's position test passes for one request at
      most: the one the coordinator has intended and no receipt has come for. */
  lemma {:induction false} OnlyThePendingIsGranted(ev: Evidence, w: World, n: nat, k: nat, fired: bool, lastTime: int, request: Request)
    requires AtStage(ev, w, n, k, fired) && Phase(ev, w.journal, lastTime, request).Some?
    ensures n < |AllSteps(ev)| && 1 <= k <= 4 && request == Req(ev, AllSteps(ev)[n])
  {
    hide EvidenceOk, AllSteps, JournalAt, ServicesAt, SourcesAt, StepPending, StepComplete, ForbiddenUntouched, Untouched, Req;
    hide BarrierTraceComplete, ArchivesOnRecord, RequestList;
    StageGivesEvidence(ev, w, n, k, fired);
    RequestSteps(ev);
    var requests := RequestList(ev, ev.proof);
    var p := IndexOf(requests, request);
    if p < n { CompletedIsNotPending(ev, w.journal, n, k, p); }
    if n < p { BegunIsNotComplete(ev, w.journal, n, k, lastTime); }
    if p == n { PendingMeansBegun(ev, w.journal, n, k); }
  }
}
