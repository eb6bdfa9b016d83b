/** How far a restoration has got, read off its durable state alone: n steps are
    complete and, of the next one, a prefix of its eight records is on disk.  The
    invariant says what every one of those records contains, where the services
    stand and which effects have happened.  */
module Progress {
  import opened Common
  import opened RestorePlan
  import opened ServiceWorld
  import opened Records
  import opened Inspector
  import opened Grants

  datatype World = World(journal: Journal, services: Services, sources: Sources, effects: seq<Step>)

  /** Evidence a restoration can be carried out on. */
  predicate EvidenceOk(ev: Evidence) {
    && ValidPlan(ev.plan, ev.now)
    && ValidServices(ev.plan, ev.base, true)
    && ev.held == Held(ev.plan, ev.base)
    && ValidSources(ev.plan, ev.base, ev.baseSources)
    && ValidSources(ev.plan, ev.held, ev.heldSources)
    && SourcesPreserved(ev.base, ev.baseSources, ev.heldSources)
    && ev.plan.issuedAt <= ev.issuedAt <= ev.now <= ev.expiresAt <= ev.plan.expiresAt
    && 0 < ev.expiresAt - ev.issuedAt <= 30
    && ev.proof.plan == ev.plan
  }

  function AllSteps(ev: Evidence): seq<Step> {
    Steps(ev.plan, ev.base)
  }

  function Req(ev: Evidence, step: Step): Request {
    RequestOf(ev.plan, BaselineOf(ev), ev.proof, step)
  }

  function ServicesAt(ev: Evidence, n: nat): Services
    requires n <= |AllSteps(ev)|
  {
    WorldAt(ev.plan, ev.base, n)
  }

  function SourcesAt(ev: Evidence, n: nat): Sources
    requires n <= |AllSteps(ev)| && ev.heldSources.Keys <= ev.baseSources.Keys
  {
    SourcesAfter(ev.heldSources, ev.baseSources, DoneSteps(ev.plan, ev.base, n))
  }

  /** The unit a step works on, just before and just after the step. */
  function UnitBefore(ev: Evidence, n: nat): UnitState
    requires EvidenceOk(ev) && n < |AllSteps(ev)|
  {
    UnitPresent(ev, n);
    UnitState(ServicesAt(ev, n)[AllSteps(ev)[n].spot], SourcesAt(ev, n)[AllSteps(ev)[n].spot])
  }

  function UnitAfter(ev: Evidence, n: nat): UnitState
    requires EvidenceOk(ev) && n < |AllSteps(ev)|
  {
    UnitPresent(ev, n);
    var step := AllSteps(ev)[n];
    UnitState(Effect(step.op, UnitBefore(ev, n).service),
              EffectSource(step.op, UnitBefore(ev, n).source, ev.baseSources[step.spot]))
  }

  lemma {:induction false} UnitPresent(ev: Evidence, n: nat)
    requires EvidenceOk(ev) && n < |AllSteps(ev)|
    ensures AllSteps(ev)[n].spot in ev.base && AllSteps(ev)[n].spot in ev.baseSources
    ensures AllSteps(ev)[n].spot in ServicesAt(ev, n) && AllSteps(ev)[n].spot in SourcesAt(ev, n)
  {
    ListedIsWanted(ev.plan, ev.base, ev.now, n);
  }

  function SnapshotAt(ev: Evidence, n: nat): Snapshot
    requires EvidenceOk(ev) && n <= |AllSteps(ev)|
  {
    Snapshot(ServicesAt(ev, n), SourcesAt(ev, n))
  }

  function ServerAt(ev: Evidence, n: nat): ServerGrant
    requires EvidenceOk(ev) && n < |AllSteps(ev)|
  {
    var step := AllSteps(ev)[n];
    ServerGrant(Req(ev, step), AfterPackage(ev.plan, step.spot.node), UnitBefore(ev, n), UnitAfter(ev, n).source,
                ev.issuedAt, ev.expiresAt, step.op, SnapshotAt(ev, n))
  }

  function IssuanceAt(ev: Evidence, j: Journal, n: nat): Issuance
    requires EvidenceOk(ev) && n < |AllSteps(ev)|
  {
    IssuanceFor(ev, PhaseView(n, Rows(j, RequestList(ev, ev.proof), n), None), ServerAt(ev, n))
  }

  // ----- the eight records of a step, in the order they are written -----

  function SlotAt(step: Step, rank: nat): Slot {
    if rank == 0 then Central(step, INTENT)
    else if rank == 1 then TransportSlot(step, false)
    else if rank == 2 then Local(step, GRANT)
    else if rank == 3 then Local(step, INTENT)
    else if rank == 4 then Local(step, DONE)
    else if rank == 5 then ReceiptSlot(step)
    else if rank == 6 then TransportSlot(step, true)
    else Central(step, DONE)
  }

  predicate ValueOk(ev: Evidence, j: Journal, n: nat, rank: nat, v: Value)
    requires EvidenceOk(ev) && n < |AllSteps(ev)|
  {
    var step := AllSteps(ev)[n];
    var g := IssuanceAt(ev, j, n);
    if rank == 0 then v == VRequest(Req(ev, step))
    else if rank == 1 then v.VAttempt? && v.effect == Req(ev, step)
    else if rank == 2 then v == VIssuance(g)
    else if rank == 3 then
      v.VLocalIntent?
      && v.intent == LocalIntent(Req(ev, step), g.binding.executor, g.binding.before, g.grant, v.intent.process)
    else if rank == 4 then
      IntentAt(j, step).Some?
      && v == VReceipt(Receipt(Req(ev, step), IntentAt(j, step).value, UnitAfter(ev, n), 0, ev.now, ev.now))
    else if rank == 5 then Lookup(j, Local(step, DONE)) == Some(v)
    else if rank == 6 then
      TransportSlot(step, false) in j && ReceiptSlot(step) in j
      && v == VTransported(j[TransportSlot(step, false)], j[ReceiptSlot(step)])
    else v == VConfirmed(Req(ev, step))
  }

  predicate Clean(j: Journal, step: Step) {
    forall rank | 0 <= rank < 8 :: SlotAt(step, rank) !in j
  }

  /** Of step n exactly the first k records are present, each as it should be. */
  predicate Staged(ev: Evidence, j: Journal, n: nat, k: nat)
    requires EvidenceOk(ev) && n < |AllSteps(ev)|
  {
    var step := AllSteps(ev)[n];
    && (forall rank | 0 <= rank < k && rank < 8 :: SlotAt(step, rank) in j && ValueOk(ev, j, n, rank, j[SlotAt(step, rank)]))
    && (forall rank | k <= rank < 8 :: SlotAt(step, rank) !in j)
  }

  ghost predicate CompleteBefore(ev: Evidence, j: Journal, n: nat)
    requires EvidenceOk(ev) && n <= |RequestList(ev, ev.proof)|
  {
    forall i | 0 <= i < n :: StepComplete(ev, j, RequestList(ev, ev.proof), i, ev.now)
  }

  ghost predicate JournalAt(ev: Evidence, j: Journal, n: nat, k: nat)
    requires EvidenceOk(ev)
  {
    var steps := AllSteps(ev);
    && n <= |steps| && (n < |steps| || k == 0) && k < 8
    && CompleteBefore(ev, j, n)
    && (n < |steps| ==> Staged(ev, j, n, k))
    && (forall step | step !in steps[..n] && (n < |steps| ==> step != steps[n]) :: Clean(j, step))
  }

  /** n steps complete, k records of the next, and its effect done or not. */
  ghost predicate AtStage(ev: Evidence, w: World, n: nat, k: nat, fired: bool) {
    && EvidenceOk(ev)
    && JournalAt(ev, w.journal, n, k)
    && Admitted(ev, w.journal, AnyRequest(ev))
    && (k < 4 ==> !fired) && (k > 4 ==> fired) && (fired ==> n < |AllSteps(ev)|)
    && EffectsAt(ev, w, if fired then n + 1 else n)
  }

  /** The first m effects, each once and in order, and nothing else, have happened. */
  ghost predicate EffectsAt(ev: Evidence, w: World, m: nat)
    requires EvidenceOk(ev)
  {
    && m <= |AllSteps(ev)|
    && w.effects == AllSteps(ev)[..m] && w.services == ServicesAt(ev, m) && w.sources == SourcesAt(ev, m)
  }

  /** Admission looks at a request only for its baseline and release. */
  function AnyRequest(ev: Evidence): Request {
    Request("", ev.plan, "", "", "", UNMASK, BaselineOf(ev), ev.proof)
  }

  lemma {:induction false} RequestSteps(ev: Evidence)
    requires EvidenceOk(ev)
    ensures |RequestList(ev, ev.proof)| == |AllSteps(ev)|
    ensures forall i | 0 <= i < |AllSteps(ev)| ::
              StepOf(RequestList(ev, ev.proof)[i]) == AllSteps(ev)[i] && RequestList(ev, ev.proof)[i] == Req(ev, AllSteps(ev)[i])
    ensures forall i, k | 0 <= i < k < |AllSteps(ev)| :: AllSteps(ev)[i] != AllSteps(ev)[k]
  {
    RequestStepsDistinct(ev, ev.proof);
    forall i, k | 0 <= i < k < |AllSteps(ev)| ensures AllSteps(ev)[i] != AllSteps(ev)[k] {
      StepsDistinct(ev.plan, ev.base, ev.now, i, k);
    }
  }

  // ----- writing the next record -----

  /** Records of different steps never share a slot. */
  lemma {:induction false} SlotsApart(a: Step, b: Step, r: nat, s: nat)
    requires r < 8 && s < 8 && (a != b || r != s)
    ensures SlotAt(a, r) != SlotAt(b, s)
  {}

  lemma {:induction false} OtherStepsRows(ev: Evidence, j: Journal, j': Journal, n: nat)
    requires EvidenceOk(ev) && n <= |AllSteps(ev)|
    requires forall i, rank | 0 <= i < n && 0 <= rank < 8 ::
               Lookup(j, SlotAt(AllSteps(ev)[i], rank)) == Lookup(j', SlotAt(AllSteps(ev)[i], rank))
    ensures Rows(j, RequestList(ev, ev.proof), n) == Rows(j', RequestList(ev, ev.proof), n)
  {
    RequestSteps(ev);
    forall i | 0 <= i < n
      ensures RowAt(j, RequestList(ev, ev.proof)[i]) == RowAt(j', RequestList(ev, ev.proof)[i])
    {
      var step := AllSteps(ev)[i];
      assert Lookup(j, SlotAt(step, 2)) == Lookup(j', SlotAt(step, 2));
      assert Lookup(j, SlotAt(step, 3)) == Lookup(j', SlotAt(step, 3));
      assert Lookup(j, SlotAt(step, 4)) == Lookup(j', SlotAt(step, 4));
    }
  }

  lemma {:induction false} CompleteStays(ev: Evidence, j: Journal, j': Journal, i: nat)
    requires EvidenceOk(ev) && i < |AllSteps(ev)|
    requires forall h, rank | 0 <= h <= i && 0 <= rank < 8 ::
               Lookup(j, SlotAt(AllSteps(ev)[h], rank)) == Lookup(j', SlotAt(AllSteps(ev)[h], rank))
    requires i < |RequestList(ev, ev.proof)| && StepComplete(ev, j, RequestList(ev, ev.proof), i, ev.now)
    ensures StepComplete(ev, j', RequestList(ev, ev.proof), i, ev.now)
  {
    RequestSteps(ev);
    OtherStepsRows(ev, j, j', i);
    var step := AllSteps(ev)[i];
    assert Lookup(j, SlotAt(step, 0)) == Lookup(j', SlotAt(step, 0));
    assert Lookup(j, SlotAt(step, 2)) == Lookup(j', SlotAt(step, 2));
    assert Lookup(j, SlotAt(step, 3)) == Lookup(j', SlotAt(step, 3));
    assert Lookup(j, SlotAt(step, 4)) == Lookup(j', SlotAt(step, 4));
    assert Lookup(j, SlotAt(step, 5)) == Lookup(j', SlotAt(step, 5));
    assert Lookup(j, SlotAt(step, 7)) == Lookup(j', SlotAt(step, 7));
  }

  /** What a record must contain depends on earlier records only. */
  lemma {:induction false} ValueStays(ev: Evidence, j: Journal, j': Journal, n: nat, rank: nat, v: Value)
    requires EvidenceOk(ev) && n < |AllSteps(ev)|
    requires forall i, r | 0 <= i < n && 0 <= r < 8 ::
               Lookup(j, SlotAt(AllSteps(ev)[i], r)) == Lookup(j', SlotAt(AllSteps(ev)[i], r))
    requires forall r | 0 <= r < rank && r < 8 :: Lookup(j, SlotAt(AllSteps(ev)[n], r)) == Lookup(j', SlotAt(AllSteps(ev)[n], r))
    requires ValueOk(ev, j, n, rank, v)
    ensures ValueOk(ev, j', n, rank, v)
  {
    hide EvidenceOk, Steps, ServerAt, UnitAfter, Rows, RequestList, Req, AllSteps;
    OtherStepsRows(ev, j, j', n);
    if rank == 4 { assert Lookup(j, SlotAt(AllSteps(ev)[n], 3)) == Lookup(j', SlotAt(AllSteps(ev)[n], 3)); }
    if rank == 5 { assert Lookup(j, SlotAt(AllSteps(ev)[n], 4)) == Lookup(j', SlotAt(AllSteps(ev)[n], 4)); }
    if rank == 6 {
      assert Lookup(j, SlotAt(AllSteps(ev)[n], 1)) == Lookup(j', SlotAt(AllSteps(ev)[n], 1));
      assert Lookup(j, SlotAt(AllSteps(ev)[n], 5)) == Lookup(j', SlotAt(AllSteps(ev)[n], 5));
    }
  }

  /** A record of step n leaves every record of the earlier steps alone. */
  lemma {:induction false} NewRecordApart(ev: Evidence, j: Journal, n: nat, k: nat, v: Value)
    requires EvidenceOk(ev) && n < |AllSteps(ev)| && k < 8
    ensures var j' := j[SlotAt(AllSteps(ev)[n], k) := v];
            && (forall i, r {:trigger SlotAt(AllSteps(ev)[i], r)} | 0 <= i < n && 0 <= r < 8 ::
                  Lookup(j, SlotAt(AllSteps(ev)[i], r)) == Lookup(j', SlotAt(AllSteps(ev)[i], r)))
            && (forall r {:trigger SlotAt(AllSteps(ev)[n], r)} | 0 <= r < 8 && r != k ::
                  Lookup(j, SlotAt(AllSteps(ev)[n], r)) == Lookup(j', SlotAt(AllSteps(ev)[n], r)))
  {
    RequestSteps(ev);
    var steps := AllSteps(ev);
    forall i, r | 0 <= i < n && 0 <= r < 8 ensures SlotAt(steps[i], r) != SlotAt(steps[n], k) {
      SlotsApart(steps[i], steps[n], r, k);
    }
    forall r | 0 <= r < 8 && r != k ensures SlotAt(steps[n], r) != SlotAt(steps[n], k) {
      SlotsApart(steps[n], steps[n], r, k);
    }
  }

  lemma {:induction false} EarlierStepsStay(ev: Evidence, j: Journal, n: nat, k: nat, v: Value)
    requires EvidenceOk(ev) && JournalAt(ev, j, n, k) && n < |AllSteps(ev)|
    ensures CompleteBefore(ev, j[SlotAt(AllSteps(ev)[n], k) := v], n)
  {
    var j' := j[SlotAt(AllSteps(ev)[n], k) := v];
    NewRecordApart(ev, j, n, k, v);
    forall i | 0 <= i < n ensures StepComplete(ev, j', RequestList(ev, ev.proof), i, ev.now) {
      CompleteStays(ev, j, j', i);
    }
  }

  lemma {:induction false} OthersStayClean(ev: Evidence, j: Journal, n: nat, k: nat, v: Value, step: Step)
    requires EvidenceOk(ev) && n < |AllSteps(ev)| && k < 8
    requires step != AllSteps(ev)[n] && Clean(j, step)
    ensures Clean(j[SlotAt(AllSteps(ev)[n], k) := v], step)
  {
    forall r | 0 <= r < 8 ensures SlotAt(step, r) != SlotAt(AllSteps(ev)[n], k) {
      SlotsApart(step, AllSteps(ev)[n], r, k);
    }
  }

  lemma {:induction false} StagedGrows(ev: Evidence, j: Journal, n: nat, k: nat, v: Value)
    requires EvidenceOk(ev) && n < |AllSteps(ev)| && k < 8
    requires Staged(ev, j, n, k) && ValueOk(ev, j, n, k, v)
    ensures Staged(ev, j[SlotAt(AllSteps(ev)[n], k) := v], n, k + 1)
  {
    var step := AllSteps(ev)[n];
    var j' := j[SlotAt(step, k) := v];
    NewRecordApart(ev, j, n, k, v);
    forall rank | 0 <= rank < k + 1 && rank < 8
      ensures SlotAt(step, rank) in j' && ValueOk(ev, j', n, rank, j'[SlotAt(step, rank)])
    {
      if rank < k { assert Lookup(j, SlotAt(step, rank)) == Lookup(j', SlotAt(step, rank)); }
      ValueStays(ev, j, j', n, rank, j'[SlotAt(step, rank)]);
    }
    forall rank | k + 1 <= rank < 8 ensures SlotAt(step, rank) !in j' {
      assert Lookup(j, SlotAt(step, rank)) == Lookup(j', SlotAt(step, rank));
    }
  }

  /** The next record of a pending step, if it says what it should. */
  lemma {:induction false} Advance(ev: Evidence, j: Journal, n: nat, k: nat, v: Value)
    requires EvidenceOk(ev) && JournalAt(ev, j, n, k) && n < |AllSteps(ev)| && k < 7
    requires ValueOk(ev, j, n, k, v)
    ensures JournalAt(ev, j[SlotAt(AllSteps(ev)[n], k) := v], n, k + 1)
  {
    EarlierStepsStay(ev, j, n, k, v);
    StagedGrows(ev, j, n, k, v);
    forall step | step !in AllSteps(ev)[..n] && step != AllSteps(ev)[n]
      ensures Clean(j[SlotAt(AllSteps(ev)[n], k) := v], step)
    {
      OthersStayClean(ev, j, n, k, v, step);
    }
  }

  lemma {:induction false} IssuanceOk(ev: Evidence, j: Journal, n: nat)
    requires EvidenceOk(ev) && n < |AllSteps(ev)|
    ensures var g := IssuanceAt(ev, j, n);
            && RecordOk(g) && g.binding.request == Req(ev, AllSteps(ev)[n]) && g.binding.phaseIndex == n
            && g.binding.prefix == Rows(j, RequestList(ev, ev.proof), n) && g.binding.closure == ev.closure
            && g.grant.issuedAt == ev.issuedAt && g.grant.expiresAt == ev.expiresAt
            && g.grant.after == UnitAfter(ev, n).source && g.grant.request == g.binding.request
            && g.grant.op == AllSteps(ev)[n].op && g.grant.before == UnitBefore(ev, n) && g.binding.before == UnitBefore(ev, n)
            && g.grant.executor == AfterPackage(ev.plan, AllSteps(ev)[n].spot.node) == g.binding.executor
            && g.binding.server == ServerAt(ev, n)
  {}

  lemma {:induction false} StagedValue(ev: Evidence, j: Journal, n: nat, k: nat, rank: nat)
    requires EvidenceOk(ev) && n < |AllSteps(ev)| && Staged(ev, j, n, k)
    requires rank < k && rank < 8
    ensures SlotAt(AllSteps(ev)[n], rank) in j
    ensures ValueOk(ev, j, n, rank, j[SlotAt(AllSteps(ev)[n], rank)])
  {}

  lemma {:induction false} RequestRecord(ev: Evidence, j: Journal, n: nat, k: nat)
    requires EvidenceOk(ev) && n < |AllSteps(ev)| && Staged(ev, j, n, k) && 0 < k
    ensures Lookup(j, Central(AllSteps(ev)[n], INTENT)) == Some(VRequest(Req(ev, AllSteps(ev)[n])))
  {
    StagedValue(ev, j, n, k, 0);
  }

  lemma {:induction false} GrantRecord(ev: Evidence, j: Journal, n: nat, k: nat)
    requires EvidenceOk(ev) && n < |AllSteps(ev)| && Staged(ev, j, n, k) && 2 < k
    ensures Lookup(j, Local(AllSteps(ev)[n], GRANT)) == Some(VIssuance(IssuanceAt(ev, j, n)))
  {
    StagedValue(ev, j, n, k, 2);
  }

  lemma {:induction false} IntentRecord(ev: Evidence, j: Journal, n: nat, k: nat)
    requires EvidenceOk(ev) && n < |AllSteps(ev)| && Staged(ev, j, n, k) && 3 < k
    ensures var intent, g := IntentAt(j, AllSteps(ev)[n]), IssuanceAt(ev, j, n);
            && intent.Some? && Lookup(j, Local(AllSteps(ev)[n], INTENT)) == Some(VLocalIntent(intent.value))
            && intent.value == LocalIntent(Req(ev, AllSteps(ev)[n]), g.binding.executor, g.binding.before, g.grant, intent.value.process)
  {
    StagedValue(ev, j, n, k, 3);
  }

  lemma {:induction false} ReceiptRecord(ev: Evidence, j: Journal, n: nat, k: nat)
    requires EvidenceOk(ev) && n < |AllSteps(ev)| && Staged(ev, j, n, k) && 4 < k
    ensures IntentAt(j, AllSteps(ev)[n]).Some?
    ensures Lookup(j, Local(AllSteps(ev)[n], DONE))
            == Some(VReceipt(Receipt(Req(ev, AllSteps(ev)[n]), IntentAt(j, AllSteps(ev)[n]).value, UnitAfter(ev, n), 0, ev.now, ev.now)))
  {
    StagedValue(ev, j, n, k, 4);
  }

  lemma {:induction false} ConfirmedRecords(ev: Evidence, j: Journal, n: nat)
    requires EvidenceOk(ev) && n < |AllSteps(ev)| && Staged(ev, j, n, 8)
    ensures Lookup(j, ReceiptSlot(AllSteps(ev)[n])) == Lookup(j, Local(AllSteps(ev)[n], DONE))
    ensures Lookup(j, Central(AllSteps(ev)[n], DONE)) == Some(VConfirmed(Req(ev, AllSteps(ev)[n])))
  {
    StagedValue(ev, j, n, 8, 5);
    StagedValue(ev, j, n, 8, 7);
  }

  lemma {:induction false} FullyStagedIsComplete(ev: Evidence, j: Journal, n: nat)
    requires EvidenceOk(ev) && n < |AllSteps(ev)| && Staged(ev, j, n, 8)
    requires n < |RequestList(ev, ev.proof)|
    ensures StepComplete(ev, j, RequestList(ev, ev.proof), n, ev.now)
  {
    hide EvidenceOk, Staged, Steps, IssuanceAt, UnitAfter, StepComplete, RecordOk, Rows, RequestList;
    RequestSteps(ev);
    IssuanceOk(ev, j, n);
    RequestRecord(ev, j, n, 8);
    GrantRecord(ev, j, n, 8);
    IntentRecord(ev, j, n, 8);
    ReceiptRecord(ev, j, n, 8);
    ConfirmedRecords(ev, j, n);
    AfterMeetsPostcondition(ev, n);
    EvidenceTimes(ev);
    Complete(ev, j, RequestList(ev, ev.proof), n, IssuanceAt(ev, j, n), IntentAt(j, AllSteps(ev)[n]).value, UnitAfter(ev, n));
  }

  lemma {:induction false} EvidenceTimes(ev: Evidence)
    requires EvidenceOk(ev)
    ensures ev.issuedAt <= ev.now <= ev.expiresAt
  {}

  lemma {:induction false} AfterMeetsPostcondition(ev: Evidence, n: nat)
    requires EvidenceOk(ev) && n < |AllSteps(ev)|
    ensures Postcondition(AllSteps(ev)[n].op, UnitAfter(ev, n).service)
  {
    WorldStep(ev.plan, ev.base, ev.now, n);
  }

  lemma {:induction false} Complete(ev: Evidence, j: Journal, requests: seq<Request>, n: nat, g: Issuance, intent: LocalIntent, after: UnitState)
    requires n < |requests|
    requires var step := StepOf(requests[n]);
             && Lookup(j, Central(step, INTENT)) == Some(VRequest(requests[n]))
             && GrantAt(j, step) == Some(g) && IntentAt(j, step) == Some(intent)
             && ReceiptAt(j, step) == Some(Receipt(requests[n], intent, after, 0, ev.now, ev.now))
             && Lookup(j, ReceiptSlot(step)) == Some(VReceipt(ReceiptAt(j, step).value))
             && Lookup(j, Central(step, DONE)) == Some(VConfirmed(requests[n]))
    requires RecordOk(g) && g.binding.request == requests[n] && g.binding.phaseIndex == n
    requires g.binding.prefix == Rows(j, requests, n) && g.binding.closure == ev.closure
    requires intent == LocalIntent(requests[n], g.binding.executor, g.binding.before, g.grant, intent.process)
    requires g.grant.issuedAt <= ev.now <= g.grant.expiresAt
    requires Postcondition(requests[n].op, after.service) && after.source == g.grant.after
    ensures StepComplete(ev, j, requests, n, ev.now)
  {}

  /** The last record completes the step. */
  lemma {:induction false} Finish(ev: Evidence, j: Journal, n: nat, v: Value)
    requires EvidenceOk(ev) && JournalAt(ev, j, n, 7) && n < |AllSteps(ev)|
    requires ValueOk(ev, j, n, 7, v)
    ensures JournalAt(ev, j[SlotAt(AllSteps(ev)[n], 7) := v], n + 1, 0)
  {
    hide EvidenceOk, Steps, StepComplete, ValueOk, RequestList;
    var steps := AllSteps(ev);
    var j' := j[SlotAt(steps[n], 7) := v];
    RequestSteps(ev);
    EarlierStepsStay(ev, j, n, 7, v);
    StagedGrows(ev, j, n, 7, v);
    FullyStagedIsComplete(ev, j', n);
    assert steps[..n + 1] == steps[..n] + [steps[n]];
    forall step | step !in steps[..n] && step != steps[n] ensures Clean(j', step) {
      OthersStayClean(ev, j, n, 7, v, step);
    }
    if n + 1 < |steps| {
      assert steps[n + 1] !in steps[..n];
      assert Clean(j', steps[n + 1]);
    }
  }

  // ----- the provider and the validator let the pending request through -----

  lemma {:induction false} CleanIsUntouched(j: Journal, step: Step)
    requires Clean(j, step)
    ensures Untouched(j, step)
  {
    assert SlotAt(step, 0) !in j && SlotAt(step, 7) !in j && SlotAt(step, 5) !in j;
    assert SlotAt(step, 2) !in j && SlotAt(step, 3) !in j && SlotAt(step, 4) !in j;
  }

  lemma {:induction false} NotYetReachedIsClean(ev: Evidence, j: Journal, n: nat, k: nat, step: Step)
    requires EvidenceOk(ev) && JournalAt(ev, j, n, k) && n < |AllSteps(ev)|
    requires forall i | 0 <= i <= n :: AllSteps(ev)[i] != step
    ensures Untouched(j, step)
  {
    CleanIsUntouched(j, step);
  }

  lemma {:induction false} PendingStep(ev: Evidence, j: Journal, n: nat, k: nat)
    requires EvidenceOk(ev) && n < |AllSteps(ev)| && Staged(ev, j, n, k) && 1 <= k <= 4
    ensures StepPending(j, Req(ev, AllSteps(ev)[n]))
    ensures Lookup(j, Local(AllSteps(ev)[n], GRANT)) == (if k >= 3 then Some(VIssuance(IssuanceAt(ev, j, n))) else None)
  {
    hide EvidenceOk, Staged, Steps, IssuanceAt, UnitBefore, RecordOk;
    IssuanceOk(ev, j, n);
    RequestRecord(ev, j, n, k);
    AbsentRecords(ev, j, n, k);
    if k >= 3 { GrantRecord(ev, j, n, k); }
    if k >= 4 { IntentRecord(ev, j, n, k); }
  }

  lemma {:induction false} AbsentRecords(ev: Evidence, j: Journal, n: nat, k: nat)
    requires EvidenceOk(ev) && n < |AllSteps(ev)| && Staged(ev, j, n, k)
    ensures var step := AllSteps(ev)[n];
            && (k <= 0 ==> Central(step, INTENT) !in j) && (k <= 1 ==> TransportSlot(step, false) !in j)
            && (k <= 2 ==> Local(step, GRANT) !in j) && (k <= 3 ==> Local(step, INTENT) !in j)
            && (k <= 4 ==> Local(step, DONE) !in j) && (k <= 5 ==> ReceiptSlot(step) !in j)
            && (k <= 6 ==> TransportSlot(step, true) !in j) && (k <= 7 ==> Central(step, DONE) !in j)
  {
    var step := AllSteps(ev)[n];
    assert forall rank | k <= rank < 8 :: SlotAt(step, rank) !in j;
    assert SlotAt(step, 0) == Central(step, INTENT) && SlotAt(step, 1) == TransportSlot(step, false);
    assert SlotAt(step, 2) == Local(step, GRANT) && SlotAt(step, 3) == Local(step, INTENT);
    assert SlotAt(step, 4) == Local(step, DONE) && SlotAt(step, 5) == ReceiptSlot(step);
    assert SlotAt(step, 6) == TransportSlot(step, true) && SlotAt(step, 7) == Central(step, DONE);
  }

  lemma {:induction false} AtPendingPosition(ev: Evidence, j: Journal, n: nat, k: nat)
    requires EvidenceOk(ev) && JournalAt(ev, j, n, k) && n < |AllSteps(ev)| && 1 <= k <= 4
    requires n < |RequestList(ev, ev.proof)|
    ensures AtPosition(ev, j, RequestList(ev, ev.proof), n, ev.now)
  {
    RequestSteps(ev);
    PendingStep(ev, j, n, k);
    var requests := RequestList(ev, ev.proof);
    forall i | n < i < |requests| ensures Untouched(j, StepOf(requests[i])) {
      NotYetReachedIsClean(ev, j, n, k, StepOf(requests[i]));
    }
    forall step | step !in AllSteps(ev) ensures Untouched(j, step) {
      NotYetReachedIsClean(ev, j, n, k, step);
    }
    assert forall i | 0 <= i < |requests| :: StepOf(requests[i]) == AllSteps(ev)[i];
  }

  lemma {:induction false} PendingIndex(ev: Evidence, n: nat)
    requires EvidenceOk(ev) && n < |AllSteps(ev)|
    ensures IndexOf(RequestList(ev, ev.proof), Req(ev, AllSteps(ev)[n])) == n < |RequestList(ev, ev.proof)|
  {
    RequestSteps(ev);
    var requests, request := RequestList(ev, ev.proof), Req(ev, AllSteps(ev)[n]);
    var i := IndexOf(requests, request);
    assert i <= n;
    assert StepOf(requests[i]) == StepOf(requests[n]);
  }

  /** While step n is pending its request is the one at the provider's position. */
  lemma {:induction false} PhasePasses(ev: Evidence, j: Journal, n: nat, k: nat)
    requires EvidenceOk(ev) && JournalAt(ev, j, n, k) && n < |AllSteps(ev)| && 1 <= k <= 4
    requires Admitted(ev, j, AnyRequest(ev))
    ensures |RequestList(ev, ev.proof)| == |AllSteps(ev)|
    ensures Phase(ev, j, ev.now, Req(ev, AllSteps(ev)[n]))
            == Some(PhaseView(n, Rows(j, RequestList(ev, ev.proof), n),
                              if k >= 3 then Some(VIssuance(IssuanceAt(ev, j, n))) else None))
  {
    PendingIndex(ev, n);
    PendingStep(ev, j, n, k);
    AtPendingPosition(ev, j, n, k);
    assert Admitted(ev, j, Req(ev, AllSteps(ev)[n]));
  }

  lemma {:induction false} WorldEvaluates(ev: Evidence, n: nat)
    requires EvidenceOk(ev) && n <= |AllSteps(ev)|
    ensures ValidServices(ev.plan, ServicesAt(ev, n), false)
    ensures ValidSources(ev.plan, ServicesAt(ev, n), SourcesAt(ev, n))
    ensures SourcesPreserved(ev.base, ev.baseSources, SourcesAt(ev, n))
    ensures ReleaseGate(ev.plan, ev.base, ServicesAt(ev, n))
  {
    WorldValid(ev.plan, ev.base, ev.now, n);
    SourcesValid(ev.plan, ev.base, ev.now, ev.baseSources, ev.heldSources, n);
    GateHolds(ev.plan, ev.base, ev.now, n);
  }

  lemma {:induction false} StepEvaluates(ev: Evidence, n: nat)
    requires EvidenceOk(ev) && n < |AllSteps(ev)|
    ensures var step := AllSteps(ev)[n];
            && step.spot in ev.base && step.spot.unit in BarrierMasks(ev.plan.table)
            && EarlierPhasesRestored(ev.plan, ev.base, ServicesAt(ev, n), step.spot.unit)
            && !ev.base[step.spot].masked
            && (step.op == START ==> ev.base[step.spot].active && step.spot.unit in Targets(ev.plan.table))
            && Predecessor(ev.plan.table, ev.base[step.spot], UnitBefore(ev, n).service, step.spot.unit, step.op)
  {
    assert ev.base.Keys == Spots(ev.plan) && ValidServices(ev.plan, ev.base, true);
    EarlierPhasesHold(ev.plan, ev.base, ev.now, n);
    PredecessorHolds(ev.plan, ev.base, ev.now, n);
    StartIsUnmaskedTarget(ev.plan, ev.base, ev.now, n);
  }

  /** The release validator accepts the pending step in the world it finds. */
  lemma {:induction false} EvaluatePasses(ev: Evidence, n: nat)
    requires EvidenceOk(ev) && n < |AllSteps(ev)|
    ensures Evaluate(ev, SnapshotAt(ev, n), Req(ev, AllSteps(ev)[n]), AfterPackage(ev.plan, AllSteps(ev)[n].spot.node), UnitBefore(ev, n))
            == Some(ServerAt(ev, n))
  {
    hide ValidPlan, ValidServices, ValidSources, SourcesPreserved, ReleaseGate, EarlierPhasesRestored, Predecessor;
    hide Steps, WorldAt, Held, Targets, BarrierMasks, SourcesAfter, DoneSteps, PackageFrom, BootFrom, EffectSource, Effect;
    WorldEvaluates(ev, n);
    StepEvaluates(ev, n);
    UnitPresent(ev, n);
    assert StepOf(Req(ev, AllSteps(ev)[n])) == AllSteps(ev)[n];
  }
}
